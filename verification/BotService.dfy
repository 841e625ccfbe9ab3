/** Bots and assignments: the service and repository methods. */
module BotService {
  import opened Wrappers
  import opened Query
  import opened Rows
  import opened Tables
  import opened Database
  import Bots

  method InsertBot(session: Session, id: BotId, row: Bot) returns (error: Option<AppError>)
    modifies session`bots
    ensures Agrees(error, Bots.InsertBot(old(session.Bots()), id, row), session.Bots())
  {
    if id in session.bots || Bots.LiveByTelegramId(session.Bots(), row.telegramBotId) != {}
       || (exists k | k in session.bots :: session.bots[k].apiKey == row.apiKey) {
      return Some(IntegrityError);
    }
    session.bots := session.bots[id := row];
    return None;
  }

  method RegisterBot(session: Session, tenant: TenantId, id: BotId, telegramBotId: int, key: nat)
    returns (error: Option<AppError>)
    modifies session`bots
    ensures Agrees(error, Bots.RegisterBot(old(session.Bots()), tenant, id, telegramBotId, key), session.Bots())
  {
    match ScalarOneOrNone(Bots.LiveByTelegramId(session.Bots(), telegramBotId))
    case MultipleRows => return Some(MultipleResultsFound);
    case OneRow(_) => return Some(BotAlreadyRegistered);
    case NoRow => error := InsertBot(session, id, Bot(tenant, telegramBotId, key, false, None));
  }

  method SoftDeleteBot(session: Session, bot: BotId, now: nat)
    requires bot in session.bots
    modifies session`bots
    ensures session.bots == old(session.bots)[bot := old(session.bots)[bot].(deletedAt := Some(now))]
  {
    session.bots := session.bots[bot := session.bots[bot].(deletedAt := Some(now))];
  }

  method SoftDeleteAssignment(session: Session, id: AssignmentId, now: nat)
    requires id in session.assignments
    modifies session`assignments
    ensures session.assignments == old(session.assignments)[id := old(session.assignments)[id].(deletedAt := Some(now))]
  {
    session.assignments := session.assignments[id := session.assignments[id].(deletedAt := Some(now))];
  }

  method UpdateSubscriptionPolicy(session: Session, tenant: TenantId, bot: BotId, enabled: bool)
    returns (error: Option<AppError>)
    modifies session`bots
    ensures Agrees(error, Bots.UpdatePolicy(old(session.Bots()), tenant, bot, enabled), session.Bots())
  {
    if !Bots.HasBot(session.Bots(), tenant, bot) {
      return Some(BotNotFound);
    }
    session.bots := session.bots[bot := session.bots[bot].(webhookEnabled := enabled)];
    return None;
  }

  method DeleteBot(session: Session, tenant: TenantId, bot: BotId, now: nat) returns (error: Option<AppError>)
    modifies session`bots
    ensures Agrees(error, Bots.DeleteBot(old(session.Bots()), tenant, bot, now), session.Bots())
  {
    if !Bots.HasBot(session.Bots(), tenant, bot) {
      return Some(BotNotFound);
    }
    SoftDeleteBot(session, bot, now);
    return None;
  }

  method InsertAssignment(session: Session, id: AssignmentId, row: BotAssignment) returns (error: Option<AppError>)
    modifies session`assignments
    ensures Agrees(error, Bots.PutLiveAssignment(old(session.Bots()), id, row), session.Bots())
  {
    if Bots.HasLiveAssignment(session.Bots(), row.bot, row.user) {
      return Some(IntegrityError);
    }
    session.assignments := session.assignments[id := row.(deletedAt := None)];
    return None;
  }

  /** A soft-deleted assignment is revived rather than inserted again. */
  method AssignBot(session: Session, tenant: TenantId, bot: BotId, user: UserId, id: AssignmentId)
    returns (error: Option<AppError>)
    modifies session`assignments
    ensures Agrees(error, Bots.AssignBot(old(session.Bots()), Seat(tenant, user) in session.members,
                                         tenant, bot, user, id), session.Bots())
  {
    if !Bots.HasBot(session.Bots(), tenant, bot) {
      return Some(BotNotFound);
    }
    if Seat(tenant, user) !in session.members {
      return Some(BotAssignmentUserNotMember);
    }
    match ScalarOneOrNone(Bots.RowsFor(session.Bots(), tenant, bot, user))
    case MultipleRows => return Some(MultipleResultsFound);
    case OneRow(k) =>
      if IsLive(session.assignments[k].deletedAt) {
        return Some(BotAssignmentAlreadyExists);
      }
      error := InsertAssignment(session, k, session.assignments[k]);
    case NoRow =>
      if id in session.assignments {
        return Some(IntegrityError);
      }
      error := InsertAssignment(session, id, BotAssignment(tenant, bot, user, None));
  }

  method UnassignBot(session: Session, tenant: TenantId, bot: BotId, user: UserId, now: nat)
    returns (error: Option<AppError>)
    modifies session`assignments
    ensures Agrees(error, Bots.UnassignBot(old(session.Bots()), tenant, bot, user, now), session.Bots())
  {
    if !Bots.HasBot(session.Bots(), tenant, bot) {
      return Some(BotNotFound);
    }
    match ScalarOneOrNone(Bots.LiveRowsFor(session.Bots(), tenant, bot, user))
    case MultipleRows => return Some(MultipleResultsFound);
    case NoRow => return Some(BotAssignmentNotFound);
    case OneRow(k) =>
      SoftDeleteAssignment(session, k, now);
      return None;
  }

  /** The cascade of the organization delete: assignments first, then bots, row by row. */
  method CascadeDeleteForOrganization(session: Session, tenant: TenantId, now: nat)
    modifies session`bots, session`assignments
    ensures session.Bots() == Bots.Retired(old(session.Bots()), tenant, now)
  {
    RetireAssignments(session, tenant, now);
    RetireBots(session, tenant, now);
  }

  method RetireAssignments(session: Session, tenant: TenantId, now: nat)
    modifies session`assignments
    ensures session.assignments == Bots.Retired(old(session.Bots()), tenant, now).assignments
  {
    var rows := Select(set k | k in session.assignments && session.assignments[k].tenant == tenant
                              && IsLive(session.assignments[k].deletedAt));
    var i := 0;
    while i < |rows|
      invariant 0 <= i <= |rows|
      invariant session.assignments.Keys == old(session.assignments).Keys
      invariant forall k | k in session.assignments ::
                  session.assignments[k] == if k in rows[..i] then old(session.assignments)[k].(deletedAt := Some(now))
                                            else old(session.assignments)[k]
    {
      assert rows[i] in rows;
      SoftDeleteAssignment(session, rows[i], now);
      i := i + 1;
    }
    assert rows[..i] == rows;
  }

  method RetireBots(session: Session, tenant: TenantId, now: nat)
    modifies session`bots
    ensures session.bots == Bots.Retired(old(session.Bots()), tenant, now).bots
  {
    var rows := Select(set k | k in session.bots && session.bots[k].tenant == tenant && IsLive(session.bots[k].deletedAt));
    var i := 0;
    while i < |rows|
      invariant 0 <= i <= |rows|
      invariant session.bots.Keys == old(session.bots).Keys
      invariant forall k | k in session.bots ::
                  session.bots[k] == if k in rows[..i] then old(session.bots)[k].(deletedAt := Some(now))
                                     else old(session.bots)[k]
    {
      assert rows[i] in rows;
      SoftDeleteBot(session, rows[i], now);
      i := i + 1;
    }
    assert rows[..i] == rows;
  }
}
