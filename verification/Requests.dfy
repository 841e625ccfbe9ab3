/** Dashboard and account requests, in every run: who may make them, when they succeed, and the rows they leave. */
module Requests {
  import opened Wrappers
  import opened Query
  import opened Rows
  import opened Tables
  import opened State
  import opened Platforms
  import opened Health
  import opened Columns
  import Organizations
  import Bots
  import Destinations
  import Auth
  import Frames

  // ----- Roles -----

  /** The roles that may do something. */
  ghost function RolesFor(p: Organizations.Permission): set<Role> {
    match p
    case BillingManage => {Owner}
    case OrganizationDelete => {Owner}
    case BotManage => {Owner, Admin}
    case DestinationManage => {Owner, Admin}
    case ManageMembers => {Owner, Admin}
    case BotView => {Owner, Admin, Member}
    case DestinationView => {Owner, Admin, Member}
    case MessageSend => {Owner, Admin, Member}
    case LogView => {Owner, Admin, Member}
  }

  lemma RolesMean(role: Role, p: Organizations.Permission)
    ensures Organizations.HasPermission(role, p) <==> role in RolesFor(p)
  {
  }

  /** Both guards admit exactly the roles for the permission. A stranger is told so by the tenant-scoped guard, and by
      the other one only when the organization is live; a member without the role lacks the permission. */
  lemma GuardsMean(o: OrgTables, user: UserId, tenant: TenantId, p: Organizations.Permission)
    requires Organizations.Staffed(o)
    ensures var allowed := HoldsRole(o, tenant, user, RolesFor(p));
            var member := Seat(tenant, user) in o.members;
            && Organizations.CheckPermission(o, user, tenant, p)
               == (if allowed then None else Some(if member then InsufficientPermission else NotOrganizationMember))
            && Organizations.CheckPathPermission(o, user, tenant, p)
               == (if allowed then None
                   else Some(if !IsOpen(o, tenant) then OrganizationNotFound
                             else if member then InsufficientPermission else NotOrganizationMember))
  {
    if Seat(tenant, user) in o.members {
      assert Organizations.IsActive(o, tenant);
      RolesMean(o.members[Seat(tenant, user)], p);
    }
    hide Organizations.RolePermissions;
  }

  ghost predicate Managing(s: Platform, tenant: TenantId, user: UserId) {
    HoldsRole(s.orgs, tenant, user, {Owner, Admin})
  }

  // ----- Organizations -----

  ghost predicate OnlyOwner(o: OrgTables, tenant: TenantId, user: UserId) {
    && Seat(tenant, user) in o.members && o.members[Seat(tenant, user)] == Owner
    && forall other | Seat(tenant, other) in o.members && o.members[Seat(tenant, other)] == Owner :: other == user
  }

  lemma LastOwnerMeans(o: OrgTables, tenant: TenantId, user: UserId)
    requires Seat(tenant, user) in o.members && o.members[Seat(tenant, user)] == Owner
    ensures |Organizations.OwnersOf(o, tenant)| <= 1 <==> OnlyOwner(o, tenant, user)
  {
    var owners, me := Organizations.OwnersOf(o, tenant), Seat(tenant, user);
    assert me in owners;
    var others := owners - {me};
    assert |owners| == |others| + 1;
    if OnlyOwner(o, tenant, user) {
      assert others == {};
    } else {
      var other :| Seat(tenant, other) in o.members && o.members[Seat(tenant, other)] == Owner && other != user;
      assert Seat(tenant, other) in others;
    }
  }

  /** Anybody may found an organization under a new id, and owns it. */
  lemma FoundingIsExact(ops: seq<Op>, user: UserId, id: TenantId)
    ensures var s, op := Run(ops), OnOrgs(Found(user, id));
            && (Handle(s, op).Ok? <==> id !in s.orgs.organizations)
            && Step(s, op) == if id in s.orgs.organizations then s
                              else s.(orgs := OrgTables(s.orgs.organizations[id := Organization(None)],
                                                        s.orgs.members[Seat(id, user) := Owner]))
  {
    hide Run, Healthy;
    RunIsHealthy(ops);
    FoundAt(Run(ops), user, id);
  }

  lemma FoundAt(s: Platform, user: UserId, id: TenantId)
    requires Healthy(s)
    ensures var op := OnOrgs(Found(user, id));
            && (Handle(s, op).Ok? <==> id !in s.orgs.organizations)
            && Step(s, op) == if id in s.orgs.organizations then s
                              else s.(orgs := OrgTables(s.orgs.organizations[id := Organization(None)],
                                                        s.orgs.members[Seat(id, user) := Owner]))
  {
    if Seat(id, user) in s.orgs.members {
      assert Organizations.IsActive(s.orgs, Seat(id, user).tenant);
    }
  }

  /** Owners and administrators add existing users that are not members yet, with the role they name. */
  lemma AddingIsExact(ops: seq<Op>, tenant: TenantId, actor: UserId, invited: Option<UserId>, role: Role)
    ensures var s, op := Run(ops), OnOrgs(AddMember(tenant, actor, invited, role));
            var fits := Managing(s, tenant, actor) && invited.Some? && Seat(tenant, invited.value) !in s.orgs.members;
            && (Handle(s, op).Ok? <==> fits)
            && Step(s, op) == (if !fits then s
                               else s.(orgs := s.orgs.(members := s.orgs.members[Seat(tenant, invited.value) := role])))
            && (Managing(s, tenant, actor) && !fits ==>
                  Handle(s, op) == Err(if invited.None? then MemberUserNotFound else AlreadyMember))
  {
    hide Run;
    RunIsHealthy(ops);
    GuardsMean(Run(ops).orgs, actor, tenant, Organizations.ManageMembers);
    hide Organizations.CheckPathPermission, Organizations.Staffed, HoldsRole;
    assert RolesFor(Organizations.ManageMembers) == {Owner, Admin};
  }

  /** They change the role of any member, except that the only owner stays one. */
  lemma RoleChangeIsExact(ops: seq<Op>, tenant: TenantId, actor: UserId, target: UserId, role: Role)
    ensures var s, op := Run(ops), OnOrgs(UpdateRole(tenant, actor, target, role));
            var known := Seat(tenant, target) in s.orgs.members;
            var fits := Managing(s, tenant, actor) && known && !(OnlyOwner(s.orgs, tenant, target) && role != Owner);
            && (Handle(s, op).Ok? <==> fits)
            && Step(s, op) == (if !fits then s
                               else s.(orgs := s.orgs.(members := s.orgs.members[Seat(tenant, target) := role])))
            && (Managing(s, tenant, actor) && !fits ==>
                  Handle(s, op) == Err(if known then LastOwner else MembershipNotFound))
  {
    hide Run;
    RunIsHealthy(ops);
    var o := Run(ops).orgs;
    GuardsMean(o, actor, tenant, Organizations.ManageMembers);
    if Seat(tenant, target) in o.members && o.members[Seat(tenant, target)] == Owner {
      LastOwnerMeans(o, tenant, target);
    }
    hide Organizations.CheckPathPermission, Organizations.Staffed, HoldsRole, Organizations.OwnersOf;
    assert RolesFor(Organizations.ManageMembers) == {Owner, Admin};
  }

  // ----- Bots -----

  ghost predicate TelegramIdTaken(b: BotTables, telegramBotId: int) {
    exists k | k in b.bots :: b.bots[k].telegramBotId == telegramBotId && b.bots[k].deletedAt.None?
  }

  ghost predicate KeyTaken(b: BotTables, key: nat) {
    exists k | k in b.bots :: b.bots[k].apiKey == key
  }

  ghost predicate IsAssignment(b: BotTables, k: AssignmentId, bot: BotId, user: UserId) {
    k in b.assignments && b.assignments[k].bot == bot && b.assignments[k].user == user
  }

  /** What a bot request does when the user may make it. */
  ghost predicate BotRequestDone(o: OrgTables, b: BotTables, r: Result<BotTables, AppError>, tenant: TenantId, op: BotOp,
                                 now: nat)
  {
    match op
    case RegisterBot(id, telegramBotId, key) =>
      if TelegramIdTaken(b, telegramBotId) then r == Err(BotAlreadyRegistered)
      else if id in b.bots || KeyTaken(b, key) then r == Err(IntegrityError)
      else r == Ok(b.(bots := b.bots[id := Bot(tenant, telegramBotId, key, false, None)]))
    case UpdatePolicy(bot, enabled) =>
      if !LiveBot(b, tenant, bot) then r == Err(BotNotFound)
      else var row := b.bots[bot];
           r == Ok(b.(bots := b.bots[bot := Bot(tenant, row.telegramBotId, row.apiKey, enabled, None)]))
    case DeleteBot(bot) =>
      if !LiveBot(b, tenant, bot) then r == Err(BotNotFound)
      else var row := b.bots[bot];
           r == Ok(b.(bots := b.bots[bot := Bot(tenant, row.telegramBotId, row.apiKey, row.webhookEnabled, Some(now))]))
    case AssignBot(bot, user, id) =>
      if !LiveBot(b, tenant, bot) then r == Err(BotNotFound)
      else if Seat(tenant, user) !in o.members then r == Err(BotAssignmentUserNotMember)
      else if exists k :: IsAssignment(b, k, bot, user) then
        exists k :: IsAssignment(b, k, bot, user) &&
          if b.assignments[k].deletedAt.None? then r == Err(BotAssignmentAlreadyExists)
          else r == Ok(b.(assignments := b.assignments[k := BotAssignment(tenant, bot, user, None)]))
      else if id in b.assignments then r == Err(IntegrityError)
      else r == Ok(b.(assignments := b.assignments[id := BotAssignment(tenant, bot, user, None)]))
    case UnassignBot(bot, user) =>
      if !LiveBot(b, tenant, bot) then r == Err(BotNotFound)
      else if exists k :: IsAssignment(b, k, bot, user) && b.assignments[k].deletedAt.None? then
        exists k :: IsAssignment(b, k, bot, user) && b.assignments[k].deletedAt.None?
                    && r == Ok(b.(assignments := b.assignments[k := BotAssignment(tenant, bot, user, Some(now))]))
      else r == Err(BotAssignmentNotFound)
  }

  lemma RegisterDone(o: OrgTables, b: BotTables, tenant: TenantId, id: BotId, telegramBotId: int, key: nat, now: nat)
    requires Bots.Sound(b)
    ensures BotRequestDone(o, b, Bots.RegisterBot(b, tenant, id, telegramBotId, key), tenant,
                           RegisterBot(id, telegramBotId, key), now)
  {
    var live := Bots.LiveByTelegramId(b, telegramBotId);
    assert TelegramIdTaken(b, telegramBotId) <==> live != {} by {
      if k :| k in live {
        assert k in b.bots;
      }
      if TelegramIdTaken(b, telegramBotId) {
        var k :| k in b.bots && b.bots[k].telegramBotId == telegramBotId && b.bots[k].deletedAt.None?;
        assert k in live;
      }
    }
  }

  lemma AssignDone(o: OrgTables, b: BotTables, tenant: TenantId, bot: BotId, user: UserId, id: AssignmentId, now: nat)
    requires Bots.Sound(b)
    ensures BotRequestDone(o, b, Bots.AssignBot(b, Seat(tenant, user) in o.members, tenant, bot, user, id), tenant,
                           AssignBot(bot, user, id), now)
  {
    if Bots.HasBot(b, tenant, bot) {
      Bots.RowsForIsAll(b, tenant, bot, user);
      var rows := Bots.RowsFor(b, tenant, bot, user);
      assert forall k :: IsAssignment(b, k, bot, user) <==> k in rows;
      if k :| k in rows {
        assert rows == {k};
        assert b.assignments[k].tenant == tenant;
        assert IsAssignment(b, k, bot, user);
      }
    }
  }

  lemma UnassignDone(o: OrgTables, b: BotTables, tenant: TenantId, bot: BotId, user: UserId, now: nat)
    requires Bots.Sound(b)
    ensures BotRequestDone(o, b, Bots.UnassignBot(b, tenant, bot, user, now), tenant, UnassignBot(bot, user), now)
  {
    if Bots.HasBot(b, tenant, bot) {
      Bots.RowsForIsAll(b, tenant, bot, user);
      var rows := Bots.LiveRowsFor(b, tenant, bot, user);
      assert forall k :: IsAssignment(b, k, bot, user) && b.assignments[k].deletedAt.None? <==> k in rows;
      if k :| k in rows {
        assert rows == {k};
        assert b.assignments[k].tenant == tenant;
      }
    }
  }

  lemma BotStepDone(o: OrgTables, b: BotTables, tenant: TenantId, op: BotOp, now: nat)
    requires Bots.Sound(b)
    ensures BotRequestDone(o, b, BotStep(o, b, tenant, op, now), tenant, op, now)
  {
    match op
    case RegisterBot(id, telegramBotId, key) => RegisterDone(o, b, tenant, id, telegramBotId, key, now);
    case AssignBot(bot, user, id) => AssignDone(o, b, tenant, bot, user, id, now);
    case UnassignBot(bot, user) => UnassignDone(o, b, tenant, bot, user, now);
    case UpdatePolicy(bot, enabled) => hide Bots.Sound;
    case DeleteBot(bot) => hide Bots.Sound;
  }

  /** In every run, bot requests are for owners and administrators of the live organization, and do to the rows exactly
      what their table says, and to nothing else. */
  lemma BotRequestIsExact(ops: seq<Op>, user: UserId, tenant: TenantId, bot: BotOp)
    ensures var s, op := Run(ops), OnBots(user, tenant, bot);
            && (!Managing(s, tenant, user) ==>
                  Handle(s, op) == Err(if Seat(tenant, user) in s.orgs.members then InsufficientPermission
                                       else NotOrganizationMember))
            && (Managing(s, tenant, user) ==>
                  exists r :: BotRequestDone(s.orgs, s.bots, r, tenant, bot, s.now)
                              && Handle(s, op) == if r.Ok? then Ok(s.(bots := r.value)) else Err(r.error))
  {
    hide Run;
    RunIsHealthy(ops);
    var s := Run(ops);
    GuardsMean(s.orgs, user, tenant, Organizations.BotManage);
    assert RolesFor(Organizations.BotManage) == {Owner, Admin};
    hide HoldsRole, BotRequestDone, BotStep, Organizations.CheckPermission, Organizations.Staffed, Bots.Sound;
    assert Bots.Sound(s.bots);
    BotStepDone(s.orgs, s.bots, tenant, bot, s.now);
  }

  // ----- Tokens -----

  /** What an account request does. */
  ghost predicate AuthRequestDone(o: OrgTables, a: AuthTables, r: Result<AuthTables, AppError>, op: AuthOp, now: nat) {
    match op
    case Login(user, token, expiresAt) =>
      if token in a.tokens then r == Err(IntegrityError)
      else r == Ok(AuthTables(a.tokens[token := RefreshToken(user, None, expiresAt, None, token)]))
    case Switch(user, tenant, token, expiresAt) =>
      if Seat(tenant, user) !in o.members then r == Err(NotOrganizationMember)
      else if token in a.tokens then r == Err(IntegrityError)
      else r == Ok(AuthTables(a.tokens[token := RefreshToken(user, Some(tenant), expiresAt, None, token)]))
    case Refresh(token, next, userIsActive, expiresAt) =>
      if !(token in a.tokens && a.tokens[token].revokedAt.None? && now <= a.tokens[token].expiresAt && userIsActive)
      then r == Err(RefreshTokenInvalid)
      else if next in a.tokens then r == Err(IntegrityError)
      else
        var t := a.tokens[token];
        r == Ok(AuthTables(a.tokens[token := RefreshToken(t.user, t.tenant, t.expiresAt, Some(now), t.family)]
                                   [next := RefreshToken(t.user, t.tenant, expiresAt, None, t.family)]))
  }

  /** An account request does to the tokens exactly what its table says, and to no other row: a refresh succeeds for a
      stored, unrevoked, unexpired token of an active user, revokes it now and stores its successor. */
  lemma AuthRequestIsExact(s: Platform, auth: AuthOp)
    ensures exists r :: AuthRequestDone(s.orgs, s.auth, r, auth, s.now)
                        && (Handle(s, OnAuth(auth)).Ok? <==> r.Ok?)
                        && (r.Err? ==> Handle(s, OnAuth(auth)) == Err(r.error))
                        && (r.Ok? ==> Handle(s, OnAuth(auth)).value
                                      == s.(auth := r.value,
                                            trace := s.trace + if auth.Refresh? then multiset{Exchanged(auth.token)}
                                                               else multiset{}))
  {
    AuthStepDone(s.orgs, s.auth, auth, s.now);
    hide AuthRequestDone, AuthStep;
  }

  lemma AuthStepDone(o: OrgTables, a: AuthTables, op: AuthOp, now: nat)
    ensures AuthRequestDone(o, a, AuthStep(o, a, op, now), op, now)
  {
  }
}
