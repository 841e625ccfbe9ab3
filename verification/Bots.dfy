/** Bots and bot assignments. */
module Bots {
  import opened Wrappers
  import opened Query
  import opened Rows
  import opened Tables

  /** `get_bot`: live, and of this tenant. */
  predicate HasBot(b: BotTables, tenant: TenantId, bot: BotId) {
    bot in b.bots && b.bots[bot].tenant == tenant && IsLive(b.bots[bot].deletedAt)
  }

  /** The tenant-agnostic lookup of the webhook. */
  predicate IsLiveBot(b: BotTables, bot: BotId) {
    bot in b.bots && IsLive(b.bots[bot].deletedAt)
  }

  function LiveByTelegramId(b: BotTables, id: int): set<BotId> {
    set k | k in b.bots && b.bots[k].telegramBotId == id && IsLive(b.bots[k].deletedAt)
  }

  function LiveByApiKey(b: BotTables, key: nat): set<BotId> {
    set k | k in b.bots && b.bots[k].apiKey == key && IsLive(b.bots[k].deletedAt)
  }

  /** The insert, with its primary key, the unique API key and the partial unique index on live bots. */
  function InsertBot(b: BotTables, id: BotId, row: Bot): Result<BotTables, AppError> {
    if id in b.bots || LiveByTelegramId(b, row.telegramBotId) != {}
       || (exists k | k in b.bots :: b.bots[k].apiKey == row.apiKey)
    then Err(IntegrityError)
    else Ok(b.(bots := b.bots[id := row]))
  }

  function RegisterBot(b: BotTables, tenant: TenantId, id: BotId, telegramBotId: int, key: nat):
    Result<BotTables, AppError>
  {
    match ScalarOneOrNone(LiveByTelegramId(b, telegramBotId))
    case MultipleRows => Err(MultipleResultsFound)
    case OneRow(_) => Err(BotAlreadyRegistered)
    case NoRow => InsertBot(b, id, Bot(tenant, telegramBotId, key, false, None))
  }

  function GetBotByApiKey(b: BotTables, key: nat): Result<BotId, AppError> {
    match ScalarOneOrNone(LiveByApiKey(b, key))
    case MultipleRows => Err(MultipleResultsFound)
    case NoRow => Err(BotApiKeyInvalid)
    case OneRow(bot) => Ok(bot)
  }

  function UpdatePolicy(b: BotTables, tenant: TenantId, bot: BotId, enabled: bool): Result<BotTables, AppError> {
    if !HasBot(b, tenant, bot) then Err(BotNotFound)
    else Ok(b.(bots := b.bots[bot := b.bots[bot].(webhookEnabled := enabled)]))
  }

  function DeleteBot(b: BotTables, tenant: TenantId, bot: BotId, now: nat): Result<BotTables, AppError> {
    if !HasBot(b, tenant, bot) then Err(BotNotFound)
    else Ok(b.(bots := b.bots[bot := b.bots[bot].(deletedAt := Some(now))]))
  }

  function RowsFor(b: BotTables, tenant: TenantId, bot: BotId, user: UserId): set<AssignmentId> {
    set k | k in b.assignments && b.assignments[k].tenant == tenant
            && b.assignments[k].bot == bot && b.assignments[k].user == user
  }

  function LiveRowsFor(b: BotTables, tenant: TenantId, bot: BotId, user: UserId): set<AssignmentId> {
    set k | k in RowsFor(b, tenant, bot, user) && IsLive(b.assignments[k].deletedAt)
  }

  predicate HasLiveAssignment(b: BotTables, bot: BotId, user: UserId) {
    exists k | k in b.assignments ::
      b.assignments[k].bot == bot && b.assignments[k].user == user && IsLive(b.assignments[k].deletedAt)
  }

  /** The insert or revival, with the partial unique index on live assignments. */
  function PutLiveAssignment(b: BotTables, id: AssignmentId, row: BotAssignment): Result<BotTables, AppError> {
    if HasLiveAssignment(b, row.bot, row.user) then Err(IntegrityError)
    else Ok(b.(assignments := b.assignments[id := row.(deletedAt := None)]))
  }

  function AssignBot(b: BotTables, isMember: bool, tenant: TenantId, bot: BotId, user: UserId, id: AssignmentId):
    Result<BotTables, AppError>
  {
    if !HasBot(b, tenant, bot) then Err(BotNotFound)
    else if !isMember then Err(BotAssignmentUserNotMember)
    else match ScalarOneOrNone(RowsFor(b, tenant, bot, user))
         case MultipleRows => Err(MultipleResultsFound)
         case OneRow(k) =>
           if IsLive(b.assignments[k].deletedAt) then Err(BotAssignmentAlreadyExists)
           else PutLiveAssignment(b, k, b.assignments[k])
         case NoRow =>
           if id in b.assignments then Err(IntegrityError)
           else PutLiveAssignment(b, id, BotAssignment(tenant, bot, user, None))
  }

  function UnassignBot(b: BotTables, tenant: TenantId, bot: BotId, user: UserId, now: nat):
    Result<BotTables, AppError>
  {
    if !HasBot(b, tenant, bot) then Err(BotNotFound)
    else match ScalarOneOrNone(LiveRowsFor(b, tenant, bot, user))
         case MultipleRows => Err(MultipleResultsFound)
         case NoRow => Err(BotAssignmentNotFound)
         case OneRow(k) => Ok(b.(assignments := b.assignments[k := b.assignments[k].(deletedAt := Some(now))]))
  }

  /** `is_assigned`; two matching rows would be an error, which the invariant below rules out. */
  function IsAssigned(b: BotTables, tenant: TenantId, bot: BotId, user: UserId): Result<bool, AppError> {
    match ScalarOneOrNone(LiveRowsFor(b, tenant, bot, user))
    case MultipleRows => Err(MultipleResultsFound)
    case NoRow => Ok(false)
    case OneRow(_) => Ok(true)
  }

  function BotRetired(row: Bot, tenant: TenantId, now: nat): Bot {
    if row.tenant == tenant && IsLive(row.deletedAt) then row.(deletedAt := Some(now)) else row
  }

  function AssignmentRetired(row: BotAssignment, tenant: TenantId, now: nat): BotAssignment {
    if row.tenant == tenant && IsLive(row.deletedAt) then row.(deletedAt := Some(now)) else row
  }

  /** The cascade: every live bot and assignment of the tenant is soft-deleted. */
  function Retired(b: BotTables, tenant: TenantId, now: nat): BotTables {
    BotTables(map k | k in b.bots :: BotRetired(b.bots[k], tenant, now),
              map k | k in b.assignments :: AssignmentRetired(b.assignments[k], tenant, now))
  }

  // ----- What every step keeps -----

  /** Live bots have distinct Telegram ids, and all bots distinct keys. */
  ghost predicate SoundBots(bots: map<BotId, Bot>) {
    && (forall j, k | j in bots && k in bots && j != k :: bots[j].apiKey != bots[k].apiKey)
    && (forall j, k | j in bots && k in bots && j != k && IsLive(bots[j].deletedAt) && IsLive(bots[k].deletedAt) ::
          bots[j].telegramBotId != bots[k].telegramBotId)
  }

  /** An assignment has its bot's tenant; at most one row ever exists per bot and user. */
  ghost predicate SoundAssignments(b: BotTables) {
    && (forall k | k in b.assignments ::
          b.assignments[k].bot in b.bots && b.bots[b.assignments[k].bot].tenant == b.assignments[k].tenant)
    && (forall j, k | j in b.assignments && k in b.assignments && j != k ::
          b.assignments[j].bot != b.assignments[k].bot || b.assignments[j].user != b.assignments[k].user)
  }

  ghost predicate Sound(b: BotTables) {
    SoundBots(b.bots) && SoundAssignments(b)
  }

  /** The database refused nothing and no single-row query met two rows. */
  ghost predicate NotRefused(r: Result<BotTables, AppError>) {
    r != Err(IntegrityError) && r != Err(MultipleResultsFound)
  }

  lemma RegisterKeepsSound(b: BotTables, tenant: TenantId, id: BotId, telegramBotId: int, key: nat)
    requires Sound(b)
    ensures var r := RegisterBot(b, tenant, id, telegramBotId, key);
            && (r.Ok? ==> Sound(r.value))
            && (id !in b.bots && (forall k | k in b.bots :: b.bots[k].apiKey != key) ==> NotRefused(r))
  {
    assert forall k | k in b.bots && IsLive(b.bots[k].deletedAt) && b.bots[k].telegramBotId == telegramBotId ::
        k in LiveByTelegramId(b, telegramBotId);
  }

  /** With its bot at hand, the tenant filter hides no row of a bot and user. */
  lemma RowsForIsAll(b: BotTables, tenant: TenantId, bot: BotId, user: UserId)
    requires Sound(b) && HasBot(b, tenant, bot)
    ensures forall k | k in b.assignments :: b.assignments[k].bot == bot && b.assignments[k].user == user
                                             <==> k in RowsFor(b, tenant, bot, user)
    ensures !ScalarOneOrNone(RowsFor(b, tenant, bot, user)).MultipleRows?
    ensures HasLiveAssignment(b, bot, user) <==> LiveRowsFor(b, tenant, bot, user) != {}
  {
    if HasLiveAssignment(b, bot, user) {
      var k :| k in b.assignments && b.assignments[k].bot == bot && b.assignments[k].user == user
               && IsLive(b.assignments[k].deletedAt);
      assert k in LiveRowsFor(b, tenant, bot, user);
    }
    if k :| k in LiveRowsFor(b, tenant, bot, user) {
      assert IsLive(b.assignments[k].deletedAt);
    }
  }

  lemma AssignKeepsSound(b: BotTables, isMember: bool, tenant: TenantId, bot: BotId, user: UserId, id: AssignmentId)
    requires Sound(b)
    ensures var r := AssignBot(b, isMember, tenant, bot, user, id);
            (r.Ok? ==> Sound(r.value)) && (id !in b.assignments ==> NotRefused(r))
  {
    if HasBot(b, tenant, bot) {
      RowsForIsAll(b, tenant, bot, user);
    }
  }

  lemma UnassignKeepsSound(b: BotTables, tenant: TenantId, bot: BotId, user: UserId, now: nat)
    requires Sound(b)
    ensures var r := UnassignBot(b, tenant, bot, user, now); (r.Ok? ==> Sound(r.value)) && NotRefused(r)
    ensures IsAssigned(b, tenant, bot, user).Ok?
  {
  }

  /** Updates in place keep the ids, keys and owners of every row, and revive no bot. */
  lemma InPlaceKeepsSound(b: BotTables, b': BotTables)
    requires Sound(b) && b'.bots.Keys == b.bots.Keys && b'.assignments.Keys == b.assignments.Keys
    requires forall k | k in b.bots ::
               && b'.bots[k].tenant == b.bots[k].tenant && b'.bots[k].apiKey == b.bots[k].apiKey
               && b'.bots[k].telegramBotId == b.bots[k].telegramBotId
               && (IsLive(b'.bots[k].deletedAt) ==> IsLive(b.bots[k].deletedAt))
    requires forall k | k in b.assignments ::
               && b'.assignments[k].tenant == b.assignments[k].tenant && b'.assignments[k].bot == b.assignments[k].bot
               && b'.assignments[k].user == b.assignments[k].user
    ensures Sound(b')
  {
    assert SoundBots(b'.bots);
    assert SoundAssignments(b');
  }

  lemma BotUpdatesKeepSound(b: BotTables, tenant: TenantId, bot: BotId, enabled: bool, now: nat)
    requires Sound(b)
    ensures UpdatePolicy(b, tenant, bot, enabled).Ok? ==> Sound(UpdatePolicy(b, tenant, bot, enabled).value)
    ensures DeleteBot(b, tenant, bot, now).Ok? ==> Sound(DeleteBot(b, tenant, bot, now).value)
    ensures Sound(Retired(b, tenant, now))
  {
    if HasBot(b, tenant, bot) {
      InPlaceKeepsSound(b, UpdatePolicy(b, tenant, bot, enabled).value);
      InPlaceKeepsSound(b, DeleteBot(b, tenant, bot, now).value);
    }
    InPlaceKeepsSound(b, Retired(b, tenant, now));
  }

  lemma ApiKeyNamesOneBot(b: BotTables, key: nat)
    requires Sound(b)
    ensures GetBotByApiKey(b, key) != Err(MultipleResultsFound)
    ensures GetBotByApiKey(b, key).Ok? ==> IsLiveBot(b, GetBotByApiKey(b, key).value)
  {
  }
}
