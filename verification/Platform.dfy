/** One step of the running system, and whole runs. Each request and each task execution is one step. */
module Platforms {
  import opened Wrappers
  import opened Rows
  import opened Tables
  import opened State
  import Payload
  import Organizations
  import Bots
  import Destinations
  import Webhooks
  import Messaging
  import Delivery
  import Auth

  datatype OrgOp =
    | Found(user: UserId, id: TenantId)
    | AddMember(tenant: TenantId, actor: UserId, invited: Option<UserId>, role: Role)
    | UpdateRole(tenant: TenantId, actor: UserId, target: UserId, role: Role)

  datatype BotOp =
    | RegisterBot(id: BotId, telegramBotId: int, key: nat)
    | UpdatePolicy(bot: BotId, enabled: bool)
    | DeleteBot(bot: BotId)
    | AssignBot(bot: BotId, user: UserId, id: AssignmentId)
    | UnassignBot(bot: BotId, user: UserId)

  datatype DestinationOp =
    | CreateDestination(bot: BotId, chat: int, thread: Option<int>, id: DestinationId)
    | DeleteDestination(id: DestinationId)
    | UpdateSubscription(id: DestinationId, bot: BotId, status: SubscriptionStatus)

  datatype AuthOp =
    | Login(user: UserId, token: TokenId, expiresAt: nat)
    | Switch(user: UserId, tenant: TenantId, token: TokenId, expiresAt: nat)
    | Refresh(token: TokenId, next: TokenId, userIsActive: bool, expiresAt: nat)

  /** Credentials of a message request: an access token naming user and tenant, or a bot API key. */
  datatype Principal = Jwt(user: UserId, tenant: TenantId) | ApiKey(key: nat)

  datatype Op =
    | Tick(milliseconds: nat)
    | OnOrgs(org: OrgOp)
    | DeleteOrganization(tenant: TenantId, actor: UserId)
    | OnBots(user: UserId, tenant: TenantId, bot: BotOp)
    | OnDestinations(user: UserId, tenant: TenantId, destination: DestinationOp)
    | Webhook(botId: BotId, secretMatches: bool, update: Option<Webhooks.Incoming>, newId: DestinationId)
    | OnAuth(auth: AuthOp)
    /** `lost`: logs whose first task the dying process did not enqueue; empty when it does not die. */
    | CreateMessage(principal: Principal, request: Messaging.Request, id: MessageId, lost: set<LogKey>)
    | Dispatch(lost: set<LogKey>)
    | RunTask(log: LogKey, ticket: Ticket, answer: Delivery.Answer, fate: Delivery.Fate)
    /** The broker delivers one more copy of a task. */
    | Redeliver(log: LogKey, ticket: Ticket)
    /** One batch of the retention purge. */
    | PurgeLogs(tenant: TenantId, before: nat, victims: set<LogKey>)

  function OrgStep(o: OrgTables, op: OrgOp): Result<OrgTables, AppError> {
    match op
    case Found(user, id) => Organizations.CreateOrganization(o, id, user)
    case AddMember(tenant, actor, invited, role) => Organizations.AddMember(o, tenant, actor, invited, role)
    case UpdateRole(tenant, actor, target, role) => Organizations.UpdateMemberRole(o, tenant, actor, target, role)
  }

  function BotStep(o: OrgTables, b: BotTables, tenant: TenantId, op: BotOp, now: nat): Result<BotTables, AppError> {
    match op
    case RegisterBot(id, telegramBotId, key) => Bots.RegisterBot(b, tenant, id, telegramBotId, key)
    case UpdatePolicy(bot, enabled) => Bots.UpdatePolicy(b, tenant, bot, enabled)
    case DeleteBot(bot) => Bots.DeleteBot(b, tenant, bot, now)
    case AssignBot(bot, user, id) => Bots.AssignBot(b, Seat(tenant, user) in o.members, tenant, bot, user, id)
    case UnassignBot(bot, user) => Bots.UnassignBot(b, tenant, bot, user, now)
  }

  function DestinationStep(b: BotTables, d: DestinationTables, tenant: TenantId, op: DestinationOp, now: nat):
    Result<DestinationTables, AppError>
  {
    match op
    case CreateDestination(bot, chat, thread, id) =>
      Destinations.CreateDestination(d, Bots.HasBot(b, tenant, bot), bot,
                                     Destinations.ChatKey(tenant, chat, thread), id)
    case DeleteDestination(id) => Destinations.DeleteDestination(d, tenant, id, now)
    case UpdateSubscription(id, bot, status) =>
      Destinations.UpdateSubscriptionStatus(d, Bots.HasBot(b, tenant, bot), tenant, id, bot, status)
  }

  function AuthStep(o: OrgTables, a: AuthTables, op: AuthOp, now: nat): Result<AuthTables, AppError> {
    match op
    case Login(user, token, expiresAt) => Auth.Issue(a, token, user, None, expiresAt, token)
    case Switch(user, tenant, token, expiresAt) =>
      if Seat(tenant, user) !in o.members then Err(NotOrganizationMember)
      else Auth.Issue(a, token, user, Some(tenant), expiresAt, token)
    case Refresh(token, next, userIsActive, expiresAt) => Auth.Refresh(a, token, next, userIsActive, expiresAt, now)
  }

  /** The organization delete with its cascade over bots, messages, tokens and memberships. */
  function DeleteTenant(s: Platform, tenant: TenantId, actor: UserId): Result<Platform, AppError> {
    var denied := Organizations.CheckPathPermission(s.orgs, actor, tenant, Organizations.OrganizationDelete);
    if denied.Some? then Err(denied.value)
    else Ok(s.(orgs := Organizations.Dissolved(s.orgs, tenant, s.now),
               bots := Bots.Retired(s.bots, tenant, s.now),
               msgs := Messaging.CancelPending(s.msgs, tenant, s.now),
               auth := Auth.RevokeAllForTenant(s.auth, tenant, s.now)))
  }

  /** Who a message request comes from, after the dual authentication. */
  function Authenticate(s: Platform, p: Principal): Result<(TenantId, Messaging.Sender), AppError> {
    match p
    case Jwt(user, tenant) =>
      var denied := Organizations.CheckPermission(s.orgs, user, tenant, Organizations.MessageSend);
      if denied.Some? then Err(denied.value) else Ok((tenant, Messaging.Sender(Some(user), None)))
    case ApiKey(key) =>
      match Bots.GetBotByApiKey(s.bots, key)
      case Err(e) => Err(e)
      case Ok(bot) =>
        if bot in s.bots.bots then Ok((s.bots.bots[bot].tenant, Messaging.Sender(None, Some(bot))))
        else Err(BotApiKeyInvalid)
  }

  /** Commit, then enqueue: the first tasks of `logs`, except those a dying process leaves out. */
  function CommitAndEnqueue(s: Platform, msgs: MessageTables, logs: set<LogKey>, lost: set<LogKey>): Platform {
    s.(msgs := msgs,
       queue := EnqueueAll(s.queue, logs - lost, Ticket(0, s.now)),
       history := NoteAll(s.history, logs * lost, multiset{EnqueueLost}))
  }

  function Send(s: Platform, p: Principal, r: Messaging.Request, id: MessageId, lost: set<LogKey>):
    Result<Platform, AppError>
  {
    match Authenticate(s, p)
    case Err(e) => Err(e)
    case Ok((tenant, sender)) =>
      if Payload.Validate(r.payload).Err? then Err(Unprocessable)
      else match Messaging.CreateMessage(s.orgs, s.bots, s.dests, s.msgs, tenant, sender, r, id, s.now)
           case Err(e) => Err(e)
           case Ok(msgs) =>
             var logs := Messaging.LogKeys(id, r.payload.destinations);
             Ok(CommitAndEnqueue(s, msgs, if r.scheduledAt.Some? then {} else logs, lost))
  }

  /** A request handler or task: the new state, or the error after which the transaction rolls back. */
  function Handle(s: Platform, op: Op): Result<Platform, AppError> {
    match op
    case Tick(ms) => Ok(s.(now := s.now + ms))
    case OnOrgs(org) =>
      (match OrgStep(s.orgs, org)
       case Err(e) => Err(e)
       case Ok(orgs) => Ok(s.(orgs := orgs)))
    case DeleteOrganization(tenant, actor) => DeleteTenant(s, tenant, actor)
    case OnBots(user, tenant, bot) =>
      var denied := Organizations.CheckPermission(s.orgs, user, tenant, Organizations.BotManage);
      if denied.Some? then Err(denied.value)
      else (match BotStep(s.orgs, s.bots, tenant, bot, s.now)
            case Err(e) => Err(e)
            case Ok(bots) => Ok(s.(bots := bots)))
    case OnDestinations(user, tenant, destination) =>
      var denied := Organizations.CheckPermission(s.orgs, user, tenant, Organizations.DestinationManage);
      if denied.Some? then Err(denied.value)
      else (match DestinationStep(s.bots, s.dests, tenant, destination, s.now)
            case Err(e) => Err(e)
            case Ok(dests) => Ok(s.(dests := dests)))
    case Webhook(bot, secretMatches, update, id) =>
      (match Webhooks.HandleUpdate(s.bots, s.dests, bot, secretMatches, update, id)
       case Err(e) => Err(e)
       case Ok(dests) => Ok(s.(dests := dests)))
    case OnAuth(auth) =>
      (match AuthStep(s.orgs, s.auth, auth, s.now)
       case Err(e) => Err(e)
       case Ok(tables) =>
         Ok(s.(auth := tables,
               trace := s.trace + if auth.Refresh? then multiset{Exchanged(auth.token)} else multiset{})))
    case CreateMessage(p, r, id, lost) => Send(s, p, r, id, lost)
    case Dispatch(lost) =>
      Ok(CommitAndEnqueue(s, Messaging.MarkDispatched(s.msgs, s.now), Messaging.DueLogs(s.msgs, s.now), lost))
    case RunTask(l, t, answer, fate) =>
      if Delivery.CanRun(s, l, t) then Ok(Delivery.RunTask(s, l, t, answer, fate)) else Ok(s)
    case Redeliver(l, t) =>
      if t in Tickets(s.queue, l)
      then Ok(s.(queue := Enqueue(s.queue, l, t), history := Note(s.history, l, multiset{Copied}))) else Ok(s)
    case PurgeLogs(tenant, before, victims) =>
      var gone := set l | l in victims && l in s.msgs.logs
                          && s.msgs.logs[l].tenant == tenant && s.msgs.logs[l].createdAt < before;
      Ok(s.(msgs := s.msgs.(logs := map l | l in s.msgs.logs && l !in gone :: s.msgs.logs[l])))
  }

  function Step(s: Platform, op: Op): Platform {
    match Handle(s, op)
    case Ok(s') => s'
    case Err(_) => s
  }

  /** The state after a run, from the empty system or from any other state. */
  ghost function RunFrom(s: Platform, ops: seq<Op>): Platform {
    if ops == [] then s else Step(RunFrom(s, ops[..|ops| - 1]), ops[|ops| - 1])
  }

  ghost function Run(ops: seq<Op>): Platform {
    RunFrom(EMPTY, ops)
  }

  lemma {:induction false} RunSplits(s: Platform, first: seq<Op>, second: seq<Op>)
    ensures RunFrom(s, first + second) == RunFrom(RunFrom(s, first), second)
  {
    if second == [] {
      assert first + second == first;
    } else {
      assert (first + second)[..|first + second| - 1] == first + second[..|second| - 1];
      RunSplits(s, first, second[..|second| - 1]);
    }
  }
}
