/** Tenants do not touch each other: which rows a step may change, and exactly what the organization delete does. */
module Isolation {
  import opened Wrappers
  import opened Rows
  import opened Tables
  import opened State
  import opened Platforms
  import opened Ledger
  import opened Laws
  import opened Health
  import opened Burial
  import opened Columns
  import Organizations
  import Bots
  import Destinations
  import Webhooks
  import Auth
  import Payload
  import Messaging
  import Delivery
  import Frames

  ghost predicate SameOrganization(o: OrgTables, o': OrgTables, tenant: TenantId) {
    && (tenant in o'.organizations <==> tenant in o.organizations)
    && (tenant in o.organizations ==> o'.organizations[tenant] == o.organizations[tenant])
    && (forall user :: Seat(tenant, user) in o'.members <==> Seat(tenant, user) in o.members)
    && (forall user | Seat(tenant, user) in o.members :: o'.members[Seat(tenant, user)] == o.members[Seat(tenant, user)])
  }

  ghost predicate SameLogs(m: MessageTables, m': MessageTables, tenant: TenantId) {
    forall l | l in m.logs || l in m'.logs ::
      (l in m.logs && m.logs[l].tenant == tenant) || (l in m'.logs && m'.logs[l].tenant == tenant) ==>
        l in m.logs && l in m'.logs && m'.logs[l] == m.logs[l]
  }

  /** Every row of the tenant, in every table, is there in both states and the same. */
  ghost predicate SameRows(s: Platform, s': Platform, tenant: TenantId) {
    && SameOrganization(s.orgs, s'.orgs, tenant) && SameBots(s.bots, s'.bots, tenant)
    && SameDestinations(s.dests, s'.dests, tenant) && SameMessages(s.msgs, s'.msgs, tenant)
    && SameLogs(s.msgs, s'.msgs, tenant) && SameTokens(s.auth, s'.auth, tenant)
  }

  /** The tenants a step may touch: the one its request names, the one its credentials or its bot belong to, the one
      whose log a job sends. The dispatcher serves all of them. */
  ghost predicate Concerns(s: Platform, op: Op, tenant: TenantId) {
    match op
    case Tick(_) => false
    case OnOrgs(Found(_, id)) => id == tenant
    case OnOrgs(AddMember(t, _, _, _)) => t == tenant
    case OnOrgs(UpdateRole(t, _, _, _)) => t == tenant
    case DeleteOrganization(t, _) => t == tenant
    case OnBots(_, t, _) => t == tenant
    case OnDestinations(_, t, _) => t == tenant
    case Webhook(bot, _, _, _) => bot in s.bots.bots && s.bots.bots[bot].tenant == tenant
    case OnAuth(Login(_, _, _)) => false
    case OnAuth(Switch(_, t, _, _)) => t == tenant
    case OnAuth(Refresh(token, _, _, _)) => token in s.auth.tokens && s.auth.tokens[token].tenant == Some(tenant)
    case CreateMessage(Jwt(_, t), _, _, _) => t == tenant
    case CreateMessage(ApiKey(key), _, _, _) =>
      exists bot | bot in s.bots.bots :: s.bots.bots[bot].apiKey == key && s.bots.bots[bot].tenant == tenant
    case Dispatch(_) => true
    case RunTask(l, _, _, _) => l in s.msgs.logs && s.msgs.logs[l].tenant == tenant
    case Redeliver(_, _) => false
    case PurgeLogs(t, _, _) => t == tenant
  }

  lemma OrgStepSpares(s: Platform, op: Op, tenant: TenantId)
    requires !Concerns(s, op, tenant)
    ensures SameOrganization(s.orgs, Step(s, op).orgs, tenant)
  {
    match op
    case OnOrgs(org) =>
    case DeleteOrganization(t, actor) => hide Bots.Retired, Messaging.CancelPending, Auth.RevokeAllForTenant;
    case _ => Frames.Elsewhere(s, op); hide Step;
  }

  lemma BotTablesSpare(o: OrgTables, b: BotTables, owner: TenantId, op: BotOp, now: nat, tenant: TenantId)
    requires owner != tenant
    ensures var r := BotStep(o, b, owner, op, now); r.Ok? ==> SameBots(b, r.value, tenant)
  {
  }

  lemma RetiringSpares(b: BotTables, owner: TenantId, now: nat, tenant: TenantId)
    requires owner != tenant
    ensures SameBots(b, Bots.Retired(b, owner, now), tenant)
  {
  }

  lemma BotStepSpares(s: Platform, op: Op, tenant: TenantId)
    requires !Concerns(s, op, tenant)
    ensures SameBots(s.bots, Step(s, op).bots, tenant)
  {
    match op
    case OnBots(user, owner, bot) =>
      BotTablesSpare(s.orgs, s.bots, owner, bot, s.now, tenant);
      hide BotStep, SameBots;
      assert SameBots(s.bots, s.bots, tenant) by { NothingChanges(s, tenant); }
    case DeleteOrganization(owner, _) =>
      RetiringSpares(s.bots, owner, s.now, tenant);
      NothingChanges(s, tenant);
      hide Bots.Retired, SameBots;
    case _ => Frames.Elsewhere(s, op); hide Step;
  }

  lemma NothingChanges(s: Platform, tenant: TenantId)
    ensures SameRows(s, s, tenant)
  {
  }

  lemma UpdateSpares(b: BotTables, d: DestinationTables, bot: BotId, secretMatches: bool,
                     update: Option<Webhooks.Incoming>, id: DestinationId, tenant: TenantId)
    requires bot in b.bots ==> b.bots[bot].tenant != tenant
    ensures var r := Webhooks.HandleUpdate(b, d, bot, secretMatches, update, id);
            r.Ok? ==> SameDestinations(d, r.value, tenant)
  {
    hide Webhooks.Parsed;
  }

  lemma DestinationStepSpares(s: Platform, op: Op, tenant: TenantId)
    requires !Concerns(s, op, tenant)
    ensures SameDestinations(s.dests, Step(s, op).dests, tenant)
  {
    NothingChanges(s, tenant);
    match op
    case OnDestinations(user, owner, destination) =>
      DestinationStepOfOthers(s.bots, s.dests, owner, destination, s.now, tenant);
      hide DestinationStep, SameDestinations;
    case Webhook(bot, secretMatches, update, id) =>
      UpdateSpares(s.bots, s.dests, bot, secretMatches, update, id, tenant);
      hide Webhooks.HandleUpdate, SameDestinations;
    case _ => Frames.Elsewhere(s, op); hide Step;
  }

  lemma TokenStepSpares(s: Platform, op: Op, tenant: TenantId)
    requires !Concerns(s, op, tenant)
    ensures SameTokens(s.auth, Step(s, op).auth, tenant)
  {
    match op
    case OnAuth(auth) =>
    case DeleteOrganization(t, _) => hide Bots.Retired, Messaging.CancelPending, Organizations.Dissolved;
    case _ => Frames.Elsewhere(s, op); hide Step;
  }

  /** The sender's tenant is the one the credentials name. */
  lemma SenderIsConcerned(s: Platform, p: Principal, r: Messaging.Request, id: MessageId, lost: set<LogKey>)
    requires Authenticate(s, p).Ok?
    ensures Concerns(s, CreateMessage(p, r, id, lost), Authenticate(s, p).value.0)
  {
    if p.ApiKey? {
      var bot := Bots.GetBotByApiKey(s.bots, p.key).value;
      assert bot in Bots.LiveByApiKey(s.bots, p.key);
    }
  }

  lemma SendSpares(s: Platform, p: Principal, r: Messaging.Request, id: MessageId, lost: set<LogKey>, tenant: TenantId)
    requires Send(s, p, r, id, lost).Ok? && !Concerns(s, CreateMessage(p, r, id, lost), tenant)
    ensures var m' := Send(s, p, r, id, lost).value.msgs;
            SameMessages(s.msgs, m', tenant) && SameLogs(s.msgs, m', tenant)
  {
    SenderIsConcerned(s, p, r, id, lost);
    var who := Authenticate(s, p).value;
    Messaging.CreateIsExact(s.orgs, s.bots, s.dests, s.msgs, who.0, who.1, r, id, s.now);
    hide Authenticate, Messaging.CreateMessage, Concerns;
  }

  lemma CancellingSpares(m: MessageTables, owner: TenantId, now: nat, tenant: TenantId)
    requires owner != tenant
    ensures SameMessages(m, Messaging.CancelPending(m, owner, now), tenant)
  {
  }

  lemma MessageStepSpares(s: Platform, op: Op, tenant: TenantId)
    requires !Concerns(s, op, tenant)
    ensures SameMessages(s.msgs, Step(s, op).msgs, tenant)
  {
    NothingChanges(s, tenant);
    match op
    case CreateMessage(p, r, id, lost) =>
      if Send(s, p, r, id, lost).Ok? {
        SendSpares(s, p, r, id, lost, tenant);
      }
      hide Send, SameMessages, Concerns;
    case DeleteOrganization(owner, actor) =>
      CancellingSpares(s.msgs, owner, s.now, tenant);
      hide Messaging.CancelPending, SameMessages;
    case _ => Frames.Elsewhere(s, op); hide Step;
  }

  lemma TaskSparesLogs(s: Platform, l: LogKey, t: Ticket, answer: Delivery.Answer, fate: Delivery.Fate, k: LogKey)
    requires Delivery.CanRun(s, l, t)
    ensures var m, m' := s.msgs, Delivery.RunTask(s, l, t, answer, fate).msgs;
            && (k in m'.logs <==> k in m.logs)
            && (k in m.logs && k != l ==> m'.logs[k] == m.logs[k])
            && (k in m.logs ==> m'.logs[k].tenant == m.logs[k].tenant)
  {
    var s' := Delivery.RunTask(s, l, t, answer, fate);
    RunMoves(s, l, t, answer, fate, k);
    hide Delivery.RunTask, Ran, Delivery.CanRun;
    if k == l {
      RanFrame(AccountOf(s, k), AccountOf(s', k), t, Delivery.ProcessDelivery(s, l, answer, fate).1, s.now);
    }
    hide Delivery.ProcessDelivery;
  }

  lemma TaskSpares(s: Platform, l: LogKey, t: Ticket, answer: Delivery.Answer, fate: Delivery.Fate, tenant: TenantId)
    requires !Concerns(s, RunTask(l, t, answer, fate), tenant)
    ensures SameLogs(s.msgs, Step(s, RunTask(l, t, answer, fate)).msgs, tenant)
  {
    Frames.TaskFrame(s, l, t, answer, fate);
    hide Step, Delivery.RunTask, Delivery.CanRun;
    if Delivery.CanRun(s, l, t) {
      forall k: LogKey
        ensures var m, m' := s.msgs, Delivery.RunTask(s, l, t, answer, fate).msgs;
                && (k in m'.logs <==> k in m.logs)
                && (k in m.logs && k != l ==> m'.logs[k] == m.logs[k])
                && (k in m.logs ==> m'.logs[k].tenant == m.logs[k].tenant)
      {
        TaskSparesLogs(s, l, t, answer, fate, k);
      }
    }
  }

  lemma LogStepSpares(s: Platform, op: Op, tenant: TenantId)
    requires !Concerns(s, op, tenant)
    ensures SameLogs(s.msgs, Step(s, op).msgs, tenant)
  {
    NothingChanges(s, tenant);
    match op
    case CreateMessage(p, r, id, lost) =>
      if Send(s, p, r, id, lost).Ok? {
        SendSpares(s, p, r, id, lost, tenant);
      }
      hide Send, SameLogs, Concerns;
    case RunTask(l, t, answer, fate) => TaskSpares(s, l, t, answer, fate, tenant); hide *;
    case PurgeLogs(t, before, victims) =>
    case _ => LogsElsewhere(s, op); hide Step, Concerns;
  }

  lemma LogsElsewhere(s: Platform, op: Op)
    requires !op.CreateMessage? && !op.RunTask? && !op.PurgeLogs?
    ensures Step(s, op).msgs.logs == s.msgs.logs
  {
    hide Step;
    match op
    case Tick(ms) => Frames.TickFrame(s, ms);
    case OnOrgs(org) => Frames.OrgsFrame(s, org);
    case DeleteOrganization(tenant, actor) => Frames.DeleteFrame(s, tenant, actor);
    case OnBots(user, tenant, bot) => Frames.BotsFrame(s, user, tenant, bot);
    case OnDestinations(user, tenant, destination) => Frames.DestinationsFrame(s, user, tenant, destination);
    case Webhook(bot, secretMatches, update, id) => Frames.WebhookFrame(s, bot, secretMatches, update, id);
    case OnAuth(auth) => Frames.AuthFrame(s, auth);
    case Dispatch(lost) => Frames.DispatchFrame(s, lost);
    case Redeliver(l, ticket) => Frames.RedeliverFrame(s, l, ticket);
  }

  /** Isolation. A step leaves every row of every tenant it does not concern exactly as it was. */
  lemma StepTouchesOneTenant(s: Platform, op: Op, tenant: TenantId)
    requires !Concerns(s, op, tenant)
    ensures SameRows(s, Step(s, op), tenant)
  {
    hide Step, Concerns, SameOrganization, SameBots, SameDestinations, SameMessages, SameLogs, SameTokens;
    OrgStepSpares(s, op, tenant);
    BotStepSpares(s, op, tenant);
    DestinationStepSpares(s, op, tenant);
    MessageStepSpares(s, op, tenant);
    LogStepSpares(s, op, tenant);
    TokenStepSpares(s, op, tenant);
  }

  lemma RowsChain(s: Platform, s1: Platform, s2: Platform, tenant: TenantId)
    requires SameRows(s, s1, tenant) && SameRows(s1, s2, tenant)
    ensures SameRows(s, s2, tenant)
  {
    assert SameOrganization(s.orgs, s2.orgs, tenant);
    assert SameBots(s.bots, s2.bots, tenant);
    assert SameDestinations(s.dests, s2.dests, tenant);
    assert SameMessages(s.msgs, s2.msgs, tenant);
    assert SameLogs(s.msgs, s2.msgs, tenant);
    assert SameTokens(s.auth, s2.auth, tenant);
  }

  /** No step of the continuation concerns the tenant. */
  ghost predicate LeftAlone(s: Platform, more: seq<Op>, tenant: TenantId) {
    forall i | 0 <= i < |more| :: !Concerns(RunFrom(s, more[..i]), more[i], tenant)
  }

  /** So whatever the other tenants do, for as long as they like, its rows stay as they are. */
  lemma {:induction false} OthersChangeNothing(s: Platform, more: seq<Op>, tenant: TenantId)
    requires LeftAlone(s, more, tenant)
    ensures SameRows(s, RunFrom(s, more), tenant)
  {
    if more == [] {
      NothingChanges(s, tenant);
    } else {
      hide Step, Concerns, SameRows;
      var n := |more| - 1;
      assert LeftAlone(s, more[..n], tenant) by {
        assert forall i | 0 <= i < n :: more[..n][..i] == more[..i];
      }
      OthersChangeNothing(s, more[..n], tenant);
      StepTouchesOneTenant(RunFrom(s, more[..n]), more[n], tenant);
      RowsChain(s, RunFrom(s, more[..n]), RunFrom(s, more), tenant);
    }
  }

  /** One batch of the purge removes exactly the picked logs of its tenant that are older than the cutoff. */
  lemma PurgeIsExact(s: Platform, tenant: TenantId, before: nat, victims: set<LogKey>)
    ensures var s' := Step(s, PurgeLogs(tenant, before, victims));
            && s' == s.(msgs := s.msgs.(logs := s'.msgs.logs))
            && (forall l :: l in s'.msgs.logs <==>
                  && l in s.msgs.logs
                  && !(l in victims && s.msgs.logs[l].tenant == tenant && s.msgs.logs[l].createdAt < before))
            && (forall l | l in s'.msgs.logs :: s'.msgs.logs[l] == s.msgs.logs[l])
  {
  }

  // ----- What the delete does, row by row -----

  /** The row of the delete's tenant that is still live is marked; any other row is as it was. */
  ghost predicate BotsGone(b: BotTables, b': BotTables, tenant: TenantId, now: nat) {
    && b'.bots.Keys == b.bots.Keys && b'.assignments.Keys == b.assignments.Keys
    && (forall k | k in b.bots ::
          b'.bots[k] == if b.bots[k].tenant == tenant && b.bots[k].deletedAt.None?
                        then b.bots[k].(deletedAt := Some(now)) else b.bots[k])
    && (forall k | k in b.assignments ::
          b'.assignments[k] == if b.assignments[k].tenant == tenant && b.assignments[k].deletedAt.None?
                               then b.assignments[k].(deletedAt := Some(now)) else b.assignments[k])
  }

  ghost predicate PendingGone(m: MessageTables, m': MessageTables, tenant: TenantId, now: nat) {
    && m'.logs == m.logs && m'.messages.Keys == m.messages.Keys
    && (forall id | id in m.messages ::
          m'.messages[id] == if && m.messages[id].tenant == tenant && m.messages[id].dispatchedAt.None?
                                && m.messages[id].deletedAt.None?
                             then m.messages[id].(deletedAt := Some(now)) else m.messages[id])
  }

  ghost predicate TokensGone(a: AuthTables, a': AuthTables, tenant: TenantId, now: nat) {
    && a'.tokens.Keys == a.tokens.Keys
    && (forall id | id in a.tokens ::
          a'.tokens[id] == if a.tokens[id].tenant == Some(tenant) && a.tokens[id].revokedAt.None?
                           then a.tokens[id].(revokedAt := Some(now)) else a.tokens[id])
  }

  ghost predicate OrganizationGone(o: OrgTables, o': OrgTables, tenant: TenantId, now: nat) {
    && o'.organizations == o.organizations[tenant := Organization(Some(now))]
    && (forall seat :: seat in o'.members <==> seat in o.members && seat.tenant != tenant)
    && (forall seat | seat in o'.members :: o'.members[seat] == o.members[seat])
  }

  /** The organization delete succeeds exactly for an owner of the live organization; then it marks the organization,
      removes its memberships, marks its live bots and assignments and its undispatched messages, revokes its tokens,
      and leaves every other row, every log, the broker and the counters alone. */
  lemma DeleteIsExact(s: Platform, tenant: TenantId, actor: UserId)
    ensures var op := DeleteOrganization(tenant, actor);
            var s' := Step(s, op);
            && (Handle(s, op).Ok? <==> HoldsRole(s.orgs, tenant, actor, {Owner}))
            && (!HoldsRole(s.orgs, tenant, actor, {Owner}) ==> s' == s)
            && (HoldsRole(s.orgs, tenant, actor, {Owner}) ==>
                  && OrganizationGone(s.orgs, s'.orgs, tenant, s.now) && BotsGone(s.bots, s'.bots, tenant, s.now)
                  && PendingGone(s.msgs, s'.msgs, tenant, s.now) && TokensGone(s.auth, s'.auth, tenant, s.now))
            && s'.dests == s.dests && s'.queue == s.queue && s'.redis == s.redis && s'.now == s.now
            && s'.history == s.history && s'.trace == s.trace && s'.calls == s.calls
  {
    DeleteAllowed(s.orgs, actor, tenant);
    if HoldsRole(s.orgs, tenant, actor, {Owner}) {
      DissolvedExactly(s.orgs, tenant, s.now);
      RetiredExactly(s.bots, tenant, s.now);
      assert PendingGone(s.msgs, Messaging.CancelPending(s.msgs, tenant, s.now), tenant, s.now);
      assert TokensGone(s.auth, Auth.RevokeAllForTenant(s.auth, tenant, s.now), tenant, s.now);
    }
    hide Organizations.CheckPathPermission, Organizations.Dissolved, Bots.Retired, Messaging.CancelPending,
         Auth.RevokeAllForTenant, OrganizationGone, BotsGone, PendingGone, TokensGone;
  }

  lemma DeleteAllowed(o: OrgTables, actor: UserId, tenant: TenantId)
    ensures Organizations.CheckPathPermission(o, actor, tenant, Organizations.OrganizationDelete).None?
            <==> HoldsRole(o, tenant, actor, {Owner})
  {
  }

  lemma DissolvedExactly(o: OrgTables, tenant: TenantId, now: nat)
    requires tenant in o.organizations
    ensures OrganizationGone(o, Organizations.Dissolved(o, tenant, now), tenant, now)
  {
  }

  lemma RetiredExactly(b: BotTables, tenant: TenantId, now: nat)
    ensures BotsGone(b, Bots.Retired(b, tenant, now), tenant, now)
  {
  }
}
