/** One tenant per delivery: a log, its message, bot, destination and subscription agree, in every run;
    and the database never refuses a request with fresh ids. */
module Coherence {
  import opened Wrappers
  import opened Rows
  import opened Tables
  import opened State
  import opened Platforms
  import opened Ledger
  import opened Health
  import Organizations
  import Bots
  import Destinations
  import Webhooks
  import Auth
  import Payload
  import Messaging
  import Delivery
  import Frames

  ghost predicate BotOf(b: BotTables, bot: BotId, tenant: TenantId) {
    bot in b.bots && b.bots[bot].tenant == tenant
  }

  ghost predicate LinkedSubscriptions(b: BotTables, d: DestinationTables) {
    forall k | k in d.subscriptions :: BotOf(b, k.bot, d.subscriptions[k].tenant)
  }

  /** A message's bot is of its tenant. */
  ghost predicate LinkedMessage(b: BotTables, m: Message) {
    BotOf(b, m.bot, m.tenant)
  }

  /** A log has its message's tenant, its destination too, and the message's bot once had it as a subscriber. */
  ghost predicate LinkedLog(d: DestinationTables, l: LogKey, tenant: TenantId, m: Message) {
    && tenant == m.tenant
    && l.destination in d.destinations && d.destinations[l.destination].tenant == tenant
    && SubscriptionKey(m.bot, l.destination) in d.subscriptions
    && d.subscriptions[SubscriptionKey(m.bot, l.destination)].tenant == tenant
  }

  ghost predicate Linked(s: Platform) {
    && LinkedSubscriptions(s.bots, s.dests)
    && (forall id | id in s.msgs.messages :: LinkedMessage(s.bots, s.msgs.messages[id]))
    && (forall l | l in s.msgs.logs ::
          l.message in s.msgs.messages && LinkedLog(s.dests, l, s.msgs.logs[l].tenant, s.msgs.messages[l.message]))
  }

  /** Bots are never removed and never change tenants; neither are destinations and subscriptions. */
  ghost predicate BotsGrow(b: BotTables, b': BotTables) {
    forall k | k in b.bots :: k in b'.bots && b'.bots[k].tenant == b.bots[k].tenant
  }

  ghost predicate DestsGrow(d: DestinationTables, d': DestinationTables) {
    && (forall k | k in d.destinations :: k in d'.destinations && d'.destinations[k].tenant == d.destinations[k].tenant)
    && (forall k | k in d.subscriptions ::
          k in d'.subscriptions && d'.subscriptions[k].tenant == d.subscriptions[k].tenant)
  }

  lemma StepGrowsBots(s: Platform, op: Op)
    ensures BotsGrow(s.bots, Step(s, op).bots)
  {
    hide Organizations.CheckPermission, Organizations.CheckPathPermission;
    match op
    case OnBots(_, tenant, bot) => BotStepGrows(s.orgs, s.bots, tenant, bot, s.now);
    case DeleteOrganization(tenant, _) =>
    case _ => Frames.Elsewhere(s, op); hide Step;
  }

  lemma BotStepGrows(o: OrgTables, b: BotTables, tenant: TenantId, op: BotOp, now: nat)
    ensures var r := BotStep(o, b, tenant, op, now); r.Ok? ==> BotsGrow(b, r.value)
  {
  }

  /** New subscriptions belong to the tenant of their bot. */
  ghost predicate NewSubscriptionsOf(d: DestinationTables, d': DestinationTables, bot: BotId, tenant: TenantId) {
    forall k | k in d'.subscriptions && k !in d.subscriptions :: k.bot == bot && d'.subscriptions[k].tenant == tenant
  }

  lemma WebhookGrows(b: BotTables, d: DestinationTables, bot: BotId, secretMatches: bool,
                     update: Option<Webhooks.Incoming>, id: DestinationId)
    ensures var r := Webhooks.HandleUpdate(b, d, bot, secretMatches, update, id);
            r.Ok? ==> Bots.IsLiveBot(b, bot) && DestsGrow(d, r.value)
                      && NewSubscriptionsOf(d, r.value, bot, b.bots[bot].tenant)
  {
    hide Webhooks.Parsed;
  }

  lemma DestinationStepGrows(b: BotTables, d: DestinationTables, tenant: TenantId, op: DestinationOp, now: nat)
    ensures var r := DestinationStep(b, d, tenant, op, now);
            r.Ok? ==> && DestsGrow(d, r.value)
                      && if op.CreateDestination? then
                           Bots.HasBot(b, tenant, op.bot) && NewSubscriptionsOf(d, r.value, op.bot, tenant)
                         else r.value.subscriptions.Keys == d.subscriptions.Keys
  {
  }

  lemma StepLinksSubscriptions(s: Platform, op: Op)
    requires LinkedSubscriptions(s.bots, s.dests)
    ensures LinkedSubscriptions(Step(s, op).bots, Step(s, op).dests) && DestsGrow(s.dests, Step(s, op).dests)
  {
    hide Organizations.CheckPermission, DestinationStep, Webhooks.HandleUpdate;
    StepGrowsBots(s, op);
    match op
    case Webhook(bot, secretMatches, update, id) => WebhookGrows(s.bots, s.dests, bot, secretMatches, update, id);
    case OnDestinations(_, tenant, destination) =>
      DestinationStepGrows(s.bots, s.dests, tenant, destination, s.now);
    case _ => Frames.Elsewhere(s, op); hide Step;
  }

  /** Except by creation, messages and logs only disappear, and keep their tenant and bot. */
  ghost predicate RowsKept(a: Account, a': Account) {
    && (a'.message.Some? ==> a.message.Some? && a'.message.value.tenant == a.message.value.tenant
                             && a'.message.value.bot == a.message.value.bot)
    && (a'.row.Some? ==> a.row.Some? && a'.row.value.tenant == a.row.value.tenant && (a.message.Some? ==> a'.message.Some?))
  }

  lemma MoveKeepsRows(l: LogKey, a: Account, a': Account, op: Op, outcome: Delivery.Outcome, now: nat)
    requires Moves(l, a, a', op, outcome, now) && !op.CreateMessage?
    ensures RowsKept(a, a')
  {
    hide Ran;
    if a' != a && op.RunTask? {
      RanFrame(a, a', op.ticket, outcome, now);
    }
  }

  lemma StepKeepsRows(s: Platform, op: Op, l: LogKey)
    requires !op.CreateMessage?
    ensures RowsKept(AccountOf(s, l), AccountOf(Step(s, op), l))
  {
    hide Moves, AccountOf, Step, OutcomeOf, RowsKept;
    StepMoves(s, op, l);
    MoveKeepsRows(l, AccountOf(s, l), AccountOf(Step(s, op), l), op, OutcomeOf(s, op), s.now);
  }

  lemma RowsKeptLinks(s: Platform, s': Platform)
    requires Linked(s) && LinkedSubscriptions(s'.bots, s'.dests)
    requires BotsGrow(s.bots, s'.bots) && DestsGrow(s.dests, s'.dests)
    requires forall l :: RowsKept(AccountOf(s, l), AccountOf(s', l))
    ensures Linked(s')
  {
    forall id | id in s'.msgs.messages
      ensures LinkedMessage(s'.bots, s'.msgs.messages[id])
    {
      assert RowsKept(AccountOf(s, LogKey(id, 0)), AccountOf(s', LogKey(id, 0)));
      assert LinkedMessage(s.bots, s.msgs.messages[id]);
    }
    forall l | l in s'.msgs.logs
      ensures l.message in s'.msgs.messages
      ensures LinkedLog(s'.dests, l, s'.msgs.logs[l].tenant, s'.msgs.messages[l.message])
    {
      assert RowsKept(AccountOf(s, l), AccountOf(s', l));
      assert LinkedLog(s.dests, l, s.msgs.logs[l].tenant, s.msgs.messages[l.message]);
    }
  }

  lemma CreateLinks(s: Platform, p: Principal, r: Messaging.Request, id: MessageId, lost: set<LogKey>)
    requires Linked(s) && Send(s, p, r, id, lost).Ok?
    ensures Linked(Send(s, p, r, id, lost).value)
  {
    var (tenant, sender) := Authenticate(s, p).value;
    Messaging.CreateIsExact(s.orgs, s.bots, s.dests, s.msgs, tenant, sender, r, id, s.now);
    var m := Messaging.CreateMessage(s.orgs, s.bots, s.dests, s.msgs, tenant, sender, r, id, s.now).value;
    NewRowsLink(s, m, tenant, r.bot, r.payload.destinations, id);
  }

  lemma NewRowsLink(s: Platform, m: MessageTables, tenant: TenantId, bot: BotId, destinations: seq<DestinationId>,
                    id: MessageId)
    requires Linked(s) && Bots.HasBot(s.bots, tenant, bot)
    requires id !in s.msgs.messages && m.messages.Keys == s.msgs.messages.Keys + {id}
    requires forall k | k in s.msgs.messages :: m.messages[k] == s.msgs.messages[k]
    requires m.messages[id].tenant == tenant && m.messages[id].bot == bot
    requires forall k :: k in m.logs <==> k in s.msgs.logs || (k.message == id && k.destination in destinations)
    requires forall k | k in s.msgs.logs :: m.logs[k] == s.msgs.logs[k]
    requires forall k | k in m.logs && k !in s.msgs.logs :: m.logs[k].tenant == tenant
    requires forall x | x in destinations ::
               Destinations.HasDestination(s.dests, tenant, x) && Destinations.IsActivelySubscribed(s.dests, tenant, bot, x)
    ensures Linked(s.(msgs := m))
  {
  }

  lemma StepKeepsLinked(s: Platform, op: Op)
    requires Linked(s)
    ensures Linked(Step(s, op))
  {
    if op.CreateMessage? {
      if Send(s, op.principal, op.request, op.id, op.lost).Ok? {
        hide Send, Linked;
        CreateLinks(s, op.principal, op.request, op.id, op.lost);
      }
    } else {
      StepGrowsBots(s, op);
      StepLinksSubscriptions(s, op);
      hide Step, RowsKept, AccountOf, BotsGrow, DestsGrow;
      forall l: LogKey
        ensures RowsKept(AccountOf(s, l), AccountOf(Step(s, op), l))
      {
        StepKeepsRows(s, op, l);
      }
      RowsKeptLinks(s, Step(s, op));
    }
  }

  lemma {:induction false} RunIsLinked(ops: seq<Op>)
    ensures Linked(Run(ops))
  {
    if ops != [] {
      hide Linked, Step;
      RunIsLinked(ops[..|ops| - 1]);
      StepKeepsLinked(Run(ops[..|ops| - 1]), ops[|ops| - 1]);
    }
  }

  /** In every run, a delivery log, its message, bot, destination and subscription share one tenant. */
  lemma TenantCoherence(ops: seq<Op>, l: LogKey)
    requires l in Run(ops).msgs.logs
    ensures var s, tenant := Run(ops), Run(ops).msgs.logs[l].tenant;
            && l.message in s.msgs.messages && s.msgs.messages[l.message].tenant == tenant
            && s.msgs.messages[l.message].bot in s.bots.bots && s.bots.bots[s.msgs.messages[l.message].bot].tenant == tenant
            && l.destination in s.dests.destinations && s.dests.destinations[l.destination].tenant == tenant
            && var k := SubscriptionKey(s.msgs.messages[l.message].bot, l.destination);
            k in s.dests.subscriptions && s.dests.subscriptions[k].tenant == tenant
  {
    RunIsLinked(ops);
    hide Run;
    assert LinkedMessage(Run(ops).bots, Run(ops).msgs.messages[l.message]);
  }
}
