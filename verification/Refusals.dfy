/** What never goes wrong in a run: constraint violations, ambiguous single-row queries, double token exchange. */
module Refusals {
  import opened Wrappers
  import opened Rows
  import opened Tables
  import opened State
  import opened Platforms
  import opened Health
  import opened Coherence
  import Organizations
  import Bots
  import Destinations
  import Webhooks
  import Auth
  import Payload
  import Messaging
  import Delivery
  import Frames

  /** Generated ids, keys and tokens are new. */
  ghost predicate Fresh(s: Platform, op: Op) {
    match op
    case OnOrgs(Found(_, id)) => id !in s.orgs.organizations
    case OnBots(_, _, RegisterBot(id, _, key)) =>
      id !in s.bots.bots && forall k | k in s.bots.bots :: s.bots.bots[k].apiKey != key
    case OnBots(_, _, AssignBot(_, _, id)) => id !in s.bots.assignments
    case OnDestinations(_, _, CreateDestination(_, _, _, id)) => id !in s.dests.destinations
    case Webhook(_, _, _, newId) => newId !in s.dests.destinations
    case OnAuth(Login(_, token, _)) => token !in s.auth.tokens
    case OnAuth(Switch(_, _, token, _)) => token !in s.auth.tokens
    case OnAuth(Refresh(_, next, _, _)) => next !in s.auth.tokens
    case CreateMessage(_, _, id, _) => id !in s.msgs.messages
    case _ => true
  }

  /** No unique index, primary key or single-row query stands in the way. */
  ghost predicate Admissible<T>(r: Result<T, AppError>) {
    r.Ok? || (r.error != IntegrityError && r.error != MultipleResultsFound)
  }

  lemma OrgAdmissible(o: OrgTables, op: OrgOp)
    requires Organizations.Staffed(o) && (op.Found? ==> op.id !in o.organizations)
    ensures Admissible(OrgStep(o, op))
  {
  }

  lemma BotAdmissible(o: OrgTables, b: BotTables, tenant: TenantId, op: BotOp, now: nat)
    requires Bots.Sound(b)
    requires op.RegisterBot? ==> op.id !in b.bots && forall k | k in b.bots :: b.bots[k].apiKey != op.key
    requires op.AssignBot? ==> op.id !in b.assignments
    ensures Admissible(BotStep(o, b, tenant, op, now))
  {
    hide Bots.Sound;
    match op
    case RegisterBot(id, telegramBotId, key) =>
      Bots.RegisterKeepsSound(b, tenant, id, telegramBotId, key);
    case AssignBot(bot, user, id) =>
      Bots.AssignKeepsSound(b, Seat(tenant, user) in o.members, tenant, bot, user, id);
    case UnassignBot(bot, user) => Bots.UnassignKeepsSound(b, tenant, bot, user, now);
    case _ =>
  }

  lemma DestinationAdmissible(b: BotTables, d: DestinationTables, board: Destinations.Board, tenant: TenantId,
                              op: DestinationOp, now: nat)
    requires Destinations.Sound(d) && Destinations.Refines(d, board)
    requires op.CreateDestination? ==> op.id !in d.destinations
    ensures Admissible(DestinationStep(b, d, tenant, op, now))
  {
    hide Destinations.Sound, Destinations.Refines;
    match op
    case CreateDestination(bot, chat, thread, id) =>
      Destinations.CreateRefines(d, board, Bots.HasBot(b, tenant, bot), bot,
                                 Destinations.ChatKey(tenant, chat, thread), id);
    case DeleteDestination(id) => Destinations.DeleteRefines(d, board, tenant, id, now);
    case UpdateSubscription(id, bot, status) =>
      Destinations.UpdateRefines(d, board, Bots.HasBot(b, tenant, bot), tenant, id, bot, status);
  }

  lemma AuthAdmissible(o: OrgTables, a: AuthTables, op: AuthOp, now: nat)
    requires op.Login? ==> op.token !in a.tokens
    requires op.Switch? ==> op.token !in a.tokens
    requires op.Refresh? ==> op.next !in a.tokens
    ensures Admissible(AuthStep(o, a, op, now))
  {
  }

  lemma {:induction false} NoRefusalIsOurs(d: DestinationTables, tenant: TenantId, bot: BotId, ids: seq<DestinationId>)
    ensures Messaging.FirstRefusal(d, tenant, bot, ids) in
            {None, Some(DestinationNotFound), Some(DestinationNotSubscribed)}
  {
    if ids != [] {
      NoRefusalIsOurs(d, tenant, bot, ids[1..]);
    }
  }

  lemma InsertAdmissible(s: Platform, id: MessageId, row: Message, destinations: seq<DestinationId>)
    requires Linked(s) && id !in s.msgs.messages && Payload.Distinct(destinations)
    ensures Messaging.InsertMessage(s.msgs, id, row, destinations, s.now).Ok?
  {
    forall k | k in Messaging.LogKeys(id, destinations)
      ensures k !in s.msgs.logs
    {
    }
  }

  lemma AccessAdmissible(o: OrgTables, b: BotTables, tenant: TenantId, bot: BotId, sender: Messaging.Sender)
    requires Bots.Sound(b)
    ensures Messaging.AssertBotAccess(o, b, tenant, bot, sender) in {None, Some(BotNotAssigned)}
  {
    if sender.user.Some? {
      Bots.UnassignKeepsSound(b, tenant, bot, sender.user.value, 0);
    }
  }

  lemma CreateAdmissible(s: Platform, tenant: TenantId, sender: Messaging.Sender, r: Messaging.Request, id: MessageId)
    requires Bots.Sound(s.bots) && Linked(s) && id !in s.msgs.messages && Payload.Validate(r.payload).Ok?
    ensures Admissible(Messaging.CreateMessage(s.orgs, s.bots, s.dests, s.msgs, tenant, sender, r, id, s.now))
  {
    hide Bots.Sound, Linked, Messaging.InsertMessage, Messaging.AssertBotAccess;
    AccessAdmissible(s.orgs, s.bots, tenant, r.bot, sender);
    NoRefusalIsOurs(s.dests, tenant, r.bot, r.payload.destinations);
    var text := Messaging.ResolveText(r.payload, r.template);
    if text.Ok? {
      InsertAdmissible(s, id, Message(tenant, r.bot, Payload.Stored(r.payload, text.value), r.scheduledAt, None, None),
                       r.payload.destinations);
    }
  }

  lemma SendAdmissible(s: Platform, p: Principal, r: Messaging.Request, id: MessageId, lost: set<LogKey>)
    requires Bots.Sound(s.bots) && Linked(s) && id !in s.msgs.messages
    ensures Admissible(Send(s, p, r, id, lost))
  {
    hide Bots.Sound, Linked, Messaging.CreateMessage, Payload.Validate, CommitAndEnqueue;
    if p.ApiKey? {
      Bots.ApiKeyNamesOneBot(s.bots, p.key);
    }
    var who := Authenticate(s, p);
    if who.Ok? && Payload.Validate(r.payload).Ok? {
      CreateAdmissible(s, who.value.0, who.value.1, r, id);
    }
  }

  lemma HandleAdmissible(s: Platform, board: Destinations.Board, op: Op)
    requires Healthy(s) && Linked(s) && Destinations.Refines(s.dests, board) && Fresh(s, op)
    ensures Admissible(Handle(s, op))
  {
    hide Organizations.Staffed, Bots.Sound, Destinations.Sound, Destinations.Refines, Linked, Send;
    match op
    case OnOrgs(org) => OrgAdmissible(s.orgs, org);
    case OnBots(_, tenant, bot) => BotAdmissible(s.orgs, s.bots, tenant, bot, s.now);
    case OnDestinations(_, tenant, destination) =>
      DestinationAdmissible(s.bots, s.dests, board, tenant, destination, s.now);
    case Webhook(bot, secretMatches, update, id) =>
      Webhooks.UpdateRefines(s.bots, s.dests, board, bot, secretMatches, update, id);
    case OnAuth(auth) => AuthAdmissible(s.orgs, s.auth, auth, s.now);
    case CreateMessage(p, r, id, lost) => SendAdmissible(s, p, r, id, lost);
    case _ =>
  }

  /** After any run, a request with fresh ids is never refused by a unique index or primary key, and no query that
      expects at most one row meets two. */
  lemma DatabaseNeverRefuses(ops: seq<Op>, op: Op)
    requires Fresh(Run(ops), op)
    ensures Handle(Run(ops), op) != Err(IntegrityError)
    ensures Handle(Run(ops), op) != Err(MultipleResultsFound)
  {
    RunIsHealthy(ops);
    RunIsLinked(ops);
    hide Handle, Run, Fresh, Healthy, Linked, Destinations.Refines;
    HandleAdmissible(Run(ops), BoardAfter(ops), op);
  }

  // ----- A refresh token is exchanged at most once -----

  ghost predicate ExchangeLaw(s: Platform, t: TokenId) {
    && s.trace[Exchanged(t)] <= 1
    && (t !in s.auth.tokens || s.auth.tokens[t].revokedAt.None? ==> s.trace[Exchanged(t)] == 0)
  }

  /** Calls to Telegram are the only events of a task. */
  lemma TaskExchangesNothing(s: Platform, l: LogKey, ticket: Ticket, answer: Delivery.Answer, fate: Delivery.Fate,
                             t: TokenId)
    ensures Delivery.RunTask(s, l, ticket, answer, fate).trace[Exchanged(t)] == s.trace[Exchanged(t)]
  {
    hide Delivery.ProcessDelivery, Delivery.Settle;
    ProcessExchangesNothing(s, l, answer, fate, t);
    var (s1, outcome) := Delivery.ProcessDelivery(s, l, answer, fate);
    SettleExchangesNothing(s1, l, ticket, outcome);
  }

  lemma CallExchangesNothing(s: Platform, l: LogKey, bot: BotId, chat: int, content: Payload.Content,
                             answer: Delivery.Answer, fate: Delivery.Fate, t: TokenId)
    requires l in s.msgs.logs
    ensures Delivery.CallTelegram(s, l, bot, chat, content, answer, fate).0.trace[Exchanged(t)] == s.trace[Exchanged(t)]
  {
    hide Payload.SendViaTelegram, Note, Delivery.CallMarks;
  }

  lemma SendExchangesNothing(s: Platform, l: LogKey, message: Message, chat: int, answer: Delivery.Answer,
                             fate: Delivery.Fate, t: TokenId)
    requires l in s.msgs.logs
    ensures Delivery.ThrottledSend(s, l, message, chat, answer, fate).0.trace[Exchanged(t)] == s.trace[Exchanged(t)]
  {
    var (s1, ok) := Delivery.CheckThrottle(s, message.bot, chat);
    if ok {
      CallExchangesNothing(s1, l, message.bot, chat, message.content, answer, fate, t);
    }
    hide Delivery.CallTelegram, Delivery.CheckThrottle, Note;
  }

  lemma ProcessExchangesNothing(s: Platform, l: LogKey, answer: Delivery.Answer, fate: Delivery.Fate, t: TokenId)
    ensures Delivery.ProcessDelivery(s, l, answer, fate).0.trace[Exchanged(t)] == s.trace[Exchanged(t)]
  {
    if Delivery.Obstacle(s, l).None? {
      SendExchangesNothing(s, l, s.msgs.messages[l.message], s.dests.destinations[l.destination].chat, answer, fate, t);
    }
    hide Delivery.Obstacle, Delivery.ThrottledSend;
  }

  lemma SettleExchangesNothing(s: Platform, l: LogKey, ticket: Ticket, outcome: Delivery.Outcome)
    ensures Delivery.Settle(s, l, ticket, outcome).trace == s.trace
  {
    hide Take, Enqueue, Delivery.Retried, Delivery.Postponed, Note;
  }

  lemma OnlyRefreshExchanges(s: Platform, op: Op, t: TokenId)
    requires !op.OnAuth?
    ensures Step(s, op).trace[Exchanged(t)] == s.trace[Exchanged(t)]
  {
    hide Step, EnqueueAll, NoteAll, Enqueue, Note, Tickets, Delivery.CanRun, Delivery.RunTask;
    match op
    case Tick(ms) => Frames.TickFrame(s, ms);
    case OnOrgs(org) => Frames.OrgsFrame(s, org);
    case DeleteOrganization(tenant, actor) => Frames.DeleteFrame(s, tenant, actor);
    case OnBots(user, tenant, bot) => Frames.BotsFrame(s, user, tenant, bot);
    case OnDestinations(user, tenant, destination) => Frames.DestinationsFrame(s, user, tenant, destination);
    case Webhook(bot, secretMatches, update, id) => Frames.WebhookFrame(s, bot, secretMatches, update, id);
    case CreateMessage(p, r, id, lost) => Frames.SendFrame(s, p, r, id, lost);
    case Dispatch(lost) => Frames.DispatchFrame(s, lost);
    case RunTask(l, ticket, answer, fate) =>
      Frames.TaskFrame(s, l, ticket, answer, fate);
      TaskExchangesNothing(s, l, ticket, answer, fate, t);
    case Redeliver(l, ticket) => Frames.RedeliverFrame(s, l, ticket);
    case PurgeLogs(tenant, before, victims) => Frames.PurgeFrame(s, tenant, before, victims);
  }

  lemma StepKeepsExchangeLaw(s: Platform, op: Op, t: TokenId)
    requires ExchangeLaw(s, t) && Auth.Sound(s.auth)
    ensures ExchangeLaw(Step(s, op), t)
  {
    if op.OnAuth? {
      AuthKeepsExchangeLaw(s, op.auth, t);
    } else {
      hide Step, Auth.Sound;
      OnlyRefreshExchanges(s, op, t);
      StepKeepsTokens(s, op);
      NoNewTokens(s, op);
    }
  }

  lemma NoNewTokens(s: Platform, op: Op)
    requires !op.OnAuth?
    ensures Step(s, op).auth.tokens.Keys == s.auth.tokens.Keys
  {
    if !op.DeleteOrganization? {
      Frames.Elsewhere(s, op);
      hide Step;
    } else {
      hide Bots.Retired, Organizations.Dissolved, Organizations.CheckPathPermission, Messaging.CancelPending;
    }
  }

  lemma AuthKeepsExchangeLaw(s: Platform, op: AuthOp, t: TokenId)
    requires ExchangeLaw(s, t)
    ensures ExchangeLaw(Step(s, OnAuth(op)), t)
  {
  }

  lemma {:induction false} RunKeepsExchangeLaw(ops: seq<Op>, t: TokenId)
    ensures ExchangeLaw(Run(ops), t)
  {
    if ops != [] {
      hide ExchangeLaw, Step, Auth.Sound;
      RunKeepsExchangeLaw(ops[..|ops| - 1], t);
      RunIsHealthy(ops[..|ops| - 1]);
      StepKeepsExchangeLaw(Run(ops[..|ops| - 1]), ops[|ops| - 1], t);
    }
  }

  /** Over any run a refresh token is exchanged at most once; the tokens descending from one login or switch have its
      user and tenant, and at most one of them is unrevoked; every token keeps its user, tenant and family, and a revoked
      one stays revoked since the same time. */
  lemma RotationSafety(ops: seq<Op>, more: seq<Op>, t: TokenId, u: TokenId)
    requires t in Run(ops).auth.tokens && u in Run(ops).auth.tokens
    ensures Run(ops).trace[Exchanged(t)] <= 1
    ensures var tokens := Run(ops).auth.tokens;
            tokens[t].family == tokens[u].family ==>
              && tokens[t].user == tokens[u].user && tokens[t].tenant == tokens[u].tenant
              && (t != u ==> tokens[t].revokedAt.Some? || tokens[u].revokedAt.Some?)
    ensures var tokens, tokens' := Run(ops).auth.tokens, Run(ops + more).auth.tokens;
            && t in tokens'
            && tokens'[t].user == tokens[t].user && tokens'[t].tenant == tokens[t].tenant
            && tokens'[t].family == tokens[t].family
            && (tokens[t].revokedAt.Some? ==> tokens'[t].revokedAt == tokens[t].revokedAt)
  {
    RunKeepsExchangeLaw(ops, t);
    RunIsHealthy(ops);
    RunSplits(EMPTY, ops, more);
    TokensGrow(Run(ops), more);
    hide Run, RunFrom;
    assert Auth.Descends(Run(ops).auth, t) && Auth.Descends(Run(ops).auth, u);
  }
}
