/** Deleting an organization makes its tenant inert: nothing of it is created, dispatched or sent ever after,
    although webhooks, the scheduler and the send tasks never ask whether an organization is active. */
module Burial {
  import opened Wrappers
  import opened Rows
  import opened Tables
  import opened State
  import opened Platforms
  import opened Ledger
  import opened Laws
  import opened Health
  import opened Coherence
  import Organizations
  import Bots
  import Destinations
  import Webhooks
  import Auth
  import Payload
  import Messaging
  import Delivery
  import Frames

  // ----- What the delete establishes, table by table -----

  ghost predicate NoMembers(o: OrgTables, tenant: TenantId) {
    tenant in o.organizations && !Organizations.IsActive(o, tenant) && forall s | s in o.members :: s.tenant != tenant
  }

  ghost predicate NoLiveBots(b: BotTables, tenant: TenantId) {
    && (forall k | k in b.bots && b.bots[k].tenant == tenant :: !IsLive(b.bots[k].deletedAt))
    && (forall k | k in b.assignments && b.assignments[k].tenant == tenant :: !IsLive(b.assignments[k].deletedAt))
  }

  ghost predicate NothingPending(m: MessageTables, tenant: TenantId) {
    forall id | id in m.messages :: !Messaging.IsPending(m.messages[id], tenant)
  }

  ghost predicate NoUsableTokens(a: AuthTables, tenant: TenantId) {
    forall id | id in a.tokens && a.tokens[id].tenant == Some(tenant) :: a.tokens[id].revokedAt.Some?
  }

  ghost predicate Buried(s: Platform, tenant: TenantId) {
    && NoMembers(s.orgs, tenant) && NoLiveBots(s.bots, tenant)
    && NothingPending(s.msgs, tenant) && NoUsableTokens(s.auth, tenant)
  }

  // ----- Nothing of the tenant changes -----

  ghost predicate SameBots(b: BotTables, b': BotTables, tenant: TenantId) {
    && (forall k | k in b.bots || k in b'.bots ::
          (k in b.bots && b.bots[k].tenant == tenant) || (k in b'.bots && b'.bots[k].tenant == tenant) ==>
            k in b.bots && k in b'.bots && b'.bots[k] == b.bots[k])
    && (forall k | k in b.assignments || k in b'.assignments ::
          (k in b.assignments && b.assignments[k].tenant == tenant)
          || (k in b'.assignments && b'.assignments[k].tenant == tenant) ==>
            k in b.assignments && k in b'.assignments && b'.assignments[k] == b.assignments[k])
  }

  ghost predicate SameDestinations(d: DestinationTables, d': DestinationTables, tenant: TenantId) {
    && (forall k | k in d.destinations || k in d'.destinations ::
          (k in d.destinations && d.destinations[k].tenant == tenant)
          || (k in d'.destinations && d'.destinations[k].tenant == tenant) ==>
            k in d.destinations && k in d'.destinations && d'.destinations[k] == d.destinations[k])
    && (forall k | k in d.subscriptions || k in d'.subscriptions ::
          (k in d.subscriptions && d.subscriptions[k].tenant == tenant)
          || (k in d'.subscriptions && d'.subscriptions[k].tenant == tenant) ==>
            k in d.subscriptions && k in d'.subscriptions && d'.subscriptions[k] == d.subscriptions[k])
  }

  ghost predicate SameMessages(m: MessageTables, m': MessageTables, tenant: TenantId) {
    forall id | id in m.messages || id in m'.messages ::
      (id in m.messages && m.messages[id].tenant == tenant) || (id in m'.messages && m'.messages[id].tenant == tenant) ==>
        id in m.messages && id in m'.messages && m'.messages[id] == m.messages[id]
  }

  ghost predicate SameTokens(a: AuthTables, a': AuthTables, tenant: TenantId) {
    forall id | id in a.tokens || id in a'.tokens ::
      (id in a.tokens && a.tokens[id].tenant == Some(tenant)) || (id in a'.tokens && a'.tokens[id].tenant == Some(tenant)) ==>
        id in a.tokens && id in a'.tokens && a'.tokens[id] == a.tokens[id]
  }

  /** The logs of the tenant's messages. */
  ghost predicate IsOf(m: MessageTables, l: LogKey, tenant: TenantId) {
    l.message in m.messages && m.messages[l.message].tenant == tenant
  }

  /** Telegram neither accepts nor refuses anything for the log, and it does not become SENT. */
  ghost predicate Silent(a: Account, a': Account) {
    && Quiet(a.marks, a'.marks)
    && (a'.row.Some? ==> a.row.Some? && (a'.row == a.row || a'.row.value.status == Failed))
  }

  ghost predicate Inert(s: Platform, s': Platform, tenant: TenantId) {
    && SameBots(s.bots, s'.bots, tenant) && SameDestinations(s.dests, s'.dests, tenant)
    && SameMessages(s.msgs, s'.msgs, tenant) && SameTokens(s.auth, s'.auth, tenant)
    && forall l | IsOf(s.msgs, l, tenant) :: Silent(AccountOf(s, l), AccountOf(s', l))
  }

  lemma InertChains(s: Platform, s1: Platform, s2: Platform, tenant: TenantId)
    requires Inert(s, s1, tenant) && Inert(s1, s2, tenant)
    ensures Inert(s, s2, tenant)
  {
    hide AccountOf;
    forall l | IsOf(s.msgs, l, tenant)
      ensures Silent(AccountOf(s, l), AccountOf(s2, l))
    {
      assert IsOf(s1.msgs, l, tenant);
      assert Silent(AccountOf(s, l), AccountOf(s1, l));
      assert Silent(AccountOf(s1, l), AccountOf(s2, l));
    }
  }

  // ----- The delete buries the tenant -----

  lemma DeleteBuries(s: Platform, tenant: TenantId, actor: UserId)
    requires DeleteTenant(s, tenant, actor).Ok?
    ensures Buried(DeleteTenant(s, tenant, actor).value, tenant)
  {
    var s' := DeleteTenant(s, tenant, actor).value;
    assert NoMembers(s'.orgs, tenant);
    assert NoLiveBots(s'.bots, tenant);
    assert NothingPending(s'.msgs, tenant);
    assert NoUsableTokens(s'.auth, tenant);
  }

  // ----- Every step leaves it buried and inert -----

  lemma OrgStepOfOthers(o: OrgTables, op: OrgOp, tenant: TenantId)
    requires NoMembers(o, tenant)
    ensures var r := OrgStep(o, op); r.Ok? ==> NoMembers(r.value, tenant)
  {
  }

  lemma DissolvingOthers(o: OrgTables, other: TenantId, now: nat, tenant: TenantId)
    requires NoMembers(o, tenant) && Organizations.IsActive(o, other)
    ensures NoMembers(Organizations.Dissolved(o, other, now), tenant)
  {
  }

  lemma OrgsStayBuried(s: Platform, op: Op, tenant: TenantId)
    requires NoMembers(s.orgs, tenant)
    ensures NoMembers(Step(s, op).orgs, tenant)
  {
    match op
    case OnOrgs(org) =>
      OrgStepOfOthers(s.orgs, org, tenant);
      hide OrgStep, NoMembers;
    case DeleteOrganization(other, actor) =>
      if Organizations.IsActive(s.orgs, other) {
        DissolvingOthers(s.orgs, other, s.now, tenant);
      }
      hide NoMembers, Organizations.Dissolved, Bots.Retired;
    case _ =>
      Frames.Elsewhere(s, op);
      hide Step;
  }

  lemma RetiringOthers(b: BotTables, other: TenantId, now: nat, tenant: TenantId)
    requires NoLiveBots(b, tenant)
    ensures NoLiveBots(Bots.Retired(b, other, now), tenant) && SameBots(b, Bots.Retired(b, other, now), tenant)
  {
  }

  lemma BotsStayBuried(s: Platform, op: Op, tenant: TenantId)
    requires NoMembers(s.orgs, tenant) && NoLiveBots(s.bots, tenant)
    ensures NoLiveBots(Step(s, op).bots, tenant) && SameBots(s.bots, Step(s, op).bots, tenant)
  {
    match op
    case OnBots(user, owner, bot) =>
      if owner != tenant {
        BotStepOfOthers(s.orgs, s.bots, owner, bot, s.now, tenant);
        hide BotStep;
      }
    case DeleteOrganization(owner, _) =>
      RetiringOthers(s.bots, owner, s.now, tenant);
      hide NoLiveBots, Bots.Retired;
    case _ =>
      Frames.Elsewhere(s, op);
      hide Step;
  }

  lemma BotStepOfOthers(o: OrgTables, b: BotTables, owner: TenantId, op: BotOp, now: nat, tenant: TenantId)
    requires owner != tenant && NoLiveBots(b, tenant)
    ensures var r := BotStep(o, b, owner, op, now); r.Ok? ==> NoLiveBots(r.value, tenant) && SameBots(b, r.value, tenant)
  {
  }

  lemma DestinationsStayBuried(s: Platform, op: Op, tenant: TenantId)
    requires NoMembers(s.orgs, tenant) && NoLiveBots(s.bots, tenant)
    ensures SameDestinations(s.dests, Step(s, op).dests, tenant)
  {
    match op
    case OnDestinations(user, owner, destination) =>
      if owner != tenant {
        DestinationStepOfOthers(s.bots, s.dests, owner, destination, s.now, tenant);
        hide DestinationStep, SameDestinations;
      }
    case Webhook(bot, secretMatches, update, id) =>
      UpdateOfOthers(s.bots, s.dests, bot, secretMatches, update, id, tenant);
      hide Webhooks.HandleUpdate, SameDestinations;
    case _ => Frames.Elsewhere(s, op); hide Step;
  }

  lemma DestinationStepOfOthers(b: BotTables, d: DestinationTables, owner: TenantId, op: DestinationOp, now: nat,
                                tenant: TenantId)
    requires owner != tenant
    ensures var r := DestinationStep(b, d, owner, op, now); r.Ok? ==> SameDestinations(d, r.value, tenant)
  {
  }

  lemma UpdateOfOthers(b: BotTables, d: DestinationTables, bot: BotId, secretMatches: bool,
                       update: Option<Webhooks.Incoming>, id: DestinationId, tenant: TenantId)
    requires NoLiveBots(b, tenant)
    ensures var r := Webhooks.HandleUpdate(b, d, bot, secretMatches, update, id);
            r.Ok? ==> SameDestinations(d, r.value, tenant)
  {
    hide Webhooks.Parsed;
  }

  lemma AuthStepOfOthers(o: OrgTables, a: AuthTables, op: AuthOp, now: nat, tenant: TenantId)
    requires NoMembers(o, tenant) && NoUsableTokens(a, tenant)
    ensures var r := AuthStep(o, a, op, now); r.Ok? ==> NoUsableTokens(r.value, tenant) && SameTokens(a, r.value, tenant)
  {
  }

  lemma TokensStayBuried(s: Platform, op: Op, tenant: TenantId)
    requires NoMembers(s.orgs, tenant) && NoUsableTokens(s.auth, tenant)
    ensures NoUsableTokens(Step(s, op).auth, tenant) && SameTokens(s.auth, Step(s, op).auth, tenant)
  {
    match op
    case OnAuth(auth) =>
      AuthStepOfOthers(s.orgs, s.auth, auth, s.now, tenant);
      hide AuthStep, NoUsableTokens;
    case DeleteOrganization(_, _) =>
    case _ =>
      Frames.Elsewhere(s, op);
      hide Step;
  }

  lemma SenderIsOther(s: Platform, p: Principal, tenant: TenantId)
    requires NoMembers(s.orgs, tenant) && NoLiveBots(s.bots, tenant) && Bots.Sound(s.bots)
    ensures Authenticate(s, p).Ok? ==> Authenticate(s, p).value.0 != tenant
  {
    if p.ApiKey? {
      Bots.ApiKeyNamesOneBot(s.bots, p.key);
    }
  }

  lemma SendOfOthers(s: Platform, p: Principal, r: Messaging.Request, id: MessageId, lost: set<LogKey>, tenant: TenantId)
    requires NoMembers(s.orgs, tenant) && NoLiveBots(s.bots, tenant) && NothingPending(s.msgs, tenant)
    requires Bots.Sound(s.bots) && Send(s, p, r, id, lost).Ok?
    ensures var m' := Send(s, p, r, id, lost).value.msgs;
            NothingPending(m', tenant) && SameMessages(s.msgs, m', tenant)
  {
    SenderIsOther(s, p, tenant);
    var who := Authenticate(s, p).value;
    Messaging.CreateIsExact(s.orgs, s.bots, s.dests, s.msgs, who.0, who.1, r, id, s.now);
    hide Authenticate, Messaging.CreateMessage, Bots.Sound, NoMembers, NoLiveBots;
  }

  /** Dispatch and the delete cascade find nothing of the tenant. */
  lemma SweepsPassBy(m: MessageTables, now: nat, other: TenantId, tenant: TenantId)
    requires NothingPending(m, tenant)
    ensures NothingPending(Messaging.MarkDispatched(m, now), tenant)
    ensures SameMessages(m, Messaging.MarkDispatched(m, now), tenant)
    ensures NothingPending(Messaging.CancelPending(m, other, now), tenant)
    ensures SameMessages(m, Messaging.CancelPending(m, other, now), tenant)
  {
  }

  lemma MessagesStayBuried(s: Platform, op: Op, tenant: TenantId)
    requires NoMembers(s.orgs, tenant) && NoLiveBots(s.bots, tenant) && NothingPending(s.msgs, tenant)
    requires Bots.Sound(s.bots)
    ensures NothingPending(Step(s, op).msgs, tenant) && SameMessages(s.msgs, Step(s, op).msgs, tenant)
  {
    match op
    case CreateMessage(p, r, id, lost) =>
      if Send(s, p, r, id, lost).Ok? {
        SendOfOthers(s, p, r, id, lost, tenant);
      }
      hide Send, NoMembers, NoLiveBots, NothingPending, Bots.Sound;
    case Dispatch(_) =>
      SweepsPassBy(s.msgs, s.now, tenant, tenant);
      hide NothingPending, SameMessages, Messaging.MarkDispatched;
    case DeleteOrganization(other, _) =>
      SweepsPassBy(s.msgs, s.now, other, tenant);
      hide NothingPending, Messaging.CancelPending;
    case _ =>
      Frames.Elsewhere(s, op);
      hide Step;
  }

  /** A job of the tenant meets no live bot: it does not reach the throttle. */
  lemma LeftoverIsObstructed(s: Platform, l: LogKey, tenant: TenantId)
    requires NoLiveBots(s.bots, tenant) && Linked(s) && IsOf(s.msgs, l, tenant)
    ensures Delivery.Obstacle(s, l).Some?
  {
    assert l in s.msgs.logs ==> LinkedLog(s.dests, l, s.msgs.logs[l].tenant, s.msgs.messages[l.message]);
    hide LinkedSubscriptions;
  }

  /** Executed to its end it is skipped or fails; cut short it does nothing. */
  lemma LeftoverTaskEnds(s: Platform, l: LogKey, answer: Delivery.Answer, fate: Delivery.Fate, tenant: TenantId)
    requires NoLiveBots(s.bots, tenant) && Linked(s) && IsOf(s.msgs, l, tenant)
    ensures var r := Delivery.ProcessDelivery(s, l, answer, fate);
            && (if fate.Cut? then r == (s, Delivery.WasCut(fate.kept)) else r.1 in {Delivery.WasSkipped, Delivery.WasFailed})
            && (r.0 == s || (l in s.msgs.logs && exists reason ::
                               r.0 == Delivery.PutLog(s, l, Messaging.MarkFailed(s.msgs.logs[l], reason))))
  {
    LeftoverIsObstructed(s, l, tenant);
    hide Delivery.Obstacle, Delivery.ThrottledSend, Linked, NoLiveBots;
    match Delivery.Obstacle(s, l)
    case Some(Fail(reason)) =>
      assert fate.Whole? ==> Delivery.ProcessDelivery(s, l, answer, fate).0
                             == Delivery.PutLog(s, l, Messaging.MarkFailed(s.msgs.logs[l], reason));
    case _ =>
  }

  lemma SettledIsSilent(a: Account, a1: Account, a': Account, t: Ticket, outcome: Delivery.Outcome, now: nat)
    requires Settled(a1, a', t, outcome, now)
    requires outcome.WasSkipped? || outcome.WasFailed? || outcome.WasCut?
    requires a1.marks == a.marks && (a1.row.Some? ==> a.row.Some? && (a1.row == a.row || a1.row.value.status == Failed))
    ensures Silent(a, a')
  {
    hide TicketsAfter;
  }

  lemma LeftoverIsSilent(s: Platform, l: LogKey, t: Ticket, answer: Delivery.Answer, fate: Delivery.Fate, tenant: TenantId)
    requires NoLiveBots(s.bots, tenant) && Linked(s) && IsOf(s.msgs, l, tenant)
    ensures Silent(AccountOf(s, l), AccountOf(Delivery.RunTask(s, l, t, answer, fate), l))
  {
    LeftoverTaskEnds(s, l, answer, fate, tenant);
    var r := Delivery.ProcessDelivery(s, l, answer, fate);
    hide Delivery.ProcessDelivery, Delivery.Settle, Settled, Silent, Linked, NoLiveBots;
    if r.0 != s {
      var reason :| r.0 == Delivery.PutLog(s, l, Messaging.MarkFailed(s.msgs.logs[l], reason));
      PutFailedMoves(s, l, reason, l);
    }
    SettleMoves(r.0, l, t, r.1, l);
    SettledIsSilent(AccountOf(s, l), AccountOf(r.0, l), AccountOf(Delivery.RunTask(s, l, t, answer, fate), l), t, r.1,
                    r.0.now);
  }

  lemma MoveIsSilent(l: LogKey, a: Account, a': Account, op: Op, outcome: Delivery.Outcome, now: nat)
    requires Moves(l, a, a', op, outcome, now) && a.message.Some? && !(op.RunTask? && op.log == l)
    ensures Silent(a, a')
  {
    hide Ran;
  }

  lemma StepIsSilent(s: Platform, op: Op, l: LogKey, tenant: TenantId)
    requires NoLiveBots(s.bots, tenant) && Linked(s) && IsOf(s.msgs, l, tenant)
    ensures Silent(AccountOf(s, l), AccountOf(Step(s, op), l))
  {
    assert AccountOf(s, l).message.Some?;
    hide Moves, AccountOf, Step, OutcomeOf, Delivery.ProcessDelivery, Linked, NoLiveBots, Delivery.RunTask, Delivery.CanRun;
    if op.RunTask? && op.log == l {
      Frames.TaskFrame(s, l, op.ticket, op.answer, op.fate);
      if Delivery.CanRun(s, l, op.ticket) {
        LeftoverIsSilent(s, l, op.ticket, op.answer, op.fate, tenant);
      }
    } else {
      StepMoves(s, op, l);
      MoveIsSilent(l, AccountOf(s, l), AccountOf(Step(s, op), l), op, OutcomeOf(s, op), s.now);
    }
  }

  lemma StepStaysBuried(s: Platform, op: Op, tenant: TenantId)
    requires Buried(s, tenant) && Bots.Sound(s.bots) && Linked(s)
    ensures Buried(Step(s, op), tenant) && Inert(s, Step(s, op), tenant)
  {
    hide Step, AccountOf, Silent, NoMembers, NoLiveBots, NothingPending, NoUsableTokens, Bots.Sound, Linked, SameBots,
         SameDestinations, SameMessages, SameTokens;
    OrgsStayBuried(s, op, tenant);
    BotsStayBuried(s, op, tenant);
    DestinationsStayBuried(s, op, tenant);
    MessagesStayBuried(s, op, tenant);
    TokensStayBuried(s, op, tenant);
    forall l | IsOf(s.msgs, l, tenant)
      ensures Silent(AccountOf(s, l), AccountOf(Step(s, op), l))
    {
      StepIsSilent(s, op, l, tenant);
    }
  }

  lemma InertAtFirst(s: Platform, tenant: TenantId)
    ensures Inert(s, s, tenant)
  {
  }

  lemma {:induction false} BuriedForEver(s: Platform, more: seq<Op>, tenant: TenantId)
    requires Buried(s, tenant) && Bots.Sound(s.bots) && Linked(s)
    ensures var s' := RunFrom(s, more);
            Buried(s', tenant) && Inert(s, s', tenant) && Bots.Sound(s'.bots) && Linked(s')
  {
    if more == [] {
      InertAtFirst(s, tenant);
    } else {
      hide Step, Buried, Inert, Bots.Sound, Linked;
      var before, op := RunFrom(s, more[..|more| - 1]), more[|more| - 1];
      BuriedForEver(s, more[..|more| - 1], tenant);
      StepStaysBuried(before, op, tenant);
      StepKeepsSoundBots(before, op);
      StepKeepsLinked(before, op);
      InertChains(s, before, Step(before, op), tenant);
    }
  }

  /** After a successful `delete_organization`, in every continuation of the run: the organization has no members and
      its tenant no live bot, no pending message and no usable token; its bots, assignments, destinations,
      subscriptions, messages and tokens are exactly those the delete left, so none is created, revived or
      dispatched; Telegram accepts and refuses nothing more for its logs and none of them becomes SENT; and any job
      left over for them, once executed to its end, is skipped or fails and is gone from the broker. */
  lemma DeletedTenantIsInert(ops: seq<Op>, tenant: TenantId, actor: UserId, more: seq<Op>)
    requires Handle(Run(ops), DeleteOrganization(tenant, actor)).Ok?
    ensures var s := Run(ops + [DeleteOrganization(tenant, actor)]);
            var s' := RunFrom(s, more);
            && Buried(s', tenant) && Inert(s, s', tenant)
            && forall l, t, answer | IsOf(s.msgs, l, tenant) && Delivery.CanRun(s', l, t) ::
                 LeavesBroker(s', l, t, answer)
  {
    var all := ops + [DeleteOrganization(tenant, actor)];
    assert all[..|all| - 1] == ops && all[|all| - 1] == DeleteOrganization(tenant, actor);
    var s := Run(all);
    DeleteBuries(Run(ops), tenant, actor);
    hide Buried, Inert, Linked, Healthy, DeleteTenant, Run, RunFrom, LeavesBroker, Delivery.CanRun;
    assert Healthy(s) && Linked(s) by {
      RunIsHealthy(all);
      RunIsLinked(all);
    }
    BoundedByHealth(s);
    BuriedForEver(s, more, tenant);
    var s' := RunFrom(s, more);
    forall l, t, answer | IsOf(s.msgs, l, tenant) && Delivery.CanRun(s', l, t)
      ensures LeavesBroker(s', l, t, answer)
    {
      StillOf(s, s', l, tenant);
      LeftoverTaskLeaves(s', l, t, answer, tenant);
    }
  }

  lemma BoundedByHealth(s: Platform)
    requires Healthy(s)
    ensures Bots.Sound(s.bots)
  {
  }

  lemma StillOf(s: Platform, s': Platform, l: LogKey, tenant: TenantId)
    requires Inert(s, s', tenant) && IsOf(s.msgs, l, tenant)
    ensures IsOf(s'.msgs, l, tenant)
  {
    hide AccountOf;
  }

  ghost predicate LeavesBroker(s: Platform, l: LogKey, t: Ticket, answer: Delivery.Answer) {
    && Delivery.ProcessDelivery(s, l, answer, Delivery.Whole).1 in {Delivery.WasSkipped, Delivery.WasFailed}
    && Tickets(Delivery.RunTask(s, l, t, answer, Delivery.Whole).queue, l) == Tickets(s.queue, l) - multiset{t}
  }

  lemma LeftoverTaskLeaves(s: Platform, l: LogKey, t: Ticket, answer: Delivery.Answer, tenant: TenantId)
    requires Buried(s, tenant) && Linked(s) && IsOf(s.msgs, l, tenant) && Delivery.CanRun(s, l, t)
    ensures LeavesBroker(s, l, t, answer)
  {
    hide Linked, NoMembers, NoLiveBots, NothingPending, NoUsableTokens, Delivery.ProcessDelivery;
    LeftoverTaskEnds(s, l, answer, Delivery.Whole, tenant);
    var (s1, outcome) := Delivery.ProcessDelivery(s, l, answer, Delivery.Whole);
    assert s1.queue == s.queue;
    TakeTickets(s.queue, l, t, t, l);
    hide Take;
  }

  /** What the cascade spares. Of the tenant's messages exactly those stay live that were live and dispatched; an
      immediate message never gets a dispatch time, so it is deleted with the rest even when it was sent long ago. */
  lemma CascadeTakesImmediateHistory(ops: seq<Op>, tenant: TenantId, actor: UserId, id: MessageId)
    requires DeleteTenant(Run(ops), tenant, actor).Ok?
    requires id in Run(ops).msgs.messages && Run(ops).msgs.messages[id].tenant == tenant
    ensures var before, after := Run(ops).msgs.messages[id], DeleteTenant(Run(ops), tenant, actor).value.msgs.messages;
            && id in after
            && (IsLive(after[id].deletedAt) <==> IsLive(before.deletedAt) && before.dispatchedAt.Some?)
            && (before.scheduledAt.None? ==> !IsLive(after[id].deletedAt))
  {
    RunKeepsLaw(ops, LogKey(id, 0));
    hide Run, Payload.SendViaTelegram, TicketLaw, RowLaw, Balanced, Bots.Retired, Organizations.Dissolved,
         Auth.RevokeAllForTenant, Organizations.CheckPathPermission;
  }
}
