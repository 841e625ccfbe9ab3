/** What each kind of step leaves alone, handler by handler. */
module Frames {
  import opened Rows
  import opened Tables
  import opened Wrappers
  import opened State
  import opened Platforms
  import Organizations
  import Webhooks
  import Messaging
  import Delivery
  import Auth
  import Bots
  import Payload

  lemma TickFrame(s: Platform, ms: nat)
    ensures Step(s, Tick(ms)) == s.(now := s.now + ms)
  {
  }

  lemma OrgsFrame(s: Platform, org: OrgOp)
    ensures var s' := Step(s, OnOrgs(org)); s' == s.(orgs := s'.orgs)
  {
    hide OrgStep;
  }

  lemma DeleteFrame(s: Platform, tenant: TenantId, actor: UserId)
    ensures var s' := Step(s, DeleteOrganization(tenant, actor));
            s' == s.(orgs := s'.orgs, bots := s'.bots, msgs := s'.msgs, auth := s'.auth) && s'.msgs.logs == s.msgs.logs
  {
    hide Organizations.Dissolved, Organizations.CheckPathPermission, Bots.Retired, Auth.RevokeAllForTenant;
  }

  lemma BotsFrame(s: Platform, user: UserId, tenant: TenantId, bot: BotOp)
    ensures var s' := Step(s, OnBots(user, tenant, bot)); s' == s.(bots := s'.bots)
  {
    hide BotStep, Organizations.CheckPermission;
  }

  lemma DestinationsFrame(s: Platform, user: UserId, tenant: TenantId, destination: DestinationOp)
    ensures var s' := Step(s, OnDestinations(user, tenant, destination)); s' == s.(dests := s'.dests)
  {
    hide DestinationStep, Organizations.CheckPermission;
  }

  lemma WebhookFrame(s: Platform, bot: BotId, secretMatches: bool, update: Option<Webhooks.Incoming>, id: DestinationId)
    ensures var s' := Step(s, Webhook(bot, secretMatches, update, id)); s' == s.(dests := s'.dests)
  {
    hide Webhooks.HandleUpdate;
  }

  lemma AuthFrame(s: Platform, op: AuthOp)
    ensures var s' := Step(s, OnAuth(op));
            s' == s || s' == s.(auth := s'.auth, trace := s.trace + if op.Refresh? then multiset{Exchanged(op.token)}
                                                                  else multiset{})
  {
    hide AuthStep;
  }

  lemma SendFrame(s: Platform, p: Principal, r: Messaging.Request, id: MessageId, lost: set<LogKey>)
    ensures var s' := Step(s, CreateMessage(p, r, id, lost));
            var logs := if r.scheduledAt.Some? then {} else Messaging.LogKeys(id, r.payload.destinations);
            s' == s || s' == CommitAndEnqueue(s, s'.msgs, logs, lost)
  {
    hide Authenticate, Messaging.CreateMessage, Payload.Validate, EnqueueAll, NoteAll;
  }

  lemma DispatchFrame(s: Platform, lost: set<LogKey>)
    ensures Step(s, Dispatch(lost))
            == CommitAndEnqueue(s, Messaging.MarkDispatched(s.msgs, s.now), Messaging.DueLogs(s.msgs, s.now), lost)
  {
    hide Messaging.MarkDispatched, Messaging.DueLogs, CommitAndEnqueue;
  }

  lemma TaskFrame(s: Platform, l: LogKey, t: Ticket, answer: Delivery.Answer, fate: Delivery.Fate)
    ensures Step(s, RunTask(l, t, answer, fate))
            == if Delivery.CanRun(s, l, t) then Delivery.RunTask(s, l, t, answer, fate) else s
    ensures Delivery.OnlyDelivery(s, Step(s, RunTask(l, t, answer, fate)))
  {
    Delivery.TaskTouchesOnlyDelivery(s, l, t, answer, fate);
    hide Delivery.RunTask, Delivery.CanRun;
  }

  lemma RedeliverFrame(s: Platform, l: LogKey, t: Ticket)
    ensures Step(s, Redeliver(l, t)) == if t in Tickets(s.queue, l)
                                        then s.(queue := Enqueue(s.queue, l, t), history := Note(s.history, l, multiset{Copied}))
                                        else s
  {
    hide Tickets, Enqueue, Note;
  }

  lemma PurgeFrame(s: Platform, tenant: TenantId, before: nat, victims: set<LogKey>)
    ensures var s' := Step(s, PurgeLogs(tenant, before, victims));
            && s' == s.(msgs := s.msgs.(logs := s'.msgs.logs))
            && (forall l | l in s'.msgs.logs :: l in s.msgs.logs && s'.msgs.logs[l] == s.msgs.logs[l])
            && (forall l | l in s.msgs.logs && l !in victims :: l in s'.msgs.logs)
  {
  }

  /** Tables a step of another module does not touch. */
  lemma Elsewhere(s: Platform, op: Op)
    ensures !op.OnOrgs? && !op.DeleteOrganization? ==> Step(s, op).orgs == s.orgs
    ensures !op.OnBots? && !op.DeleteOrganization? ==> Step(s, op).bots == s.bots
    ensures !op.OnDestinations? && !op.Webhook? ==> Step(s, op).dests == s.dests
    ensures !op.OnAuth? && !op.DeleteOrganization? ==> Step(s, op).auth == s.auth
    ensures !op.CreateMessage? && !op.Dispatch? && !op.DeleteOrganization? ==>
              Step(s, op).msgs.messages == s.msgs.messages
    ensures op.Tick? || Step(s, op).now == s.now
    ensures !op.RunTask? ==> Step(s, op).redis == s.redis && Step(s, op).calls == s.calls
  {
    hide Step, EnqueueAll, NoteAll, Note, Enqueue, Tickets, Delivery.CanRun, Delivery.RunTask;
    match op
    case Tick(ms) => TickFrame(s, ms);
    case OnOrgs(org) => OrgsFrame(s, org);
    case DeleteOrganization(tenant, actor) => DeleteFrame(s, tenant, actor);
    case OnBots(user, tenant, bot) => BotsFrame(s, user, tenant, bot);
    case OnDestinations(user, tenant, destination) => DestinationsFrame(s, user, tenant, destination);
    case Webhook(bot, secretMatches, update, id) => WebhookFrame(s, bot, secretMatches, update, id);
    case OnAuth(auth) => AuthFrame(s, auth);
    case CreateMessage(p, r, id, lost) => SendFrame(s, p, r, id, lost);
    case Dispatch(lost) => DispatchFrame(s, lost);
    case RunTask(l, t, answer, fate) => TaskFrame(s, l, t, answer, fate);
    case Redeliver(l, t) => RedeliverFrame(s, l, t);
    case PurgeLogs(tenant, before, victims) => PurgeFrame(s, tenant, before, victims);
  }
}
