/** The running application: request handlers that commit or roll back, and the workers. Handler by handler it
    does what the step function says, so what is proved about runs of steps holds of it. */
module Application {
  import opened Wrappers
  import opened Rows
  import opened Tables
  import opened State
  import opened Platforms
  import opened Database
  import opened Celery
  import opened MessagingTasks
  import FixedWindow
  import Payload
  import Organizations
  import Bots
  import Destinations
  import Webhooks
  import Messaging
  import Delivery
  import Auth
  import AuthService
  import BotService
  import DestinationService
  import MessagingService
  import OrganizationService
  import WebhookService

  lemma AuthHandled(s: Platform, op: AuthOp, s': Platform)
    requires match AuthStep(s.orgs, s.auth, op, s.now)
             case Err(_) => s' == s
             case Ok(tables) =>
               s' == s.(auth := tables, trace := s.trace + if op.Refresh? then multiset{Exchanged(op.token)} else multiset{})
    ensures s' == Step(s, OnAuth(op))
  {
    hide AuthStep;
  }

  class App {
    const session: Session
    const redis: Counters
    const celery: Celery
    var now: nat

    ghost function State(): Platform
      reads this, session, redis, celery
    {
      View(session, redis, celery, now)
    }

    /** Between requests nothing is uncommitted. */
    ghost predicate Idle()
      reads this, session
    {
      session.Clean()
    }

    constructor ()
      ensures Idle() && State() == EMPTY
      ensures fresh(session) && fresh(redis) && fresh(celery)
    {
      session := new Session();
      redis := new FixedWindow.Redis();
      celery := new Celery();
      now := 0;
    }

    /** The end of a request: commit, or close the session without one. */
    method Close(error: Option<AppError>)
      modifies session
      ensures session.Clean()
      ensures session.Current() == if error.None? then old(session.Current()) else old(session.committed)
    {
      if error.None? {
        session.Commit();
      } else {
        session.Rollback();
      }
    }

    method HandleOrganizations(op: OrgOp)
      requires Idle()
      modifies session
      ensures Idle() && State() == Step(old(State()), OnOrgs(op))
    {
      var error;
      match op {
        case Found(user, id) => error := OrganizationService.CreateOrganization(session, id, user);
        case AddMember(tenant, actor, invited, role) =>
          error := OrganizationService.AddMember(session, tenant, actor, invited, role);
        case UpdateRole(tenant, actor, target, role) =>
          error := OrganizationService.UpdateMemberRole(session, tenant, actor, target, role);
      }
      Close(error);
    }

    method HandleDeleteOrganization(tenant: TenantId, actor: UserId)
      requires Idle()
      modifies session
      ensures Idle() && State() == Step(old(State()), DeleteOrganization(tenant, actor))
    {
      var error := OrganizationService.DeleteOrganization(session, tenant, actor, now);
      hide Organizations.Dissolved, Bots.Retired, Messaging.CancelPending, Auth.RevokeAllForTenant,
           Organizations.CheckPathPermission;
      Close(error);
    }

    method CallBots(tenant: TenantId, op: BotOp) returns (error: Option<AppError>)
      modifies session`bots, session`assignments
      ensures Agrees(error, BotStep(session.Orgs(), old(session.Bots()), tenant, op, now), session.Bots())
    {
      match op
      case RegisterBot(id, telegramBotId, key) =>
        error := BotService.RegisterBot(session, tenant, id, telegramBotId, key);
      case UpdatePolicy(bot, enabled) => error := BotService.UpdateSubscriptionPolicy(session, tenant, bot, enabled);
      case DeleteBot(bot) => error := BotService.DeleteBot(session, tenant, bot, now);
      case AssignBot(bot, user, id) => error := BotService.AssignBot(session, tenant, bot, user, id);
      case UnassignBot(bot, user) => error := BotService.UnassignBot(session, tenant, bot, user, now);
    }

    method HandleBots(user: UserId, tenant: TenantId, op: BotOp)
      requires Idle()
      modifies session
      ensures Idle() && State() == Step(old(State()), OnBots(user, tenant, op))
    {
      hide BotStep, Organizations.CheckPermission;
      var error := Organizations.CheckPermission(session.Orgs(), user, tenant, Organizations.BotManage);
      if error.None? {
        error := CallBots(tenant, op);
      }
      Close(error);
    }

    method CallDestinations(tenant: TenantId, op: DestinationOp) returns (error: Option<AppError>)
      modifies session`destinations, session`subscriptions
      ensures Agrees(error, DestinationStep(session.Bots(), old(session.Dests()), tenant, op, now), session.Dests())
    {
      match op
      case CreateDestination(bot, chat, thread, id) =>
        error := DestinationService.CreateDestination(session, bot, Destinations.ChatKey(tenant, chat, thread), id);
      case DeleteDestination(id) => error := DestinationService.DeleteDestination(session, tenant, id, now);
      case UpdateSubscription(id, bot, status) =>
        error := DestinationService.UpdateSubscriptionStatus(session, tenant, id, bot, status);
    }

    method HandleDestinations(user: UserId, tenant: TenantId, op: DestinationOp)
      requires Idle()
      modifies session
      ensures Idle() && State() == Step(old(State()), OnDestinations(user, tenant, op))
    {
      hide DestinationStep, Organizations.CheckPermission;
      var error := Organizations.CheckPermission(session.Orgs(), user, tenant, Organizations.DestinationManage);
      if error.None? {
        error := CallDestinations(tenant, op);
      }
      Close(error);
    }

    method HandleWebhook(bot: BotId, secretMatches: bool, update: Option<Webhooks.Incoming>, id: DestinationId)
      requires Idle()
      modifies session
      ensures Idle() && State() == Step(old(State()), Webhook(bot, secretMatches, update, id))
    {
      hide Webhooks.HandleUpdate;
      var error := WebhookService.HandleTelegramUpdate(session, bot, secretMatches, update, id);
      Close(error);
    }

    method CallAuth(op: AuthOp) returns (error: Option<AppError>)
      modifies session`tokens
      ensures Agrees(error, AuthStep(session.Orgs(), old(session.Auth()), op, now), session.Auth())
    {
      match op
      case Login(user, token, expiresAt) =>
        error := AuthService.IssueTokenPair(session, token, user, None, expiresAt, token);
      case Switch(user, tenant, token, expiresAt) =>
        error := AuthService.SwitchOrganization(session, user, tenant, token, expiresAt);
      case Refresh(token, next, userIsActive, expiresAt) =>
        error := AuthService.Refresh(session, token, next, userIsActive, expiresAt, now);
    }

    method HandleAuth(op: AuthOp)
      requires Idle()
      modifies session, celery`trace
      ensures Idle() && State() == Step(old(State()), OnAuth(op))
    {
      hide AuthStep, Step;
      var error := CallAuth(op);
      if error.None? {
        celery.trace := celery.trace + if op.Refresh? then multiset{Exchanged(op.token)} else multiset{};
      }
      Close(error);
      AuthHandled(old(State()), op, State());
    }

    method CheckPrincipal(p: Principal) returns (r: Result<(TenantId, Messaging.Sender), AppError>)
      ensures r == Authenticate(State(), p)
    {
      match p
      case Jwt(user, tenant) =>
        var denied := Organizations.CheckPermission(session.Orgs(), user, tenant, Organizations.MessageSend);
        return if denied.Some? then Err(denied.value) else Ok((tenant, Messaging.Sender(Some(user), None)));
      case ApiKey(key) =>
        match Bots.GetBotByApiKey(session.Bots(), key) {
          case Err(e) => return Err(e);
          case Ok(bot) =>
            if bot !in session.bots {
              return Err(BotApiKeyInvalid);
            }
            return Ok((session.bots[bot].tenant, Messaging.Sender(None, Some(bot))));
        }
    }

    /** Commit first, then enqueue. */
    method HandleCreateMessage(p: Principal, request: Messaging.Request, id: MessageId, lost: set<LogKey>)
      requires Idle()
      modifies session, celery`queue, celery`history
      ensures Idle() && State() == Step(old(State()), CreateMessage(p, request, id, lost))
    {
      hide Authenticate, Messaging.CreateMessage, Payload.Validate, Messaging.LogKeys;
      var who := CheckPrincipal(p);
      if who.Err? || Payload.Validate(request.payload).Err? {
        return;
      }
      var (tenant, sender) := who.value;
      var error, rows := MessagingService.CreateMessage(session, tenant, sender, request, id, now);
      Close(error);
      if error.None? {
        MessagingService.EnqueueImmediateDeliveries(celery, request.scheduledAt, rows, lost, now);
        assert KeySet(rows) == Messaging.LogKeys(id, request.payload.destinations);
      }
    }

    method HandleDispatch(lost: set<LogKey>)
      requires Idle()
      modifies session, celery`queue, celery`history
      ensures Idle() && State() == Step(old(State()), Dispatch(lost))
    {
      hide Messaging.MarkDispatched, Messaging.DueLogs, EnqueueAll, NoteAll;
      DispatchScheduledMessages(session, celery, lost, now);
    }

    method HandleTask(l: LogKey, t: Ticket, answer: Delivery.Answer, fate: Delivery.Fate)
      requires Idle()
      modifies session, redis, celery
      ensures Idle() && State() == Step(old(State()), RunTask(l, t, answer, fate))
    {
      hide Delivery.RunTask;
      if t in Tickets(celery.queue, l) && t.eta <= now {
        SendMessageToDestination(session, redis, celery, l, t, answer, fate, now);
      }
    }

    /** The broker delivers a job once more. */
    method HandleRedelivery(l: LogKey, t: Ticket)
      requires Idle()
      modifies celery
      ensures Idle() && State() == Step(old(State()), Redeliver(l, t))
    {
      hide Note, Enqueue;
      if t in Tickets(celery.queue, l) {
        celery.ApplyAsync(l, t);
        celery.history := Note(celery.history, l, multiset{Copied});
      }
    }

    /** One DELETE statement of the retention purge. */
    method HandlePurge(tenant: TenantId, before: nat, victims: set<LogKey>)
      requires Idle()
      modifies session
      ensures Idle() && State() == Step(old(State()), PurgeLogs(tenant, before, victims))
    {
      var gone := set l | l in victims && l in session.logs
                          && session.logs[l].tenant == tenant && session.logs[l].createdAt < before;
      session.logs := map l | l in session.logs && l !in gone :: session.logs[l];
      session.Commit();
    }

    /** One step of the system. */
    method Perform(op: Op)
      requires Idle()
      modifies this, session, redis, celery
      ensures Idle() && State() == Step(old(State()), op)
    {
      match op
      case Tick(ms) => now := now + ms;
      case OnOrgs(org) => HandleOrganizations(org);
      case DeleteOrganization(tenant, actor) => HandleDeleteOrganization(tenant, actor);
      case OnBots(user, tenant, bot) => HandleBots(user, tenant, bot);
      case OnDestinations(user, tenant, destination) => HandleDestinations(user, tenant, destination);
      case Webhook(bot, secretMatches, update, id) => HandleWebhook(bot, secretMatches, update, id);
      case OnAuth(auth) => HandleAuth(auth);
      case CreateMessage(p, r, id, lost) => HandleCreateMessage(p, r, id, lost);
      case Dispatch(lost) => HandleDispatch(lost);
      case RunTask(l, t, answer, fate) => HandleTask(l, t, answer, fate);
      case Redeliver(l, t) => HandleRedelivery(l, t);
      case PurgeLogs(tenant, before, victims) => HandlePurge(tenant, before, victims);
    }

    /** A whole run: the application ends in the state the run of steps ends in. */
    method Serve(ops: seq<Op>)
      requires Idle()
      modifies this, session, redis, celery
      ensures Idle() && State() == RunFrom(old(State()), ops)
    {
      hide Step, View;
      var i := 0;
      while i < |ops|
        invariant 0 <= i <= |ops|
        invariant Idle() && State() == RunFrom(old(State()), ops[..i])
      {
        assert ops[..i + 1][..i] == ops[..i] && ops[..i + 1][i] == ops[i];
        Perform(ops[i]);
        i := i + 1;
      }
      assert ops[..i] == ops;
    }
  }
}
