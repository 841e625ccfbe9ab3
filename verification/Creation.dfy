/** Message requests: exactly which ones succeed, what the others are refused for, and what is stored and enqueued. */
module Creation {
  import opened Wrappers
  import opened Query
  import opened Rows
  import opened Tables
  import opened State
  import opened Platforms
  import opened Health
  import opened Coherence
  import Payload
  import Template
  import Organizations
  import Bots
  import Destinations
  import Messaging
  import Authorization
  import opened Dispatching
  import opened Columns
  import Frames

  // ----- The conditions of a request, on the rows -----

  /** The credentials: a membership of an active organization, or the key of a live bot. */
  ghost predicate SignedIn(s: Platform, p: Principal) {
    match p
    case Jwt(user, tenant) =>
      IsOpen(s.orgs, tenant) && Seat(tenant, user) in s.orgs.members
    case ApiKey(key) => exists bot :: LiveKey(s.bots, bot, key)
  }

  /** The organization the credentials stand for. */
  ghost predicate SignedInFor(s: Platform, p: Principal, tenant: TenantId) {
    && SignedIn(s, p)
    && match p
       case Jwt(_, t) => t == tenant
       case ApiKey(key) => exists bot :: LiveKey(s.bots, bot, key) && s.bots.bots[bot].tenant == tenant
  }

  /** Owners and administrators may use every bot, members the assigned ones, and a key its own bot. */
  ghost predicate MayUse(s: Platform, p: Principal, tenant: TenantId, bot: BotId) {
    match p
    case Jwt(user, _) =>
      Authorization.Manages(s.orgs, tenant, user) || Authorization.StandsAssigned(s.bots, tenant, bot, user)
    case ApiKey(key) => LiveKey(s.bots, bot, key)
  }

  ghost predicate Reachable(s: Platform, tenant: TenantId, bot: BotId, id: DestinationId) {
    LiveDestination(s.dests, tenant, id) && IsSubscribed(s.dests, tenant, bot, id)
  }

  ghost predicate AllReachable(s: Platform, tenant: TenantId, bot: BotId, ids: seq<DestinationId>) {
    forall i | 0 <= i < |ids| :: Reachable(s, tenant, bot, ids[i])
  }

  /** The first destination that is not reachable decides the error. */
  ghost predicate UnreachableFor(s: Platform, tenant: TenantId, bot: BotId, ids: seq<DestinationId>, e: AppError) {
    exists i | 0 <= i < |ids| ::
      && AllReachable(s, tenant, bot, ids[..i]) && !Reachable(s, tenant, bot, ids[i])
      && e == if LiveDestination(s.dests, tenant, ids[i]) then DestinationNotSubscribed else DestinationNotFound
  }

  ghost function Given(template: Messaging.TemplateUse): map<string, string> {
    if template.variables.Some? then template.variables.value else map[]
  }

  ghost predicate AllGiven(template: Messaging.TemplateUse)
    requires template.body.Some?
  {
    forall n | n in Template.Names(Template.Scan(template.body.value)) :: n in Given(template)
  }

  ghost predicate TextResolves(r: Messaging.Request) {
    r.payload.usesTemplate ==> r.template.body.Some? && AllGiven(r.template)
  }

  ghost predicate InFuture(r: Messaging.Request, now: nat) {
    r.scheduledAt.Some? ==> now < r.scheduledAt.value
  }

  /** What a request that succeeds meets, for the tenant of its credentials. */
  ghost predicate Acceptable(s: Platform, p: Principal, r: Messaging.Request, id: MessageId, tenant: TenantId) {
    && Payload.WellFormed(r.payload)
    && LiveBot(s.bots, tenant, r.bot) && MayUse(s, p, tenant, r.bot)
    && AllReachable(s, tenant, r.bot, r.payload.destinations)
    && TextResolves(r) && InFuture(r, s.now) && id !in s.msgs.messages
  }

  /** What a request that fails after its authentication is refused for, the first reason first. */
  ghost predicate RefusedFor(s: Platform, p: Principal, r: Messaging.Request, id: MessageId, tenant: TenantId, e: AppError) {
    if !Payload.WellFormed(r.payload) then e == Unprocessable
    else if !LiveBot(s.bots, tenant, r.bot) then e == BotNotFound
    else if !MayUse(s, p, tenant, r.bot) then e == BotNotAssigned
    else if !AllReachable(s, tenant, r.bot, r.payload.destinations) then
      UnreachableFor(s, tenant, r.bot, r.payload.destinations, e)
    else if r.payload.usesTemplate && r.template.body.None? then e == MessageTemplateNotFound
    else if !TextResolves(r) then e == TemplateVariableMissing
    else if !InFuture(r, s.now) then e == ScheduledAtInPast
    else id in s.msgs.messages && e == IntegrityError
  }

  // ----- What is stored -----

  /** The request's text, or the template with its placeholders filled. */
  ghost function TextOf(r: Messaging.Request): Option<string>
    requires TextResolves(r)
  {
    if r.payload.usesTemplate then Some(Template.Fill(Template.Scan(r.template.body.value), Given(r.template)))
    else r.payload.text
  }

  ghost function ContentOf(r: Messaging.Request): Payload.Content
    requires TextResolves(r)
  {
    var p := r.payload;
    Payload.Content(p.contentType, TextOf(r), p.mediaType, p.mediaUrl, p.keyboard,
                    if p.poll.None? then None
                    else Some(Payload.PollDict(Some(p.poll.value.question), Some(p.poll.value.options),
                                               Some(p.poll.value.anonymous), Some(p.poll.value.multiple))))
  }

  ghost predicate IsNewLog(r: Messaging.Request, id: MessageId, l: LogKey) {
    l.message == id && l.destination in r.payload.destinations
  }

  /** One message with the request's content, and one QUEUED log per destination. */
  ghost predicate Stored(m: MessageTables, m': MessageTables, r: Messaging.Request, id: MessageId, tenant: TenantId,
                         now: nat)
    requires TextResolves(r)
  {
    && m'.messages == m.messages[id := Message(tenant, r.bot, ContentOf(r), r.scheduledAt, None, None)]
    && (forall l :: l in m'.logs <==> l in m.logs || IsNewLog(r, id, l))
    && (forall l | l in m'.logs ::
          m'.logs[l] == if IsNewLog(r, id, l) then DeliveryLog(tenant, Queued, None, None, None, now) else m.logs[l])
  }

  /** Each new log of an immediate message gets one job that may start at once, unless the process dies first. */
  ghost predicate NewJobs(s: Platform, s': Platform, r: Messaging.Request, id: MessageId, lost: set<LogKey>) {
    forall l: LogKey :: FirstJob(s, s', l, IsNewLog(r, id, l) && r.scheduledAt.None?, l in lost)
  }

  // ----- The checks, one by one -----

  lemma KeyNames(s: Platform, key: nat, bot: BotId)
    requires Bots.Sound(s.bots) && LiveKey(s.bots, bot, key)
    ensures Bots.GetBotByApiKey(s.bots, key) == Ok(bot)
  {
    assert Bots.LiveByApiKey(s.bots, key) == {bot};
  }

  lemma NoKeyNames(s: Platform, key: nat)
    requires forall bot :: !LiveKey(s.bots, bot, key)
    ensures Bots.GetBotByApiKey(s.bots, key) == Err(BotApiKeyInvalid)
  {
    assert forall bot | bot in Bots.LiveByApiKey(s.bots, key) :: LiveKey(s.bots, bot, key);
    assert Bots.LiveByApiKey(s.bots, key) == {};
  }

  /** Who the request comes from. */
  lemma AuthenticationMeans(s: Platform, p: Principal)
    requires Bots.Sound(s.bots) && Organizations.Staffed(s.orgs)
    ensures Authenticate(s, p).Ok? <==> SignedIn(s, p)
    ensures SignedIn(s, p) ==> SignedInFor(s, p, Authenticate(s, p).value.0)
    ensures SignedIn(s, p) ==>
              match p
              case Jwt(user, tenant) => Authenticate(s, p) == Ok((tenant, Messaging.Sender(Some(user), None)))
              case ApiKey(key) =>
                exists bot :: LiveKey(s.bots, bot, key)
                              && Authenticate(s, p) == Ok((s.bots.bots[bot].tenant, Messaging.Sender(None, Some(bot))))
    ensures !SignedIn(s, p) ==>
              Authenticate(s, p) == Err(if p.Jwt? then NotOrganizationMember else BotApiKeyInvalid)
  {
    match p
    case Jwt(user, tenant) => Organizations.GuardsAgree(s.orgs, user, tenant, Organizations.MessageSend);
    case ApiKey(key) =>
      if bot :| LiveKey(s.bots, bot, key) {
        KeyNames(s, key, bot);
      } else {
        NoKeyNames(s, key);
      }
      hide Bots.GetBotByApiKey, Bots.Sound, Organizations.Staffed;
  }

  lemma OneTenant(s: Platform, p: Principal, t: TenantId, u: TenantId)
    requires Bots.Sound(s.bots) && SignedInFor(s, p, t) && SignedInFor(s, p, u)
    ensures t == u
  {
  }

  lemma {:induction false} LoopMeans(s: Platform, tenant: TenantId, bot: BotId, ids: seq<DestinationId>)
    ensures var refused := Messaging.FirstRefusal(s.dests, tenant, bot, ids);
            && (refused.None? <==> AllReachable(s, tenant, bot, ids))
            && (refused.Some? ==> UnreachableFor(s, tenant, bot, ids, refused.value))
  {
    if ids != [] {
      LoopMeans(s, tenant, bot, ids[1..]);
      ReachableMeans(s, tenant, bot, ids[0]);
      FirstOfAll(s, tenant, bot, ids);
      hide LiveDestination, IsSubscribed, Destinations.HasDestination, Destinations.IsActivelySubscribed, Reachable;
      if Reachable(s, tenant, bot, ids[0]) && !AllReachable(s, tenant, bot, ids[1..]) {
        LaterOne(s, tenant, bot, ids, Messaging.FirstRefusal(s.dests, tenant, bot, ids).value);
      } else if !Reachable(s, tenant, bot, ids[0]) {
        assert ids[..0] == [] && AllReachable(s, tenant, bot, ids[..0]);
      }
    }
  }

  lemma ReachableMeans(s: Platform, tenant: TenantId, bot: BotId, id: DestinationId)
    ensures Destinations.HasDestination(s.dests, tenant, id) <==> LiveDestination(s.dests, tenant, id)
    ensures Destinations.IsActivelySubscribed(s.dests, tenant, bot, id) <==> IsSubscribed(s.dests, tenant, bot, id)
    ensures Reachable(s, tenant, bot, id) <==> LiveDestination(s.dests, tenant, id) && IsSubscribed(s.dests, tenant, bot, id)
  {
  }

  lemma FirstOfAll(s: Platform, tenant: TenantId, bot: BotId, ids: seq<DestinationId>)
    requires ids != []
    ensures AllReachable(s, tenant, bot, ids) <==>
              Reachable(s, tenant, bot, ids[0]) && AllReachable(s, tenant, bot, ids[1..])
  {
    hide Reachable;
    assert forall i | 1 <= i < |ids| :: ids[i] == ids[1..][i - 1];
    assert forall i | 0 <= i < |ids| - 1 :: ids[1..][i] == ids[i + 1];
  }

  lemma LaterOne(s: Platform, tenant: TenantId, bot: BotId, ids: seq<DestinationId>, e: AppError)
    requires ids != [] && Reachable(s, tenant, bot, ids[0]) && UnreachableFor(s, tenant, bot, ids[1..], e)
    ensures UnreachableFor(s, tenant, bot, ids, e)
  {
    hide Reachable, LiveDestination;
    var i :| && 0 <= i < |ids[1..]| && AllReachable(s, tenant, bot, ids[1..][..i])
             && !Reachable(s, tenant, bot, ids[1..][i])
             && e == if LiveDestination(s.dests, tenant, ids[1..][i]) then DestinationNotSubscribed else DestinationNotFound;
    assert ids[1..][i] == ids[i + 1] && ids[..i + 1][1..] == ids[1..][..i];
    FirstOfAll(s, tenant, bot, ids[..i + 1]);
  }

  lemma TextMeans(r: Messaging.Request)
    ensures var text := Messaging.ResolveText(r.payload, r.template);
            && (text.Ok? <==> TextResolves(r))
            && (text.Ok? ==> text.value == TextOf(r))
            && (text.Err? ==> text.error == if r.template.body.None? then MessageTemplateNotFound else TemplateVariableMissing)
  {
    if r.payload.usesTemplate && r.template.body.Some? {
      Template.RenderMeaning(r.template.body.value, Given(r.template));
    }
  }

  lemma AccessIs(s: Platform, p: Principal, tenant: TenantId, sender: Messaging.Sender, bot: BotId)
    requires Bots.Sound(s.bots) && Organizations.Staffed(s.orgs)
    requires Authenticate(s, p) == Ok((tenant, sender)) && LiveBot(s.bots, tenant, bot)
    ensures Messaging.AssertBotAccess(s.orgs, s.bots, tenant, bot, sender)
            == if MayUse(s, p, tenant, bot) then None else Some(BotNotAssigned)
  {
    AuthenticationMeans(s, p);
    Authorization.AccessMeans(s.orgs, s.bots, tenant, bot, sender);
    if sender.user.Some? {
      Authorization.AssignedMeans(s.bots, tenant, bot, sender.user.value);
    }
    hide Authenticate, Organizations.Staffed;
  }

  /** The two inserts meet no row, when the message's id is new. */
  lemma InsertMeans(s: Platform, id: MessageId, row: Message, ids: seq<DestinationId>)
    requires Linked(s) && forall i, j | 0 <= i < j < |ids| :: ids[i] != ids[j]
    ensures Messaging.InsertMessage(s.msgs, id, row, ids, s.now).Ok? <==> id !in s.msgs.messages
    ensures Messaging.InsertMessage(s.msgs, id, row, ids, s.now).Err? ==>
              Messaging.InsertMessage(s.msgs, id, row, ids, s.now).error == IntegrityError
  {
    assert forall k | k in Messaging.LogKeys(id, ids) :: k.message == id;
  }

  lemma Inserted(m: MessageTables, id: MessageId, row: Message, r: Messaging.Request, now: nat)
    requires TextResolves(r) && row == Message(row.tenant, r.bot, ContentOf(r), r.scheduledAt, None, None)
    requires Messaging.InsertMessage(m, id, row, r.payload.destinations, now).Ok?
    ensures Stored(m, Messaging.InsertMessage(m, id, row, r.payload.destinations, now).value, r, id, row.tenant, now)
  {
    hide ContentOf, TextResolves;
    assert forall l :: l in Messaging.LogKeys(id, r.payload.destinations) <==> IsNewLog(r, id, l);
  }

  /** The database part, after the authentication. */
  lemma CreateMeans(s: Platform, p: Principal, tenant: TenantId, sender: Messaging.Sender, r: Messaging.Request,
                    id: MessageId)
    requires Bots.Sound(s.bots) && Organizations.Staffed(s.orgs) && Linked(s)
    requires Authenticate(s, p) == Ok((tenant, sender)) && Payload.WellFormed(r.payload)
    ensures var made := Messaging.CreateMessage(s.orgs, s.bots, s.dests, s.msgs, tenant, sender, r, id, s.now);
            && (made.Ok? <==> Acceptable(s, p, r, id, tenant))
            && (made.Ok? ==> Stored(s.msgs, made.value, r, id, tenant, s.now))
            && (made.Err? ==> RefusedFor(s, p, r, id, tenant, made.error))
  {
    LoopMeans(s, tenant, r.bot, r.payload.destinations);
    TextMeans(r);
    assert Bots.HasBot(s.bots, tenant, r.bot) <==> LiveBot(s.bots, tenant, r.bot);
    hide Bots.HasBot, LiveBot;
    if LiveBot(s.bots, tenant, r.bot) {
      AccessIs(s, p, tenant, sender, r.bot);
    }
    if TextResolves(r) {
      var row := Message(tenant, r.bot, Payload.Stored(r.payload, TextOf(r)), r.scheduledAt, None, None);
      assert Payload.Stored(r.payload, TextOf(r)) == ContentOf(r);
      InsertMeans(s, id, row, r.payload.destinations);
      if Messaging.InsertMessage(s.msgs, id, row, r.payload.destinations, s.now).Ok? {
        Inserted(s.msgs, id, row, r, s.now);
      }
    }
    hide Authenticate, Messaging.AssertBotAccess, Messaging.FirstRefusal, Messaging.ResolveText, Messaging.InsertMessage,
         Bots.Sound, Organizations.Staffed, Linked, Stored, AllReachable, UnreachableFor, TextResolves, MayUse,
         Payload.WellFormed, Payload.Stored, ContentOf, TextOf;
  }

  // ----- In every run -----

  lemma HealthyRun(ops: seq<Op>)
    ensures Bots.Sound(Run(ops).bots) && Organizations.Staffed(Run(ops).orgs) && Linked(Run(ops))
  {
    RunIsHealthy(ops);
    RunIsLinked(ops);
    hide Run;
  }

  lemma SendMeans(s: Platform, p: Principal, r: Messaging.Request, id: MessageId, lost: set<LogKey>, tenant: TenantId)
    requires Bots.Sound(s.bots) && Organizations.Staffed(s.orgs) && Linked(s) && SignedInFor(s, p, tenant)
    ensures var sent := Send(s, p, r, id, lost);
            && (sent.Ok? <==> Acceptable(s, p, r, id, tenant))
            && (sent.Ok? ==> Stored(s.msgs, sent.value.msgs, r, id, tenant, s.now) && NewJobs(s, sent.value, r, id, lost))
            && (sent.Err? ==> RefusedFor(s, p, r, id, tenant, sent.error))
  {
    AuthenticationMeans(s, p);
    OneTenant(s, p, tenant, Authenticate(s, p).value.0);
    Payload.ValidateAcceptsExactly(r.payload);
    hide Authenticate, Payload.Validate, Payload.WellFormed, Messaging.CreateMessage, CommitAndEnqueue, Stored, NewJobs,
         Linked, Bots.Sound, Organizations.Staffed, SignedIn, SignedInFor, TextResolves, InFuture, AllReachable, MayUse;
    if Payload.WellFormed(r.payload) {
      var sender := Authenticate(s, p).value.1;
      CreateMeans(s, p, tenant, sender, r, id);
      var made := Messaging.CreateMessage(s.orgs, s.bots, s.dests, s.msgs, tenant, sender, r, id, s.now);
      if made.Ok? {
        JobsAre(s, made.value, r, id, lost);
      }
    }
  }

  lemma JobsAre(s: Platform, msgs: MessageTables, r: Messaging.Request, id: MessageId, lost: set<LogKey>)
    ensures var logs := if r.scheduledAt.Some? then {} else Messaging.LogKeys(id, r.payload.destinations);
            && NewJobs(s, CommitAndEnqueue(s, msgs, logs, lost), r, id, lost)
            && CommitAndEnqueue(s, msgs, logs, lost).msgs == msgs
  {
    var logs := if r.scheduledAt.Some? then {} else Messaging.LogKeys(id, r.payload.destinations);
    assert forall l :: l in Messaging.LogKeys(id, r.payload.destinations) <==> IsNewLog(r, id, l);
    hide FirstJob, IsNewLog, Messaging.LogKeys, CommitAndEnqueue;
    forall l: LogKey
      ensures FirstJob(s, CommitAndEnqueue(s, msgs, logs, lost), l, IsNewLog(r, id, l) && r.scheduledAt.None?, l in lost)
    {
      Enqueues(s, msgs, logs, lost, l);
    }
    CommitStores(s, msgs, logs, lost);
  }

  lemma CommitStores(s: Platform, msgs: MessageTables, logs: set<LogKey>, lost: set<LogKey>)
    ensures CommitAndEnqueue(s, msgs, logs, lost).msgs == msgs
  {
  }

  /** In every run, a message request succeeds exactly when its credentials, its shape, its bot, the sender's access,
      all its destinations, its text, its time and its id are in order; then its message and one QUEUED log per
      destination are stored, and the first jobs enqueued unless it is scheduled. Otherwise nothing changes, and the
      error is that of the first condition not met. */
  lemma CreationIsExact(ops: seq<Op>, p: Principal, r: Messaging.Request, id: MessageId, lost: set<LogKey>,
                        tenant: TenantId)
    requires SignedInFor(Run(ops), p, tenant)
    ensures var s, op := Run(ops), CreateMessage(p, r, id, lost);
            var s' := Step(s, op);
            && (Handle(s, op).Ok? <==> Acceptable(s, p, r, id, tenant))
            && (Handle(s, op).Ok? ==>
                  && Stored(s.msgs, s'.msgs, r, id, tenant, s.now) && NewJobs(s, s', r, id, lost)
                  && s' == s.(msgs := s'.msgs, queue := s'.queue, history := s'.history))
            && (Handle(s, op).Err? ==> RefusedFor(s, p, r, id, tenant, Handle(s, op).error) && s' == s)
  {
    hide Run, Send, SignedInFor, Acceptable, RefusedFor, Stored, NewJobs, Bots.Sound, Organizations.Staffed, Linked;
    HealthyRun(ops);
    SendMeans(Run(ops), p, r, id, lost, tenant);
    Frames.SendFrame(Run(ops), p, r, id, lost);
  }

  /** Without valid credentials nothing changes. */
  lemma StrangersAreRefused(ops: seq<Op>, p: Principal, r: Messaging.Request, id: MessageId, lost: set<LogKey>)
    requires !SignedIn(Run(ops), p)
    ensures var s, op := Run(ops), CreateMessage(p, r, id, lost);
            && Handle(s, op) == Err(if p.Jwt? then NotOrganizationMember else BotApiKeyInvalid)
            && Step(s, op) == s
  {
    hide Run, SignedIn, Authenticate, Bots.Sound, Organizations.Staffed, Linked;
    HealthyRun(ops);
    AuthenticationMeans(Run(ops), p);
  }
}
