/** Who may send: what a message request that succeeds says about its sender. */
module Authorization {
  import opened Wrappers
  import opened Query
  import opened Rows
  import opened Tables
  import opened State
  import opened Platforms
  import opened Health
  import Payload
  import Organizations
  import Bots
  import Messaging

  /** An owner or administrator of the bot's organization. */
  ghost predicate Manages(o: OrgTables, tenant: TenantId, user: UserId) {
    Seat(tenant, user) in o.members && o.members[Seat(tenant, user)] in {Owner, Admin}
  }

  /** The bot has been assigned to the user, and the assignment still stands. */
  ghost predicate StandsAssigned(b: BotTables, tenant: TenantId, bot: BotId, user: UserId) {
    exists k | k in b.assignments ::
      && b.assignments[k].tenant == tenant && b.assignments[k].bot == bot && b.assignments[k].user == user
      && IsLive(b.assignments[k].deletedAt)
  }

  lemma AssignedMeans(b: BotTables, tenant: TenantId, bot: BotId, user: UserId)
    requires Bots.Sound(b)
    ensures Bots.IsAssigned(b, tenant, bot, user) == Ok(StandsAssigned(b, tenant, bot, user))
  {
    Bots.UnassignKeepsSound(b, tenant, bot, user, 0);
    if k :| k in Bots.LiveRowsFor(b, tenant, bot, user) {
      assert StandsAssigned(b, tenant, bot, user);
    }
    if StandsAssigned(b, tenant, bot, user) {
      var k :| k in b.assignments && b.assignments[k].tenant == tenant && b.assignments[k].bot == bot
               && b.assignments[k].user == user && IsLive(b.assignments[k].deletedAt);
      assert k in Bots.LiveRowsFor(b, tenant, bot, user);
    }
  }

  /** Access is granted to a key for its own bot, and to a user who manages the organization or has the bot assigned. */
  lemma AccessMeans(o: OrgTables, b: BotTables, tenant: TenantId, bot: BotId, sender: Messaging.Sender)
    requires Bots.Sound(b)
    ensures Messaging.AssertBotAccess(o, b, tenant, bot, sender).None? <==>
            && (sender.restrictTo.Some? ==> sender.restrictTo.value == bot)
            && (sender.user.Some? ==>
                  Manages(o, tenant, sender.user.value) || StandsAssigned(b, tenant, bot, sender.user.value))
  {
    if sender.user.Some? {
      AssignedMeans(b, tenant, bot, sender.user.value);
    }
  }

  ghost predicate Authorized(s: Platform, p: Principal, bot: BotId) {
    match p
    case Jwt(user, tenant) =>
      && Organizations.IsActive(s.orgs, tenant) && Seat(tenant, user) in s.orgs.members
      && Bots.HasBot(s.bots, tenant, bot)
      && (Manages(s.orgs, tenant, user) || StandsAssigned(s.bots, tenant, bot, user))
    case ApiKey(key) => Bots.IsLiveBot(s.bots, bot) && s.bots.bots[bot].apiKey == key
  }

  /** In every run, a message request that succeeds names a live bot of its tenant and comes from an owner or
      administrator of that tenant, from a member the bot is assigned to, or from the holder of that bot's own key. */
  lemma SendIsAuthorized(ops: seq<Op>, p: Principal, r: Messaging.Request, id: MessageId, lost: set<LogKey>)
    requires Handle(Run(ops), CreateMessage(p, r, id, lost)).Ok?
    ensures Authorized(Run(ops), p, r.bot)
  {
    RunIsHealthy(ops);
    hide Run;
    assert Bots.Sound(Run(ops).bots);
    SendAuthorized(Run(ops), p, r, id, lost);
  }

  lemma SendAuthorized(s: Platform, p: Principal, r: Messaging.Request, id: MessageId, lost: set<LogKey>)
    requires Bots.Sound(s.bots) && Send(s, p, r, id, lost).Ok?
    ensures Authorized(s, p, r.bot)
  {
    var (tenant, sender) := Authenticate(s, p).value;
    assert Messaging.CreateMessage(s.orgs, s.bots, s.dests, s.msgs, tenant, sender, r, id, s.now).Ok?;
    CreateAuthorized(s, tenant, sender, r, id);
    hide Send, Messaging.CreateMessage, CommitAndEnqueue, Payload.Validate;
    AuthenticatedAs(s, p);
  }

  lemma CreateAuthorized(s: Platform, tenant: TenantId, sender: Messaging.Sender, r: Messaging.Request, id: MessageId)
    requires Bots.Sound(s.bots)
    requires Messaging.CreateMessage(s.orgs, s.bots, s.dests, s.msgs, tenant, sender, r, id, s.now).Ok?
    ensures Bots.HasBot(s.bots, tenant, r.bot)
    ensures sender.restrictTo.Some? ==> sender.restrictTo.value == r.bot
    ensures sender.user.Some? ==>
              Manages(s.orgs, tenant, sender.user.value) || StandsAssigned(s.bots, tenant, r.bot, sender.user.value)
  {
    hide Messaging.AssertBotAccess, Messaging.FirstRefusal, Messaging.ResolveText, Messaging.InsertMessage, Bots.Sound;
    AccessMeans(s.orgs, s.bots, tenant, r.bot, sender);
  }

  lemma AuthenticatedAs(s: Platform, p: Principal)
    requires Bots.Sound(s.bots) && Authenticate(s, p).Ok?
    ensures var (tenant, sender) := Authenticate(s, p).value;
            match p
            case Jwt(user, t) =>
              && t == tenant && sender == Messaging.Sender(Some(user), None)
              && Organizations.IsActive(s.orgs, tenant) && Seat(tenant, user) in s.orgs.members
            case ApiKey(key) =>
              && sender.user.None? && sender.restrictTo.Some? && Bots.IsLiveBot(s.bots, sender.restrictTo.value)
              && s.bots.bots[sender.restrictTo.value].apiKey == key
              && s.bots.bots[sender.restrictTo.value].tenant == tenant
  {
    if p.ApiKey? {
      Bots.ApiKeyNamesOneBot(s.bots, p.key);
      var bot := Bots.GetBotByApiKey(s.bots, p.key).value;
      assert bot in Bots.LiveByApiKey(s.bots, p.key);
    }
  }
}
