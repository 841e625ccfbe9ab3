/** Chats, in every run: which texts are commands, and exactly which rows commands and dashboard requests change. */
module Chats {
  import opened Wrappers
  import opened Query
  import opened Rows
  import opened Tables
  import opened State
  import opened Platforms
  import opened Health
  import opened Columns
  import opened Requests
  import Template
  import Organizations
  import Bots
  import Destinations
  import Webhooks
  import Frames

  // ----- Commands -----

  function WordOf(c: Webhooks.Command): string {
    match c
    case StartCommand => "start"
    case StopCommand => "stop"
    case StatusCommand => "status"
    case HelpCommand => "help"
    case AboutCommand => "about"
  }

  /** The same letters, in capitals or not. */
  ghost predicate SpelledAs(name: string, word: string) {
    |name| == |word| && forall i | 0 <= i < |name| :: name[i] == word[i] || name[i] as int == word[i] as int - 32
  }

  ghost predicate IsSuffix(suffix: string) {
    suffix == "" || (suffix[0] == '@' && forall c | c in suffix :: !Template.IsSpace(c))
  }

  ghost predicate IsTail(arguments: string) {
    arguments == "" || Template.IsSpace(arguments[0])
  }

  ghost predicate ReadsAs(text: string, name: string, suffix: string, arguments: string, word: string) {
    text == "/" + name + suffix + arguments && SpelledAs(name, word) && IsSuffix(suffix) && IsTail(arguments)
  }

  /** The text is this command, perhaps with the bot's name and with arguments. */
  ghost predicate IsCommand(text: string, c: Webhooks.Command) {
    exists name, suffix, arguments :: ReadsAs(text, name, suffix, arguments, WordOf(c))
  }

  lemma LettersOf(c: Webhooks.Command)
    ensures forall x | x in WordOf(c) :: 'a' <= x <= 'z'
    ensures Webhooks.CommandNamed(WordOf(c)) == Some(c)
    ensures forall word :: Webhooks.CommandNamed(word) == Some(c) <==> word == WordOf(c)
  {
  }

  lemma LowerMeans(name: string, c: Webhooks.Command)
    ensures Webhooks.Lower(name) == WordOf(c) <==> SpelledAs(name, WordOf(c))
  {
    LettersOf(c);
    var word := WordOf(c);
    if SpelledAs(name, word) {
      forall i | 0 <= i < |name|
        ensures Webhooks.Lower(name)[i] == word[i]
      {
        assert word[i] in word;
      }
    }
    if Webhooks.Lower(name) == word {
      forall i | 0 <= i < |name|
        ensures name[i] == word[i] || name[i] as int == word[i] as int - 32
      {
        assert Webhooks.Lower(name)[i] == word[i];
      }
    }
  }

  lemma NamePlain(name: string, c: Webhooks.Command)
    requires SpelledAs(name, WordOf(c))
    ensures forall x | x in name :: !Template.IsSpace(x) && x != '@'
  {
    LettersOf(c);
    forall x | x in name
      ensures !Template.IsSpace(x) && x != '@'
    {
      var i :| 0 <= i < |name| && name[i] == x;
      assert WordOf(c)[i] in WordOf(c);
    }
  }

  /** The first token, and what follows it. */
  lemma {:induction false} UntilSplits(s: string, stop: char -> bool)
    ensures var word := Webhooks.Until(s, stop);
            && |word| <= |s| && s == word + s[|word|..]
            && (forall x | x in word :: !stop(x))
            && (|word| < |s| ==> stop(s[|word|]))
  {
    if s != "" && !stop(s[0]) {
      UntilSplits(s[1..], stop);
      var word := Webhooks.Until(s[1..], stop);
      assert s == [s[0]] + s[1..] && s[1..][|word|..] == s[|word| + 1..];
    }
  }

  /** A text is recognized as a command exactly when it reads as that command. */
  lemma CommandMeans(text: string, c: Webhooks.Command)
    ensures Webhooks.ExtractCommand(text) == Some(c) <==> IsCommand(text, c)
  {
    if IsCommand(text, c) {
      CommandIsFound(text, c);
    }
    if Webhooks.ExtractCommand(text) == Some(c) {
      FoundIsCommand(text, c);
    }
  }

  lemma CommandIsFound(text: string, c: Webhooks.Command)
    requires IsCommand(text, c)
    ensures Webhooks.ExtractCommand(text) == Some(c)
  {
    var name, suffix, arguments :| ReadsAs(text, name, suffix, arguments, WordOf(c));
    NamePlain(name, c);
    Webhooks.CommandIgnoresSuffix(name, suffix, arguments);
    LowerMeans(name, c);
    LettersOf(c);
    hide Webhooks.ExtractCommand, Webhooks.Lower, WordOf, Template.IsSpace;
  }

  lemma FirstToken(text: string)
    requires "/" <= text
    ensures var token := Webhooks.Until(text, Template.IsSpace); token != "" && token[0] == '/'
  {
  }

  lemma Pieces(text: string, token: string, name: string)
    requires |token| <= |text| && token == text[..|token|] && token != "" && token[0] == '/'
    requires |name| <= |token[1..]| && name == token[1..][..|name|]
    ensures text == "/" + name + token[1..][|name|..] + text[|token|..]
  {
    assert token == "/" + token[1..] == "/" + (name + token[1..][|name|..]);
    assert text == token + text[|token|..];
  }

  lemma SuffixOf(token: string, suffix: string)
    requires (forall x | x in token :: !Template.IsSpace(x)) && (forall x | x in suffix :: x in token)
    requires suffix == "" || suffix[0] == '@'
    ensures IsSuffix(suffix)
  {
    hide Template.IsSpace;
  }

  lemma FoundIsCommand(text: string, c: Webhooks.Command)
    requires Webhooks.ExtractCommand(text) == Some(c)
    ensures IsCommand(text, c)
  {
    hide Webhooks.Lower, WordOf, Webhooks.CommandNamed, Template.IsSpace, SpelledAs, Webhooks.Until, IsSuffix;
    var token := Webhooks.Until(text, Template.IsSpace);
    FirstToken(text);
    UntilSplits(text, Template.IsSpace);
    var rest := token[1..];
    var name := Webhooks.Until(rest, x => x == '@');
    assert Webhooks.CommandNamed(Webhooks.Lower(name)) == Some(c);
    UntilSplits(rest, x => x == '@');
    LettersOf(c);
    LowerMeans(name, c);
    var suffix, arguments := rest[|name|..], text[|token|..];
    Pieces(text, token, name);
    SuffixOf(token, suffix);
    assert ReadsAs(text, name, suffix, arguments, WordOf(c));
  }

  /** The command a chat sent, with the chat and the topic it was sent in: only channels are not heard, and private chats
      have no topics. */
  ghost predicate Heard(update: Option<Webhooks.Incoming>, c: Webhooks.Command, chat: int, thread: Option<int>) {
    && update.Some? && update.value.text.Some? && IsCommand(update.value.text.value, c)
    && update.value.kind != Webhooks.Channel && update.value.chat == chat
    && thread == if update.value.kind == Webhooks.Private then None else update.value.thread
  }

  lemma ParsedMeans(update: Option<Webhooks.Incoming>, c: Webhooks.Command, chat: int, thread: Option<int>)
    ensures Webhooks.Parsed(update) == Some((c, chat, thread)) <==> Heard(update, c, chat, thread)
  {
    if update.Some? && update.value.text.Some? {
      CommandMeans(update.value.text.value, c);
    }
    hide IsCommand, Webhooks.ExtractCommand;
  }

  // ----- What a command and a dashboard request do to the rows -----

  ghost predicate LiveAt(d: DestinationTables, id: DestinationId, key: Destinations.ChatKey) {
    && id in d.destinations && d.destinations[id] == Destination(key.tenant, key.chat, key.thread, None)
  }

  ghost function WithChat(d: DestinationTables, key: Destinations.ChatKey, id: DestinationId): DestinationTables {
    d.(destinations := d.destinations[id := Destination(key.tenant, key.chat, key.thread, None)])
  }

  ghost function WithStatus(d: DestinationTables, tenant: TenantId, bot: BotId, id: DestinationId,
                            status: SubscriptionStatus): DestinationTables
  {
    d.(subscriptions := d.subscriptions[SubscriptionKey(bot, id) := Subscription(tenant, status, None)])
  }

  /** `/start` with the policy open: a known chat is subscribed unless it is subscribed or blocked already, an unknown
      one gets a row first. */
  ghost predicate StartDone(d: DestinationTables, r: Result<DestinationTables, AppError>, bot: BotId,
                            key: Destinations.ChatKey, id: DestinationId)
  {
    if exists k :: LiveAt(d, k, key) then
      exists k :: LiveAt(d, k, key) &&
        r == Ok(if SubscriptionKey(bot, k) !in d.subscriptions
                   || d.subscriptions[SubscriptionKey(bot, k)].status == Unsubscribed
                then WithStatus(d, key.tenant, bot, k, Active) else d)
    else if id in d.destinations then r == Err(IntegrityError)
    else r == Ok(WithStatus(WithChat(d, key, id), key.tenant, bot, id, Active))
  }

  /** `/stop`: the subscription of a known chat, if it has one, is UNSUBSCRIBED, whatever it was. */
  ghost predicate StopDone(d: DestinationTables, r: Result<DestinationTables, AppError>, bot: BotId,
                           key: Destinations.ChatKey)
  {
    if exists k :: LiveAt(d, k, key) && SubscriptionKey(bot, k) in d.subscriptions then
      exists k :: LiveAt(d, k, key) && r == Ok(WithStatus(d, key.tenant, bot, k, Unsubscribed))
    else r == Ok(d)
  }

  /** What a dashboard request about destinations does when the user may make it. */
  ghost predicate DestinationRequestDone(b: BotTables, d: DestinationTables, r: Result<DestinationTables, AppError>,
                                         tenant: TenantId, op: DestinationOp, now: nat)
  {
    match op
    case CreateDestination(bot, chat, thread, id) =>
      var key := Destinations.ChatKey(tenant, chat, thread);
      if !LiveBot(b, tenant, bot) then r == Err(BotNotFound)
      else if exists k :: LiveAt(d, k, key) then r == Err(DestinationAlreadyExists)
      else if id in d.destinations then r == Err(IntegrityError)
      else r == Ok(WithStatus(WithChat(d, key, id), tenant, bot, id, Active))
    case DeleteDestination(id) =>
      if !LiveDestination(d, tenant, id) then r == Err(DestinationNotFound)
      else r.Ok? && DestinationGone(d, r.value, id, now)
    case UpdateSubscription(id, bot, status) =>
      if !LiveDestination(d, tenant, id) then r == Err(DestinationNotFound)
      else if !LiveBot(b, tenant, bot) then r == Err(BotNotFound)
      else if SubscriptionKey(bot, id) !in d.subscriptions then r == Err(SubscriptionNotFound)
      else r == Ok(WithStatus(d, tenant, bot, id, status))
  }

  /** The destination and all its live subscriptions are marked, no other row is touched. */
  ghost predicate DestinationGone(d: DestinationTables, d': DestinationTables, id: DestinationId, now: nat)
    requires id in d.destinations
  {
    && d'.destinations == d.destinations[id := d.destinations[id].(deletedAt := Some(now))]
    && d'.subscriptions.Keys == d.subscriptions.Keys
    && forall k | k in d.subscriptions ::
         d'.subscriptions[k] == if k.destination == id && d.subscriptions[k].deletedAt.None?
                                then d.subscriptions[k].(deletedAt := Some(now)) else d.subscriptions[k]
  }

  lemma LiveAtOne(d: DestinationTables, key: Destinations.ChatKey)
    requires Destinations.Sound(d)
    ensures forall k: DestinationId :: LiveAt(d, k, key) <==> k in Destinations.LiveAtChat(d, key)
    ensures forall k: DestinationId | LiveAt(d, k, key) :: Destinations.LiveAtChat(d, key) == {k}
    ensures (exists k :: LiveAt(d, k, key)) <==> Destinations.LiveAtChat(d, key) != {}
  {
    forall k: DestinationId | LiveAt(d, k, key)
      ensures Destinations.LiveAtChat(d, key) == {k}
    {
      Destinations.ChatNamesOne(d, k);
    }
    assert forall k: DestinationId :: LiveAt(d, k, key) <==> k in Destinations.LiveAtChat(d, key);
    if k :| k in Destinations.LiveAtChat(d, key) {
      assert LiveAt(d, k, key);
    }
  }

  lemma SubscriptionOf(d: DestinationTables, tenant: TenantId, bot: BotId, id: DestinationId)
    requires Destinations.Sound(d) && LiveDestination(d, tenant, id)
    ensures var key := SubscriptionKey(bot, id);
            && (key in d.subscriptions ==> d.subscriptions[key].tenant == tenant && d.subscriptions[key].deletedAt.None?)
            && Destinations.LiveSubscription(d, tenant, bot, id)
               == if key in d.subscriptions then Some(d.subscriptions[key].status) else None
  {
  }

  lemma StatusIs(d: DestinationTables, tenant: TenantId, bot: BotId, id: DestinationId, status: SubscriptionStatus)
    requires Destinations.Sound(d) && LiveDestination(d, tenant, id) && SubscriptionKey(bot, id) in d.subscriptions
    ensures Destinations.SetStatus(d, bot, id, status) == WithStatus(d, tenant, bot, id, status)
  {
    SubscriptionOf(d, tenant, bot, id);
  }

  lemma StartMeans(d: DestinationTables, bot: BotId, key: Destinations.ChatKey, id: DestinationId)
    requires Destinations.Sound(d)
    ensures StartDone(d, Destinations.SubscribeViaStart(d, bot, key, id), bot, key, id)
  {
    LiveAtOne(d, key);
    if k :| LiveAt(d, k, key) {
      SubscriptionOf(d, key.tenant, bot, k);
      if SubscriptionKey(bot, k) in d.subscriptions {
        StatusIs(d, key.tenant, bot, k, Active);
      }
      hide Destinations.Sound, Destinations.LiveAtChat, Destinations.LiveSubscription, Destinations.SetStatus;
    } else if id !in d.destinations {
      Destinations.FirstSubscriptionSound(d, bot, key, id);
    }
  }

  lemma StopMeans(d: DestinationTables, bot: BotId, key: Destinations.ChatKey)
    requires Destinations.Sound(d)
    ensures StopDone(d, Destinations.UnsubscribeViaStop(d, bot, key), bot, key)
  {
    LiveAtOne(d, key);
    if k :| LiveAt(d, k, key) {
      SubscriptionOf(d, key.tenant, bot, k);
      if SubscriptionKey(bot, k) in d.subscriptions {
        StatusIs(d, key.tenant, bot, k, Unsubscribed);
      }
      hide Destinations.Sound, Destinations.LiveAtChat, Destinations.LiveSubscription, Destinations.SetStatus;
    }
  }

  lemma CreateDone(b: BotTables, d: DestinationTables, tenant: TenantId, bot: BotId, chat: int, thread: Option<int>,
                   id: DestinationId, now: nat)
    requires Destinations.Sound(d)
    ensures var op := CreateDestination(bot, chat, thread, id);
            DestinationRequestDone(b, d, DestinationStep(b, d, tenant, op, now), tenant, op, now)
  {
    var key := Destinations.ChatKey(tenant, chat, thread);
    LiveAtOne(d, key);
    if Destinations.LiveAtChat(d, key) == {} && id !in d.destinations {
      Destinations.FirstSubscriptionSound(d, bot, key, id);
    }
    hide Destinations.Sound, Destinations.LiveAtChat, LiveAt;
  }

  lemma DestinationStepDone(b: BotTables, d: DestinationTables, tenant: TenantId, op: DestinationOp, now: nat)
    requires Destinations.Sound(d)
    ensures DestinationRequestDone(b, d, DestinationStep(b, d, tenant, op, now), tenant, op, now)
  {
    match op
    case CreateDestination(bot, chat, thread, id) => CreateDone(b, d, tenant, bot, chat, thread, id, now);
    case DeleteDestination(id) =>
      if LiveDestination(d, tenant, id) {
        assert DestinationGone(d, Destinations.DeleteDestination(d, tenant, id, now).value, id, now);
        hide Destinations.DeleteDestination, DestinationGone;
      }
    case UpdateSubscription(id, bot, status) =>
      if LiveDestination(d, tenant, id) {
        SubscriptionOf(d, tenant, bot, id);
        if SubscriptionKey(bot, id) in d.subscriptions {
          StatusIs(d, tenant, bot, id, status);
        }
      }
      hide Destinations.Sound, Destinations.SetStatus, Destinations.LiveSubscription;
  }

  // ----- In every run -----

  /** Dashboard requests about destinations are for owners and administrators of the live organization, and do to the
      rows exactly what their table says, and to nothing else. */
  lemma DestinationRequestIsExact(ops: seq<Op>, user: UserId, tenant: TenantId, request: DestinationOp)
    ensures var s, op := Run(ops), OnDestinations(user, tenant, request);
            && (!Managing(s, tenant, user) ==>
                  Handle(s, op) == Err(if Seat(tenant, user) in s.orgs.members then InsufficientPermission
                                       else NotOrganizationMember))
            && (Managing(s, tenant, user) ==>
                  exists r :: DestinationRequestDone(s.bots, s.dests, r, tenant, request, s.now)
                              && Handle(s, op) == if r.Ok? then Ok(s.(dests := r.value)) else Err(r.error))
  {
    hide Run;
    RunIsHealthy(ops);
    var s := Run(ops);
    GuardsMean(s.orgs, user, tenant, Organizations.DestinationManage);
    assert RolesFor(Organizations.DestinationManage) == {Owner, Admin};
    hide HoldsRole, DestinationRequestDone, DestinationStep, Organizations.CheckPermission, Organizations.Staffed,
         Destinations.Sound;
    assert Destinations.Sound(s.dests);
    DestinationStepDone(s.bots, s.dests, tenant, request, s.now);
  }

  /** What an update to a live bot does: `/start` with the policy open, and `/stop`. Everything else, the other three
      commands included, changes nothing. */
  ghost predicate UpdateDone(b: BotTables, d: DestinationTables, r: Result<DestinationTables, AppError>, bot: BotId,
                             update: Option<Webhooks.Incoming>, id: DestinationId)
    requires bot in b.bots
  {
    && (forall chat, thread | Heard(update, Webhooks.StartCommand, chat, thread) :: b.bots[bot].webhookEnabled ==>
          StartDone(d, r, bot, Destinations.ChatKey(b.bots[bot].tenant, chat, thread), id))
    && (forall chat, thread | Heard(update, Webhooks.StopCommand, chat, thread) ::
          StopDone(d, r, bot, Destinations.ChatKey(b.bots[bot].tenant, chat, thread)))
    && ((forall chat, thread ::
           && !(Heard(update, Webhooks.StartCommand, chat, thread) && b.bots[bot].webhookEnabled)
           && !Heard(update, Webhooks.StopCommand, chat, thread)) ==> r == Ok(d))
  }

  lemma UpdateMeans(b: BotTables, d: DestinationTables, bot: BotId, update: Option<Webhooks.Incoming>, id: DestinationId)
    requires Destinations.Sound(d) && IsBotLive(b, bot)
    ensures UpdateDone(b, d, Webhooks.HandleUpdate(b, d, bot, true, update, id), bot, update, id)
  {
    forall c, chat, thread
      ensures Webhooks.Parsed(update) == Some((c, chat, thread)) <==> Heard(update, c, chat, thread)
    {
      ParsedMeans(update, c, chat, thread);
    }
    hide Webhooks.Parsed, Heard, StartDone, StopDone, Destinations.Sound, Destinations.SubscribeViaStart,
         Destinations.UnsubscribeViaStop;
    match Webhooks.Parsed(update)
    case Some((StartCommand, chat, thread)) =>
      StartMeans(d, bot, Destinations.ChatKey(b.bots[bot].tenant, chat, thread), id);
    case Some((StopCommand, chat, thread)) =>
      StopMeans(d, bot, Destinations.ChatKey(b.bots[bot].tenant, chat, thread));
    case _ =>
  }

  /** In every run, an update for a live bot that shows the right secret does to the rows exactly what its command
      says, and to nothing else; any other update is refused. */
  lemma UpdateIsExact(ops: seq<Op>, bot: BotId, secretMatches: bool, update: Option<Webhooks.Incoming>, id: DestinationId)
    ensures var s, op := Run(ops), Webhook(bot, secretMatches, update, id);
            if !IsBotLive(s.bots, bot) then Handle(s, op) == Err(BotNotFound)
            else if !secretMatches then Handle(s, op) == Err(WebhookSecretInvalid)
            else exists r :: UpdateDone(s.bots, s.dests, r, bot, update, id)
                             && Handle(s, op) == if r.Ok? then Ok(s.(dests := r.value)) else Err(r.error)
  {
    hide Run;
    RunIsHealthy(ops);
    var s := Run(ops);
    hide UpdateDone, Destinations.Sound, Webhooks.Parsed, Destinations.SubscribeViaStart, Destinations.UnsubscribeViaStop;
    assert Destinations.Sound(s.dests);
    if IsBotLive(s.bots, bot) && secretMatches {
      UpdateMeans(s.bots, s.dests, bot, update, id);
    }
  }
}
