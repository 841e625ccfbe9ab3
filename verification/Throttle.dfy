/** The Telegram throttle along a run: how many calls it lets through, and that it lets deliveries finish. */
module Throttling {
  import opened Wrappers
  import opened Rows
  import opened Tables
  import opened State
  import opened Platforms
  import opened Ledger
  import opened Laws
  import opened Health
  import FixedWindow
  import Payload
  import Messaging
  import Delivery
  import Frames

  const BOT_POLICY := FixedWindow.Policy(Delivery.BOT_LIMIT, Delivery.WIDTH, Delivery.TTL)
  const CHAT_POLICY := FixedWindow.Policy(Delivery.CHAT_LIMIT, Delivery.WIDTH, Delivery.TTL)

  type Calls = seq<FixedWindow.Call<ThrottleKey>>

  /** The counters are what the recorded calls left, and the calls are in the order of the clock. */
  ghost predicate Metered(s: Platform) {
    && s.redis == FixedWindow.After(s.calls, BOT_POLICY)
    && FixedWindow.Chronological(s.calls)
    && (s.calls != [] ==> s.calls[|s.calls| - 1].at <= s.now)
  }

  /** Calls to Telegram were admitted by the counter of their bot and by the counter of their chat. */
  ghost predicate Admitted(s: Platform, bot: BotId, chat: int, second: nat) {
    && s.trace[BotCalled(bot, second)] <= FixedWindow.AdmittedIn(s.calls, BotKey(bot), second, second, BOT_POLICY)
    && s.trace[ChatCalled(bot, chat, second)]
       <= FixedWindow.AdmittedIn(s.calls, ChatKey(bot, chat), second, second, CHAT_POLICY)
  }

  lemma {:induction false} LimitDoesNotCount(calls: Calls)
    ensures FixedWindow.After(calls, CHAT_POLICY) == FixedWindow.After(calls, BOT_POLICY)
  {
    if calls != [] {
      LimitDoesNotCount(calls[..|calls| - 1]);
    }
  }

  lemma ConsumeMeters(s: Platform, key: ThrottleKey)
    requires Metered(s)
    ensures var s' := Delivery.Consume(s, key);
            && Metered(s')
            && (Delivery.CountNow(s', key) <= 30 <==> FixedWindow.LastAdmitted(s'.calls, BOT_POLICY))
            && (Delivery.CountNow(s', key) <= 1 <==> FixedWindow.LastAdmitted(s'.calls, CHAT_POLICY))
  {
    var s' := Delivery.Consume(s, key);
    assert s'.calls[..|s'.calls| - 1] == s.calls;
    LimitDoesNotCount(s'.calls);
  }

  lemma OneMoreCall(calls: Calls, c: FixedWindow.Call<ThrottleKey>, key: ThrottleKey, second: nat, p: FixedWindow.Policy)
    requires p.width == 1
    ensures FixedWindow.AdmittedIn(calls + [c], key, second, second, p)
            == FixedWindow.AdmittedIn(calls, key, second, second, p)
               + (if c.key == key && FixedWindow.Seconds(c.at) == second && FixedWindow.LastAdmitted(calls + [c], p)
                  then 1 else 0)
  {
    assert (calls + [c])[..|calls + [c]| - 1] == calls;
  }

  lemma CheckMeters(s: Platform, bot: BotId, chat: int, b: BotId, c: int, second: nat)
    requires Metered(s)
    ensures var r := Delivery.CheckThrottle(s, bot, chat);
            var bots := FixedWindow.AdmittedIn(s.calls, BotKey(b), second, second, BOT_POLICY);
            var chats := FixedWindow.AdmittedIn(s.calls, ChatKey(b, c), second, second, CHAT_POLICY);
            var here := b == bot && FixedWindow.Seconds(s.now) == second;
            && Metered(r.0)
            && bots + (if here && r.1 then 1 else 0)
               <= FixedWindow.AdmittedIn(r.0.calls, BotKey(b), second, second, BOT_POLICY)
            && chats + (if here && c == chat && r.1 then 1 else 0)
               <= FixedWindow.AdmittedIn(r.0.calls, ChatKey(b, c), second, second, CHAT_POLICY)
  {
    var s1 := Delivery.Consume(s, BotKey(bot));
    var s2 := Delivery.Consume(s1, ChatKey(bot, chat));
    ConsumeMeters(s, BotKey(bot));
    ConsumeMeters(s1, ChatKey(bot, chat));
    hide Delivery.CountNow, FixedWindow.AdmittedIn, FixedWindow.LastAdmitted, Metered;
    OneMoreCall(s.calls, FixedWindow.Call(BotKey(bot), s.now), BotKey(b), second, BOT_POLICY);
    OneMoreCall(s.calls, FixedWindow.Call(BotKey(bot), s.now), ChatKey(b, c), second, CHAT_POLICY);
    OneMoreCall(s1.calls, FixedWindow.Call(ChatKey(bot, chat), s.now), BotKey(b), second, BOT_POLICY);
    OneMoreCall(s1.calls, FixedWindow.Call(ChatKey(bot, chat), s.now), ChatKey(b, c), second, CHAT_POLICY);
  }

  lemma CallMeters(s: Platform, l: LogKey, bot: BotId, chat: int, content: Payload.Content, answer: Delivery.Answer,
                   fate: Delivery.Fate, b: BotId, c: int, second: nat)
    requires l in s.msgs.logs
    ensures var s' := Delivery.CallTelegram(s, l, bot, chat, content, answer, fate).0;
            var here := b == bot && FixedWindow.Seconds(s.now) == second;
            && s'.redis == s.redis && s'.calls == s.calls && s'.now == s.now
            && s'.trace[BotCalled(b, second)] <= s.trace[BotCalled(b, second)] + (if here then 1 else 0)
            && s'.trace[ChatCalled(b, c, second)]
               <= s.trace[ChatCalled(b, c, second)] + (if here && c == chat then 1 else 0)
  {
    hide Payload.SendViaTelegram, Note, Delivery.CallMarks, Delivery.RecordSent;
    if answer.Accept? {
      RecordingMeters(Delivery.Call(s, l, bot, chat, answer, fate), l, answer.messageId, fate);
    }
  }

  lemma RecordingMeters(s: Platform, l: LogKey, messageId: Option<int>, fate: Delivery.Fate)
    requires l in s.msgs.logs
    ensures var s' := Delivery.RecordSent(s, l, messageId, fate).0;
            s'.redis == s.redis && s'.calls == s.calls && s'.now == s.now && s'.trace == s.trace
  {
  }

  lemma SendMeters(s: Platform, l: LogKey, message: Message, chat: int, answer: Delivery.Answer, fate: Delivery.Fate,
                   b: BotId, c: int, second: nat)
    requires l in s.msgs.logs && Metered(s) && Admitted(s, b, c, second)
    ensures var s' := Delivery.ThrottledSend(s, l, message, chat, answer, fate).0;
            Metered(s') && Admitted(s', b, c, second)
  {
    CheckMeters(s, message.bot, chat, b, c, second);
    var (s1, ok) := Delivery.CheckThrottle(s, message.bot, chat);
    var s' := Delivery.ThrottledSend(s, l, message, chat, answer, fate).0;
    hide Delivery.CheckThrottle, FixedWindow.AdmittedIn, Metered, Delivery.CallTelegram, Note;
    if ok {
      CallMeters(s1, l, message.bot, chat, message.content, answer, fate, b, c, second);
    }
    MetersCarry(s1, s');
  }

  lemma MetersCarry(s: Platform, s': Platform)
    requires Metered(s) && s'.redis == s.redis && s'.calls == s.calls && s'.now == s.now
    ensures Metered(s')
  {
    hide FixedWindow.Chronological, FixedWindow.After;
  }

  /** The part of the state the throttle laws speak of. */
  ghost predicate SameMeters(s: Platform, s': Platform, b: BotId, c: int, second: nat) {
    && s'.redis == s.redis && s'.calls == s.calls && s'.now >= s.now
    && s'.trace[BotCalled(b, second)] == s.trace[BotCalled(b, second)]
    && s'.trace[ChatCalled(b, c, second)] == s.trace[ChatCalled(b, c, second)]
  }

  lemma SettleKeepsMeters(s: Platform, l: LogKey, t: Ticket, outcome: Delivery.Outcome, b: BotId, c: int, second: nat)
    ensures SameMeters(s, Delivery.Settle(s, l, t, outcome), b, c, second)
  {
    hide Take, Enqueue, Delivery.Retried, Delivery.Postponed, Note;
  }

  lemma SameMetersMeter(s: Platform, s': Platform, b: BotId, c: int, second: nat)
    requires SameMeters(s, s', b, c, second) && Metered(s) && Admitted(s, b, c, second)
    ensures Metered(s') && Admitted(s', b, c, second)
  {
    hide FixedWindow.AdmittedIn, FixedWindow.Chronological, FixedWindow.After;
  }

  lemma ProcessMeters(s: Platform, l: LogKey, answer: Delivery.Answer, fate: Delivery.Fate, b: BotId, c: int, second: nat)
    requires Metered(s) && Admitted(s, b, c, second)
    ensures var s' := Delivery.ProcessDelivery(s, l, answer, fate).0; Metered(s') && Admitted(s', b, c, second)
  {
    if Delivery.Obstacle(s, l).None? {
      SendMeters(s, l, s.msgs.messages[l.message], s.dests.destinations[l.destination].chat, answer, fate, b, c, second);
    }
    hide Delivery.ThrottledSend, Delivery.Obstacle, FixedWindow.AdmittedIn, FixedWindow.Chronological, FixedWindow.After;
  }

  lemma TaskKeepsMeters(s: Platform, l: LogKey, t: Ticket, answer: Delivery.Answer, fate: Delivery.Fate,
                        b: BotId, c: int, second: nat)
    requires Metered(s) && Admitted(s, b, c, second)
    ensures var s' := Delivery.RunTask(s, l, t, answer, fate); Metered(s') && Admitted(s', b, c, second)
  {
    hide Delivery.ProcessDelivery, Delivery.Settle, Metered, Admitted, SameMeters;
    var r := Delivery.ProcessDelivery(s, l, answer, fate);
    ProcessMeters(s, l, answer, fate, b, c, second);
    SettleKeepsMeters(r.0, l, t, r.1, b, c, second);
    SameMetersMeter(r.0, Delivery.Settle(r.0, l, t, r.1), b, c, second);
  }

  lemma MetersElsewhere(s: Platform, op: Op, b: BotId, c: int, second: nat)
    requires !op.RunTask?
    ensures SameMeters(s, Step(s, op), b, c, second)
  {
    hide Step, EnqueueAll, NoteAll, Enqueue, Note, Tickets;
    match op
    case Tick(ms) => Frames.TickFrame(s, ms);
    case OnOrgs(org) => Frames.OrgsFrame(s, org);
    case DeleteOrganization(tenant, actor) => Frames.DeleteFrame(s, tenant, actor);
    case OnBots(user, tenant, bot) => Frames.BotsFrame(s, user, tenant, bot);
    case OnDestinations(user, tenant, destination) => Frames.DestinationsFrame(s, user, tenant, destination);
    case Webhook(bot, secretMatches, update, id) => Frames.WebhookFrame(s, bot, secretMatches, update, id);
    case OnAuth(auth) => Frames.AuthFrame(s, auth);
    case CreateMessage(p, r, id, lost) => Frames.SendFrame(s, p, r, id, lost);
    case Dispatch(lost) => Frames.DispatchFrame(s, lost);
    case Redeliver(l, ticket) => Frames.RedeliverFrame(s, l, ticket);
    case PurgeLogs(tenant, before, victims) => Frames.PurgeFrame(s, tenant, before, victims);
  }

  lemma StepMeters(s: Platform, op: Op, b: BotId, c: int, second: nat)
    requires Metered(s) && Admitted(s, b, c, second)
    ensures Metered(Step(s, op)) && Admitted(Step(s, op), b, c, second)
  {
    hide Step, Metered, Admitted, SameMeters, Delivery.RunTask, Delivery.CanRun;
    match op
    case RunTask(l, t, answer, fate) =>
      Frames.TaskFrame(s, l, t, answer, fate);
      TaskKeepsMeters(s, l, t, answer, fate, b, c, second);
    case _ =>
      MetersElsewhere(s, op, b, c, second);
      SameMetersMeter(s, Step(s, op), b, c, second);
  }

  lemma {:induction false} RunMeters(ops: seq<Op>, b: BotId, c: int, second: nat)
    ensures Metered(Run(ops)) && Admitted(Run(ops), b, c, second)
  {
    if ops == [] {
      assert EMPTY.calls == [];
    } else {
      hide Metered, Admitted, Step;
      RunMeters(ops[..|ops| - 1], b, c, second);
      StepMeters(Run(ops[..|ops| - 1]), ops[|ops| - 1], b, c, second);
    }
  }

  /** In any run, Telegram is called at most 30 times a second for one bot and once a second for one of its chats. */
  lemma CallsPerSecond(ops: seq<Op>, bot: BotId, chat: int, second: nat)
    ensures Run(ops).trace[BotCalled(bot, second)] <= 30
    ensures Run(ops).trace[ChatCalled(bot, chat, second)] <= 1
  {
    RunMeters(ops, bot, chat, second);
    hide Run;
    var calls := Run(ops).calls;
    FixedWindow.AdmittedPerWindow(calls, FixedWindow.Slot(BotKey(bot), second), BOT_POLICY);
    FixedWindow.AdmittedPerWindow(calls, FixedWindow.Slot(ChatKey(bot, chat), second), CHAT_POLICY);
  }

  // ----- The verdict itself -----

  /** How many recorded calls of a key were made in a second. */
  ghost function CallsIn(calls: Calls, key: ThrottleKey, second: nat): nat {
    |CallPositions(calls, key, second)|
  }

  ghost function CallPositions(calls: Calls, key: ThrottleKey, second: nat): set<int> {
    set i | 0 <= i < |calls| && calls[i].key == key && calls[i].at / 1000 == second
  }

  lemma OneMorePosition(calls: Calls, c: FixedWindow.Call<ThrottleKey>, key: ThrottleKey, second: nat)
    ensures CallsIn(calls + [c], key, second)
            == CallsIn(calls, key, second) + (if c.key == key && c.at / 1000 == second then 1 else 0)
  {
    var before, after := CallPositions(calls, key, second), CallPositions(calls + [c], key, second);
    if c.key == key && c.at / 1000 == second {
      assert after == before + {|calls|};
    } else {
      assert after == before;
    }
  }

  lemma {:induction false} CallsAreAttempts(calls: Calls, key: ThrottleKey, second: nat, p: FixedWindow.Policy)
    requires p.width == 1
    ensures CallsIn(calls, key, second) == FixedWindow.Attempts(calls, FixedWindow.Slot(key, second), p)
  {
    if calls == [] {
      assert CallPositions(calls, key, second) == {};
    } else {
      hide CallsIn;
      var n := |calls| - 1;
      assert calls == calls[..n] + [calls[n]];
      CallsAreAttempts(calls[..n], key, second, p);
      OneMorePosition(calls[..n], calls[n], key, second);
    }
  }

  lemma NextIsAdmitted(s: Platform, key: ThrottleKey, p: FixedWindow.Policy)
    requires Metered(s) && p in {BOT_POLICY, CHAT_POLICY}
    ensures FixedWindow.LastAdmitted(Delivery.Consume(s, key).calls, p)
            <==> CallsIn(s.calls, key, s.now / 1000) < p.limit
  {
    var calls := Delivery.Consume(s, key).calls;
    assert calls[..|calls| - 1] == s.calls;
    CallsAreAttempts(s.calls, key, s.now / 1000, p);
    FixedWindow.AdmitsExactlyTheFirst(calls, p);
  }

  /** The verdict of the throttle in a metered state, by the recorded calls. */
  lemma VerdictAt(s: Platform, bot: BotId, chat: int)
    requires Metered(s)
    ensures Delivery.CheckThrottle(s, bot, chat).1 <==>
              CallsIn(s.calls, BotKey(bot), s.now / 1000) < 30 && CallsIn(s.calls, ChatKey(bot, chat), s.now / 1000) < 1
  {
    var s1 := Delivery.Consume(s, BotKey(bot));
    NextIsAdmitted(s, BotKey(bot), BOT_POLICY);
    NextIsAdmitted(s1, ChatKey(bot, chat), CHAT_POLICY);
    ConsumeMeters(s, BotKey(bot));
    ConsumeMeters(s1, ChatKey(bot, chat));
    OneMorePosition(s.calls, FixedWindow.Call(BotKey(bot), s.now), ChatKey(bot, chat), s.now / 1000);
    hide CallsIn, Metered, FixedWindow.LastAdmitted;
  }

  /** In every run: a delivery passes the throttle exactly when fewer than 30 attempts of its bot, and none of that bot
      on its chat, were made in the current second, refused ones included. */
  lemma VerdictIsExact(ops: seq<Op>, bot: BotId, chat: int)
    ensures var s := Run(ops);
            Delivery.CheckThrottle(s, bot, chat).1 <==>
              CallsIn(s.calls, BotKey(bot), s.now / 1000) < 30 && CallsIn(s.calls, ChatKey(bot, chat), s.now / 1000) < 1
  {
    hide Run, Metered, Admitted;
    RunMeters(ops, bot, chat, 0);
    VerdictAt(Run(ops), bot, chat);
  }

  /** In every run, the counter of the current second is there iff an attempt was made in it, shows how many there were,
      and goes two seconds after the first. */
  lemma CountersAreExact(ops: seq<Op>, key: ThrottleKey)
    ensures var s := Run(ops);
            var slot := FixedWindow.Slot(key, s.now / 1000);
            && (slot in s.redis <==> CallsIn(s.calls, key, s.now / 1000) > 0)
            && (slot in s.redis ==>
                  && s.redis[slot].count == CallsIn(s.calls, key, s.now / 1000)
                  && FixedWindow.Attempts(s.calls, slot, BOT_POLICY) > 0
                  && s.redis[slot].expiresAt == FixedWindow.FirstAt(s.calls, slot, BOT_POLICY) + 2000)
  {
    var s := Run(ops);
    var slot := FixedWindow.Slot(key, s.now / 1000);
    hide Run, Admitted, CallsIn;
    RunMeters(ops, 0, 0, 0);
    CallsAreAttempts(s.calls, key, s.now / 1000, BOT_POLICY);
    FixedWindow.ExpiryForgetsNothing(s.calls, slot, s.now, BOT_POLICY);
    if slot in s.redis {
      FixedWindow.LivesFromFirstCall(s.calls, slot, s.now, BOT_POLICY);
    }
    hide FixedWindow.After, FixedWindow.Attempts, FixedWindow.FirstAt;
  }
}
