/** Throttled deliveries finish: every second in which a bot's tasks reach the throttle delivers one of its logs. */
module Draining {
  import opened Wrappers
  import opened Rows
  import opened Tables
  import opened State
  import opened Platforms
  import opened Ledger
  import opened Laws
  import opened Causes
  import opened Throttling
  import FixedWindow
  import Payload
  import Messaging
  import Delivery
  import Frames

  /** The chat counter is only ever consumed right after its bot's, in the same instant. */
  ghost predicate Paired(calls: Calls) {
    forall i | 0 <= i < |calls| && calls[i].key.ChatKey? ::
      i > 0 && calls[i - 1] == FixedWindow.Call(BotKey(calls[i].key.bot), calls[i].at)
  }

  ghost predicate Attempted(calls: Calls, bot: BotId, second: nat) {
    exists i | 0 <= i < |calls| :: calls[i].key == BotKey(bot) && FixedWindow.Seconds(calls[i].at) == second
  }

  ghost predicate DeliveredIn(m: MessageTables, l: LogKey, bot: BotId, second: nat) {
    && l in m.logs && m.logs[l].status == Sent && m.logs[l].sentAt.Some?
    && FixedWindow.Seconds(m.logs[l].sentAt.value) == second
    && l.message in m.messages && m.messages[l.message].bot == bot
  }

  ghost function LogsOfBot(m: MessageTables, bot: BotId): set<LogKey> {
    set l | l in m.logs && l.message in m.messages && m.messages[l.message].bot == bot
  }

  ghost function SentLogsOfBot(m: MessageTables, bot: BotId): set<LogKey> {
    set l | l in LogsOfBot(m, bot) && m.logs[l].status == Sent
  }

  /** The logs of the bot that are not SENT and have an outstanding job. */
  ghost function OpenJobs(s: Platform, bot: BotId): set<LogKey> {
    set l | l in LogsOfBot(s.msgs, bot) && s.msgs.logs[l].status != Sent && Tickets(s.queue, l) != multiset{}
  }

  /** Those that were such at the start of the continuation or at any time in it. */
  ghost function OpenJobsSince(s: Platform, more: seq<Op>, bot: BotId): set<LogKey> {
    if more == [] then OpenJobs(s, bot)
    else OpenJobsSince(s, more[..|more| - 1], bot) + OpenJobs(RunFrom(s, more), bot)
  }

  lemma OpenNow(s: Platform, more: seq<Op>, bot: BotId)
    ensures OpenJobs(RunFrom(s, more), bot) <= OpenJobsSince(s, more, bot)
  {
    hide OpenJobs, Step;
  }

  /** A log of the pool that was not SENT before was delivered in that second. */
  ghost predicate Served(m: MessageTables, bot: BotId, second: nat, known: set<LogKey>, pool: set<LogKey>) {
    exists l :: DeliveredIn(m, l, bot, second) && l !in known && l in pool
  }

  /** Since a state with these calls and these SENT logs: they are SENT still, and every second in which the bot made
      its first attempt since then delivered another one, of the pool. */
  ghost predicate Productive(before: Calls, known: set<LogKey>, pool: set<LogKey>, s: Platform, bot: BotId) {
    && known <= SentLogsOfBot(s.msgs, bot)
    && forall second | Attempted(s.calls, bot, second) && !Attempted(before, bot, second) ::
         Served(s.msgs, bot, second, known, pool)
  }

  // ----- The first attempt of a second is admitted -----

  lemma {:induction false} NoAttempts(calls: Calls, slot: FixedWindow.Slot<ThrottleKey>, p: FixedWindow.Policy)
    requires p.width == 1
    requires forall i | 0 <= i < |calls| :: calls[i].key != slot.key || FixedWindow.Seconds(calls[i].at) != slot.window
    ensures FixedWindow.Attempts(calls, slot, p) == 0
  {
    if calls != [] {
      NoAttempts(calls[..|calls| - 1], slot, p);
      assert calls[|calls| - 1].key != slot.key || FixedWindow.Seconds(calls[|calls| - 1].at) != slot.window;
    }
  }

  lemma FirstCallAdmitted(calls: Calls, c: FixedWindow.Call<ThrottleKey>, p: FixedWindow.Policy)
    requires p.width == 1 && p.ttl == 2 && p.limit >= 1 && FixedWindow.Chronological(calls + [c])
    requires forall i | 0 <= i < |calls| ::
               calls[i].key != c.key || FixedWindow.Seconds(calls[i].at) != FixedWindow.Seconds(c.at)
    ensures FixedWindow.LastAdmitted(calls + [c], p)
  {
    assert (calls + [c])[..|calls + [c]| - 1] == calls;
    NoAttempts(calls, FixedWindow.SlotOf(c, p), p);
    FixedWindow.AdmitsExactlyTheFirst(calls + [c], p);
  }

  /** The first attempt of a bot in a second passes both counters, whatever its chat. */
  lemma FirstOfSecondPasses(s: Platform, bot: BotId, chat: int)
    requires Metered(s) && Paired(s.calls) && !Attempted(s.calls, bot, FixedWindow.Seconds(s.now))
    ensures Delivery.CheckThrottle(s, bot, chat).1
  {
    var s1 := Delivery.Consume(s, BotKey(bot));
    var s2 := Delivery.Consume(s1, ChatKey(bot, chat));
    ConsumeMeters(s, BotKey(bot));
    ConsumeMeters(s1, ChatKey(bot, chat));
    var c1, c2 := FixedWindow.Call(BotKey(bot), s.now), FixedWindow.Call(ChatKey(bot, chat), s.now);
    hide FixedWindow.LastAdmitted, FixedWindow.After;
    forall i | 0 <= i < |s1.calls|
      ensures s1.calls[i].key != c2.key || FixedWindow.Seconds(s1.calls[i].at) != FixedWindow.Seconds(s.now)
    {
      if i < |s.calls| && s1.calls[i].key == c2.key {
        assert s.calls[i - 1] == FixedWindow.Call(BotKey(bot), s.calls[i].at);
      }
    }
    FirstCallAdmitted(s.calls, c1, BOT_POLICY);
    FirstCallAdmitted(s1.calls, c2, CHAT_POLICY);
  }

  // ----- Deliveries stay, calls come in pairs -----

  ghost predicate KeepsDelivered(a: Account, a': Account) {
    && (a.message.Some? ==> a'.message.Some? && a'.message.value.bot == a.message.value.bot)
    && (a.message.Some? && a.row.Some? && a.row.value.status == Sent ==> a'.row == a.row)
  }

  lemma MoveKeepsDelivered(l: LogKey, a: Account, a': Account, op: Op, outcome: Delivery.Outcome, now: nat)
    requires Law(a) && Moves(l, a, a', op, outcome, now) && !op.PurgeLogs?
    ensures KeepsDelivered(a, a')
  {
    hide Ran, Payload.SendViaTelegram, TicketLaw, Balanced;
    if a' != a && op.RunTask? {
      RanFrame(a, a', op.ticket, outcome, now);
      if a.message.Some? && a.row.Some? && a.row.value.status == Sent {
        RanKeepsSent(a, a', op.ticket, outcome, now, a.row.value);
      }
    }
  }

  lemma StepKeepsDelivered(s: Platform, op: Op, l: LogKey)
    requires Law(AccountOf(s, l)) && !op.PurgeLogs?
    ensures KeepsDelivered(AccountOf(s, l), AccountOf(Step(s, op), l))
  {
    hide Law, Moves, AccountOf, Step, OutcomeOf, KeepsDelivered;
    StepMoves(s, op, l);
    MoveKeepsDelivered(l, AccountOf(s, l), AccountOf(Step(s, op), l), op, OutcomeOf(s, op), s.now);
  }

  ghost predicate AllLawful(s: Platform) {
    forall l :: Law(AccountOf(s, l))
  }

  /** The step purges no delivered log of the bot. */
  ghost predicate SparesSent(s: Platform, op: Op, bot: BotId) {
    op.PurgeLogs? ==> op.victims !! SentLogsOfBot(s.msgs, bot)
  }

  lemma SentStaysAt(s: Platform, op: Op, bot: BotId, l: LogKey)
    requires Law(AccountOf(s, l)) && SparesSent(s, op, bot)
    ensures l in SentLogsOfBot(s.msgs, bot) ==> l in SentLogsOfBot(Step(s, op).msgs, bot)
    ensures forall second | DeliveredIn(s.msgs, l, bot, second) :: DeliveredIn(Step(s, op).msgs, l, bot, second)
  {
    match op
    case PurgeLogs(tenant, before, victims) => Frames.PurgeFrame(s, tenant, before, victims); hide Step, Law;
    case _ => StepKeepsDelivered(s, op, l); hide Step, Law;
  }

  lemma SentStays(s: Platform, op: Op, bot: BotId)
    requires AllLawful(s) && SparesSent(s, op, bot)
    ensures SentLogsOfBot(s.msgs, bot) <= SentLogsOfBot(Step(s, op).msgs, bot)
    ensures forall l, second | DeliveredIn(s.msgs, l, bot, second) :: DeliveredIn(Step(s, op).msgs, l, bot, second)
  {
    hide Step, Law, AccountOf, SentLogsOfBot, DeliveredIn, SparesSent;
    forall l: LogKey
      ensures l in SentLogsOfBot(s.msgs, bot) ==> l in SentLogsOfBot(Step(s, op).msgs, bot)
    {
      assert Law(AccountOf(s, l));
      SentStaysAt(s, op, bot, l);
    }
    forall l: LogKey, second: nat | DeliveredIn(s.msgs, l, bot, second)
      ensures DeliveredIn(Step(s, op).msgs, l, bot, second)
    {
      assert Law(AccountOf(s, l));
      SentStaysAt(s, op, bot, l);
    }
  }

  /** The calls a step adds to the history of the throttle. */
  ghost function CallsOf(s: Platform, op: Op): Calls {
    if Reaches(s, op) then
      var bot := s.msgs.messages[op.log.message].bot;
      [FixedWindow.Call(BotKey(bot), s.now),
       FixedWindow.Call(ChatKey(bot, s.dests.destinations[op.log.destination].chat), s.now)]
    else []
  }

  lemma CallAddsNone(s: Platform, l: LogKey, bot: BotId, chat: int, content: Payload.Content, answer: Delivery.Answer,
                     fate: Delivery.Fate)
    requires l in s.msgs.logs
    ensures Delivery.CallTelegram(s, l, bot, chat, content, answer, fate).0.calls == s.calls
  {
    hide Payload.SendViaTelegram, Note, Delivery.CallMarks;
  }

  lemma SendCalls(s: Platform, l: LogKey, message: Message, chat: int, answer: Delivery.Answer, fate: Delivery.Fate)
    requires l in s.msgs.logs
    ensures Delivery.ThrottledSend(s, l, message, chat, answer, fate).0.calls
            == s.calls + [FixedWindow.Call(BotKey(message.bot), s.now), FixedWindow.Call(ChatKey(message.bot, chat), s.now)]
  {
    var (s1, ok) := Delivery.CheckThrottle(s, message.bot, chat);
    assert s1.calls == s.calls + [FixedWindow.Call(BotKey(message.bot), s.now)]
                       + [FixedWindow.Call(ChatKey(message.bot, chat), s.now)];
    hide Delivery.CheckThrottle, Delivery.CallTelegram, Note;
    if ok {
      CallAddsNone(s1, l, message.bot, chat, message.content, answer, fate);
    }
  }

  lemma TaskCalls(s: Platform, l: LogKey, t: Ticket, answer: Delivery.Answer, fate: Delivery.Fate)
    requires Delivery.CanRun(s, l, t)
    ensures Delivery.RunTask(s, l, t, answer, fate).calls == s.calls + CallsOf(s, RunTask(l, t, answer, fate))
  {
    if Delivery.Obstacle(s, l).None? {
      SendCalls(s, l, s.msgs.messages[l.message], s.dests.destinations[l.destination].chat, answer, fate);
    }
    var r := Delivery.ProcessDelivery(s, l, answer, fate);
    SettleKeepsMeters(r.0, l, t, r.1, 0, 0, 0);
    hide Delivery.ThrottledSend, Delivery.Settle, Delivery.Obstacle;
  }

  lemma StepCalls(s: Platform, op: Op)
    ensures Step(s, op).calls == s.calls + CallsOf(s, op)
  {
    hide Step, Delivery.RunTask, Delivery.CanRun, Delivery.Obstacle;
    match op
    case RunTask(l, t, answer, fate) =>
      Frames.TaskFrame(s, l, t, answer, fate);
      if Delivery.CanRun(s, l, t) {
        TaskCalls(s, l, t, answer, fate);
      }
    case _ => MetersElsewhere(s, op, 0, 0, 0);
  }

  lemma StepKeepsPaired(s: Platform, op: Op)
    requires Paired(s.calls)
    ensures Paired(Step(s, op).calls)
  {
    StepCalls(s, op);
    hide Step, Reaches;
  }

  lemma {:induction false} RunIsPaired(ops: seq<Op>)
    ensures Paired(Run(ops).calls)
  {
    if ops == [] {
      assert EMPTY.calls == [];
    } else {
      hide Step, Paired;
      RunIsPaired(ops[..|ops| - 1]);
      StepKeepsPaired(Run(ops[..|ops| - 1]), ops[|ops| - 1]);
    }
  }

  // ----- An accepted first attempt is a delivery -----

  /** No delivered log of the bot is purged, and a job of the bot that passes the throttle is accepted and recorded.
      What becomes of other bots' jobs, and of jobs that meet an obstacle or are held back, does not matter. */
  ghost predicate Accepting(s: Platform, op: Op, bot: BotId) {
    && SparesSent(s, op, bot)
    && (Passes(s, op) && s.msgs.messages[op.log.message].bot == bot ==> IsRecorded(op.answer, op.fate))
  }

  /** Every step of the continuation is like that. */
  ghost predicate AllAccepting(s: Platform, more: seq<Op>, bot: BotId) {
    forall i | 0 <= i < |more| :: Accepting(RunFrom(s, more[..i]), more[i], bot)
  }

  lemma AcceptingBefore(s: Platform, more: seq<Op>, bot: BotId)
    requires more != [] && AllAccepting(s, more, bot)
    ensures var n := |more| - 1;
            AllAccepting(s, more[..n], bot) && Accepting(RunFrom(s, more[..n]), more[n], bot)
  {
    hide RunFrom, Accepting;
    var n := |more| - 1;
    forall i | 0 <= i < n
      ensures Accepting(RunFrom(s, more[..n][..i]), more[..n][i], bot)
    {
      assert more[..n][..i] == more[..i] && more[..n][i] == more[i];
    }
  }

  /** A delivery that passes the throttle and is accepted is recorded now. */
  lemma AcceptedIsDelivered(s: Platform, l: LogKey, message: Message, chat: int, answer: Delivery.Answer,
                            fate: Delivery.Fate)
    requires l in s.msgs.logs && l.message in s.msgs.messages && s.msgs.messages[l.message] == message
    requires Delivery.CheckThrottle(s, message.bot, chat).1
    requires Payload.SendViaTelegram(message.content).Ok? && IsRecorded(answer, fate)
    ensures var r := Delivery.ThrottledSend(s, l, message, chat, answer, fate);
            (r.1.WasSent? || r.1.WasCut?) && DeliveredIn(r.0.msgs, l, message.bot, FixedWindow.Seconds(s.now))
  {
    hide Delivery.CheckThrottle, Delivery.CallMarks, Note, Payload.SendViaTelegram;
  }

  lemma ReachesLive(s: Platform, op: Op)
    requires Reaches(s, op)
    ensures op.log in s.msgs.logs && s.msgs.logs[op.log].status != Sent
    ensures op.log.message in s.msgs.messages && op.log.destination in s.dests.destinations
  {
    hide Delivery.Obstacle, Delivery.CanRun;
  }

  lemma SentStepRecords(s: Platform, l: LogKey, t: Ticket, answer: Delivery.Answer, fate: Delivery.Fate,
                        message: Message, chat: int)
    requires Delivery.CanRun(s, l, t) && Delivery.Obstacle(s, l).None?
    requires s.msgs.messages[l.message] == message && s.dests.destinations[l.destination].chat == chat
    requires !(fate.Cut? && fate.point.AtOnce?)
    requires var outcome := Delivery.ThrottledSend(s, l, message, chat, answer, fate).1; outcome.WasSent? || outcome.WasCut?
    ensures Step(s, RunTask(l, t, answer, fate)).msgs
            == Delivery.ThrottledSend(s, l, message, chat, answer, fate).0.msgs
  {
    Frames.TaskFrame(s, l, t, answer, fate);
    hide Step, Delivery.ThrottledSend, Delivery.Obstacle, Delivery.CanRun, Take, Note, Delivery.CutMarks;
  }

  lemma StoredIsSendable(s: Platform, l: LogKey)
    requires Law(AccountOf(s, l)) && l.message in s.msgs.messages
    ensures Payload.SendViaTelegram(s.msgs.messages[l.message].content).Ok?
  {
    hide Payload.SendViaTelegram, RowLaw, TicketLaw, Balanced;
  }

  /** The first attempt of a bot in a second delivers its log in that second. */
  lemma FirstAttemptDelivers(s: Platform, op: Op)
    requires Metered(s) && Paired(s.calls) && Reaches(s, op) && IsRecorded(op.answer, op.fate)
    requires op.log.message in s.msgs.messages && Law(AccountOf(s, op.log))
    requires !Attempted(s.calls, s.msgs.messages[op.log.message].bot, FixedWindow.Seconds(s.now))
    ensures DeliveredIn(Step(s, op).msgs, op.log, s.msgs.messages[op.log.message].bot, FixedWindow.Seconds(s.now))
  {
    ReachesLive(s, op);
    assert Delivery.CanRun(s, op.log, op.ticket) && Delivery.Obstacle(s, op.log).None?;
    assert !(op.fate.Cut? && op.fate.point.AtOnce?);
    hide *;
    var l, message, chat := op.log, s.msgs.messages[op.log.message], s.dests.destinations[op.log.destination].chat;
    FirstOfSecondPasses(s, message.bot, chat);
    StoredIsSendable(s, l);
    AcceptedIsDelivered(s, l, message, chat, op.answer, op.fate);
    SentStepRecords(s, l, op.ticket, op.answer, op.fate, message, chat);
    assert op == RunTask(l, op.ticket, op.answer, op.fate);
  }

  /** Which second and bot a step attempts, if any. */
  lemma NewAttempt(s: Platform, op: Op, bot: BotId, second: nat)
    requires Attempted(Step(s, op).calls, bot, second) && !Attempted(s.calls, bot, second)
    ensures Reaches(s, op) && second == FixedWindow.Seconds(s.now)
    ensures op.log.message in s.msgs.messages && s.msgs.messages[op.log.message].bot == bot
  {
    StepCalls(s, op);
    if Reaches(s, op) {
      ReachesLive(s, op);
    }
    hide Step, Reaches;
  }

  lemma ReachedIsOpen(s: Platform, op: Op)
    requires Reaches(s, op)
    ensures op.log.message in s.msgs.messages && op.log in OpenJobs(s, s.msgs.messages[op.log.message].bot)
  {
    ReachesLive(s, op);
    assert op.ticket in Tickets(s.queue, op.log);
    hide Delivery.Obstacle;
  }

  lemma StepIsProductive(before: Calls, known: set<LogKey>, pool: set<LogKey>, s: Platform, op: Op, bot: BotId)
    requires Metered(s) && Paired(s.calls) && AllLawful(s) && Productive(before, known, pool, s, bot)
    requires Accepting(s, op, bot) && OpenJobs(s, bot) <= pool
    ensures Productive(before, known, pool, Step(s, op), bot)
  {
    var s' := Step(s, op);
    SentStays(s, op, bot);
    hide Step, Metered, DeliveredIn, Law, AccountOf, Paired, Reaches, OpenJobs;
    forall second | Attempted(s'.calls, bot, second) && !Attempted(before, bot, second)
      ensures Served(s'.msgs, bot, second, known, pool)
    {
      if Attempted(s.calls, bot, second) {
        var l :| DeliveredIn(s.msgs, l, bot, second) && l !in known && l in pool;
        assert DeliveredIn(s'.msgs, l, bot, second);
      } else {
        NewAttempt(s, op, bot, second);
        ReachesLive(s, op);
        ReachedIsOpen(s, op);
        FirstOfSecondPasses(s, bot, s.dests.destinations[op.log.destination].chat);
        FirstAttemptDelivers(s, op);
        assert op.log !in SentLogsOfBot(s.msgs, bot);
      }
    }
  }

  lemma RunMeans(ops: seq<Op>)
    ensures Metered(Run(ops)) && Paired(Run(ops).calls) && AllLawful(Run(ops))
  {
    hide Metered, Paired, Admitted, Law, AccountOf, Run;
    RunMeters(ops, 0, 0, 0);
    RunIsPaired(ops);
    forall l: LogKey
      ensures Law(AccountOf(Run(ops), l))
    {
      RunKeepsLaw(ops, l);
    }
  }

  lemma ProductiveAtFirst(s: Platform, pool: set<LogKey>, bot: BotId)
    ensures Productive(s.calls, SentLogsOfBot(s.msgs, bot), pool, s, bot)
  {
  }

  lemma LargerPool(before: Calls, known: set<LogKey>, pool: set<LogKey>, more: set<LogKey>, s: Platform, bot: BotId)
    requires Productive(before, known, pool, s, bot)
    ensures Productive(before, known, pool + more, s, bot)
  {
    forall second | Attempted(s.calls, bot, second) && !Attempted(before, bot, second)
      ensures Served(s.msgs, bot, second, known, pool + more)
    {
      var l :| DeliveredIn(s.msgs, l, bot, second) && l !in known && l in pool;
      assert l in pool + more;
    }
  }

  lemma {:induction false} ContinuationIsProductive(ops: seq<Op>, more: seq<Op>, bot: BotId)
    requires AllAccepting(Run(ops), more, bot)
    ensures var s := Run(ops);
            Productive(s.calls, SentLogsOfBot(s.msgs, bot), OpenJobsSince(s, more, bot), RunFrom(s, more), bot)
    decreases |more|
  {
    var s := Run(ops);
    if more == [] {
      ProductiveAtFirst(s, OpenJobsSince(s, more, bot), bot);
    } else {
      hide Step, Metered, Paired, Productive, AllLawful, Accepting, AllAccepting, OpenJobs;
      var shorter, op := more[..|more| - 1], more[|more| - 1];
      var pool := OpenJobsSince(s, shorter, bot);
      AcceptingBefore(s, more, bot);
      ContinuationIsProductive(ops, shorter, bot);
      RunSplits(EMPTY, ops, shorter);
      RunMeans(ops + shorter);
      OpenNow(s, shorter, bot);
      StepIsProductive(s.calls, SentLogsOfBot(s.msgs, bot), pool, RunFrom(s, shorter), op, bot);
      LargerPool(s.calls, SentLogsOfBot(s.msgs, bot), pool, OpenJobs(RunFrom(s, more), bot), RunFrom(s, more), bot);
    }
  }

  // ----- Counting -----

  /** The seconds in which some task of the bot got as far as the throttle. */
  ghost function ActiveSeconds(calls: Calls, bot: BotId): set<nat> {
    set i | 0 <= i < |calls| && calls[i].key == BotKey(bot) :: FixedWindow.Seconds(calls[i].at)
  }

  ghost function SentSecond(m: MessageTables, l: LogKey): nat {
    if l in m.logs && m.logs[l].sentAt.Some? then FixedWindow.Seconds(m.logs[l].sentAt.value) else 0
  }

  lemma {:induction false} FewerSecondsThanLogs(m: MessageTables, logs: set<LogKey>, seconds: set<nat>)
    requires forall x | x in seconds :: exists l | l in logs :: SentSecond(m, l) == x
    ensures |seconds| <= |logs|
  {
    if seconds != {} {
      var x :| x in seconds;
      var l :| l in logs && SentSecond(m, l) == x;
      forall y | y in seconds - {x}
        ensures exists k | k in logs - {l} :: SentSecond(m, k) == y
      {
        var k :| k in logs && SentSecond(m, k) == y;
        assert k in logs - {l};
      }
      FewerSecondsThanLogs(m, logs - {l}, seconds - {x});
    }
  }

  /** The logs of the bot that were not SENT before and are not FAILED now: delivered since then, or still QUEUED. */
  ghost function Open(m': MessageTables, m: MessageTables, bot: BotId): set<LogKey> {
    set l | l in LogsOfBot(m', bot) - SentLogsOfBot(m, bot) && m'.logs[l].status != Failed
  }

  ghost function QueuedLogsOfBot(m: MessageTables, bot: BotId): set<LogKey> {
    set l | l in LogsOfBot(m, bot) && m.logs[l].status == Queued
  }

  /** The seconds since `s` in which a job of the bot was the first to reach the throttle. */
  ghost function NewSeconds(s: Platform, s': Platform, bot: BotId): set<nat> {
    ActiveSeconds(s'.calls, bot) - ActiveSeconds(s.calls, bot)
  }

  /** Throttle progress, from any reachable state on: while Telegram accepts the bot's calls, the bot delivers at least
      as many more logs as there are seconds in which one of its jobs first reaches the throttle since then, in spite
      of requeues and of slots used up by refused attempts. Each such second takes one log off those that are open, so
      once there were as many of them as open logs, none of the bot's logs is QUEUED. */
  lemma ThrottleLetsDeliveriesFinish(ops: seq<Op>, more: seq<Op>, bot: BotId)
    requires AllAccepting(Run(ops), more, bot)
    ensures var s, s' := Run(ops), RunFrom(Run(ops), more);
            var seconds, open := NewSeconds(s, s', bot), Open(s'.msgs, s.msgs, bot);
            && |seconds| <= |SentLogsOfBot(s'.msgs, bot) - SentLogsOfBot(s.msgs, bot)|
            && |seconds| + |QueuedLogsOfBot(s'.msgs, bot)| <= |open|
            && (|seconds| >= |open| ==> forall l | l in LogsOfBot(s'.msgs, bot) :: s'.msgs.logs[l].status != Queued)
  {
    hide Run, RunFrom, Productive, AllAccepting, OpenJobsSince;
    ContinuationIsProductive(ops, more, bot);
    var s, s' := Run(ops), RunFrom(Run(ops), more);
    var known := SentLogsOfBot(s.msgs, bot);
    SecondsDeliver(s, known, OpenJobsSince(s, more, bot), s', bot);
    QueuedOrDelivered(s, s', known, OpenJobsSince(s, more, bot), bot);
  }

  /** The logs of the pool delivered since then. */
  ghost function Delivered(m: MessageTables, bot: BotId, known: set<LogKey>, pool: set<LogKey>): set<LogKey> {
    (SentLogsOfBot(m, bot) - known) * pool
  }

  lemma SecondsDeliver(s: Platform, known: set<LogKey>, pool: set<LogKey>, s': Platform, bot: BotId)
    requires Productive(s.calls, known, pool, s', bot)
    ensures |NewSeconds(s, s', bot)| <= |Delivered(s'.msgs, bot, known, pool)|
    ensures known <= SentLogsOfBot(s'.msgs, bot)
  {
    var logs, seconds := Delivered(s'.msgs, bot, known, pool), NewSeconds(s, s', bot);
    forall x | x in seconds
      ensures exists l | l in logs :: SentSecond(s'.msgs, l) == x
    {
      ActiveIsAttempted(s'.calls, bot, x);
      ActiveIsAttempted(s.calls, bot, x);
      var l :| DeliveredIn(s'.msgs, l, bot, x) && l !in known && l in pool;
      assert l in logs;
    }
    FewerSecondsThanLogs(s'.msgs, logs, seconds);
  }

  lemma QueuedOrDelivered(s: Platform, s': Platform, known: set<LogKey>, pool: set<LogKey>, bot: BotId)
    requires known == SentLogsOfBot(s.msgs, bot) && known <= SentLogsOfBot(s'.msgs, bot)
    requires |NewSeconds(s, s', bot)| <= |Delivered(s'.msgs, bot, known, pool)|
    ensures var seconds, open := NewSeconds(s, s', bot), Open(s'.msgs, s.msgs, bot);
            && |seconds| <= |SentLogsOfBot(s'.msgs, bot) - known|
            && |seconds| + |QueuedLogsOfBot(s'.msgs, bot)| <= |open|
            && (|seconds| >= |open| ==> forall l | l in LogsOfBot(s'.msgs, bot) :: s'.msgs.logs[l].status != Queued)
  {
    hide NewSeconds;
    var sent, queued := SentLogsOfBot(s'.msgs, bot) - known, QueuedLogsOfBot(s'.msgs, bot);
    SmallerOrEqual(Delivered(s'.msgs, bot, known, pool), sent);
    assert Open(s'.msgs, s.msgs, bot) == sent + queued;
    assert |sent + queued| == |sent| + |queued|;
    if |queued| == 0 {
      assert queued == {};
      assert forall l | l in LogsOfBot(s'.msgs, bot) :: s'.msgs.logs[l].status == Queued ==> l in queued;
    }
  }

  lemma SmallerOrEqual(part: set<LogKey>, whole: set<LogKey>)
    requires part <= whole
    ensures |part| <= |whole|
  {
    assert whole == part + (whole - part);
  }

  /** The logs of a set that are not recorded FAILED. */
  ghost function NotFailed(m: MessageTables, logs: set<LogKey>): set<LogKey> {
    set l | l in logs && !(l in m.logs && m.logs[l].status == Failed)
  }

  /** The same with the jobs counted: each such second takes one log off those that had an outstanding job at some time
      since then and have not failed. Logs without a job, waiting for their dispatch or with a lost enqueue, do not
      count. */
  lemma OpenJobsDrain(ops: seq<Op>, more: seq<Op>, bot: BotId)
    requires AllAccepting(Run(ops), more, bot)
    ensures var s, s' := Run(ops), RunFrom(Run(ops), more);
            |NewSeconds(s, s', bot)| + |NotFailed(s'.msgs, OpenJobs(s', bot))|
            <= |NotFailed(s'.msgs, OpenJobsSince(s, more, bot))|
  {
    hide Run, RunFrom, Productive, AllAccepting, OpenJobsSince, NewSeconds;
    ContinuationIsProductive(ops, more, bot);
    var s, s' := Run(ops), RunFrom(Run(ops), more);
    var known, pool := SentLogsOfBot(s.msgs, bot), OpenJobsSince(s, more, bot);
    SecondsDeliver(s, known, pool, s', bot);
    OpenNow(s, more, bot);
    var delivered, open := Delivered(s'.msgs, bot, known, pool), NotFailed(s'.msgs, OpenJobs(s', bot));
    assert |delivered + open| == |delivered| + |open|;
    SmallerOrEqual(delivered + open, NotFailed(s'.msgs, pool));
  }

  // ----- When nothing new arrives -----

  ghost predicate HasOpenJob(a: Account, bot: BotId) {
    && a.row.Some? && a.row.value.status != Sent && a.tickets != multiset{}
    && a.message.Some? && a.message.value.bot == bot
  }

  lemma OpenIsInAccount(s: Platform, l: LogKey, bot: BotId)
    ensures l in OpenJobs(s, bot) <==> HasOpenJob(AccountOf(s, l), bot)
  {
  }

  /** The step stores no message and dispatches none. */
  ghost predicate BringsNone(op: Op) {
    !op.CreateMessage? && !op.Dispatch?
  }

  lemma MoveOpensNone(l: LogKey, a: Account, a': Account, op: Op, outcome: Delivery.Outcome, now: nat, bot: BotId)
    requires Law(a) && Moves(l, a, a', op, outcome, now) && BringsNone(op) && HasOpenJob(a', bot)
    ensures HasOpenJob(a, bot)
  {
    if a' != a && op.RunTask? {
      RanFrame(a, a', op.ticket, outcome, now);
      assert op.ticket in a.tickets;
      if a.message.Some? && a.row.Some? && a.row.value.status == Sent {
        RanKeepsSent(a, a', op.ticket, outcome, now, a.row.value);
      }
    }
    hide Ran, Payload.SendViaTelegram, TicketLaw, Balanced;
  }

  lemma StepOpensNone(s: Platform, op: Op, bot: BotId)
    requires AllLawful(s) && BringsNone(op)
    ensures OpenJobs(Step(s, op), bot) <= OpenJobs(s, bot)
  {
    hide Law, Moves, AccountOf, Step, OutcomeOf, OpenJobs, HasOpenJob;
    forall l | l in OpenJobs(Step(s, op), bot)
      ensures l in OpenJobs(s, bot)
    {
      assert Law(AccountOf(s, l));
      OpenIsInAccount(Step(s, op), l, bot);
      OpenIsInAccount(s, l, bot);
      StepMoves(s, op, l);
      MoveOpensNone(l, AccountOf(s, l), AccountOf(Step(s, op), l), op, OutcomeOf(s, op), s.now, bot);
    }
  }

  lemma {:induction false} NoneOpens(ops: seq<Op>, more: seq<Op>, bot: BotId)
    requires forall op | op in more :: BringsNone(op)
    ensures OpenJobsSince(Run(ops), more, bot) == OpenJobs(Run(ops), bot)
    ensures OpenJobs(RunFrom(Run(ops), more), bot) <= OpenJobs(Run(ops), bot)
    decreases |more|
  {
    if more != [] {
      hide Step, AllLawful, OpenJobs, BringsNone, Metered, Paired;
      var shorter := more[..|more| - 1];
      assert more[|more| - 1] in more;
      NoneOpens(ops, shorter, bot);
      RunSplits(EMPTY, ops, shorter);
      RunMeans(ops + shorter);
      StepOpensNone(RunFrom(Run(ops), shorter), more[|more| - 1], bot);
    }
  }

  /** N outstanding logs need at most N seconds: from any reachable state, while nothing new is sent or dispatched and
      Telegram accepts the bot's calls, every second in which a job of the bot first reaches the throttle takes one log
      off those that had an outstanding job at the start and do not fail. After as many such seconds as there are of
      these, only FAILED logs have jobs left. */
  lemma BacklogDrains(ops: seq<Op>, more: seq<Op>, bot: BotId)
    requires AllAccepting(Run(ops), more, bot) && forall op | op in more :: BringsNone(op)
    ensures var s, s' := Run(ops), RunFrom(Run(ops), more);
            var seconds, backlog := NewSeconds(s, s', bot), NotFailed(s'.msgs, OpenJobs(s, bot));
            && |seconds| + |NotFailed(s'.msgs, OpenJobs(s', bot))| <= |backlog|
            && (|seconds| >= |backlog| ==> NotFailed(s'.msgs, OpenJobs(s', bot)) == {})
  {
    hide Run, RunFrom, AllAccepting, OpenJobsSince, OpenJobs, NewSeconds, BringsNone, NotFailed;
    OpenJobsDrain(ops, more, bot);
    NoneOpens(ops, more, bot);
  }

  lemma ActiveIsAttempted(calls: Calls, bot: BotId, second: nat)
    ensures second in ActiveSeconds(calls, bot) <==> Attempted(calls, bot, second)
  {
  }
}
