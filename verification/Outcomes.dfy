/** What one execution of the send task leaves behind, in every case: the row, and the jobs the broker holds. */
module Outcomes {
  import opened Wrappers
  import opened Rows
  import opened Tables
  import opened State
  import opened Platforms
  import opened Ledger
  import opened Laws
  import opened Causes
  import opened Throttling
  import opened Columns
  import Payload
  import Bots
  import Destinations
  import Messaging
  import Delivery
  import Frames

  // ----- The cases, on the rows and on the recorded calls -----

  /** The job is in the broker and its countdown is over. */
  ghost predicate IsUp(s: Platform, l: LogKey, t: Ticket) {
    t in Tickets(s.queue, l) && t.eta <= s.now
  }

  /** There is nothing to send: the row is gone, or SENT. */
  ghost predicate NothingToSend(s: Platform, l: LogKey) {
    l in s.msgs.logs ==> s.msgs.logs[l].status == Sent
  }

  ghost predicate MessageThere(s: Platform, l: LogKey)
    requires l in s.msgs.logs
  {
    LiveMessage(s.msgs, s.msgs.logs[l].tenant, l.message)
  }

  ghost predicate BotThere(s: Platform, l: LogKey)
    requires l in s.msgs.logs && l.message in s.msgs.messages
  {
    LiveBot(s.bots, s.msgs.logs[l].tenant, s.msgs.messages[l.message].bot)
  }

  ghost predicate DestinationThere(s: Platform, l: LogKey)
    requires l in s.msgs.logs
  {
    LiveDestination(s.dests, s.msgs.logs[l].tenant, l.destination)
  }

  /** The log can never be sent, for this reason. */
  ghost predicate FailsBecause(s: Platform, l: LogKey, reason: string) {
    && !NothingToSend(s, l)
    && if !MessageThere(s, l) then reason == "Message not found or has been deleted."
       else if !BotThere(s, l) then reason == "Bot not found."
       else !DestinationThere(s, l) && reason == "Destination not found."
  }

  /** Nothing is in the way. */
  ghost predicate IsFree(s: Platform, l: LogKey) {
    !NothingToSend(s, l) && MessageThere(s, l) && BotThere(s, l) && DestinationThere(s, l)
  }

  /** Fewer than 30 attempts of the bot, and none on the chat, were made in this second. */
  ghost predicate HasRoom(s: Platform, l: LogKey)
    requires IsFree(s, l)
  {
    var bot, chat := s.msgs.messages[l.message].bot, s.dests.destinations[l.destination].chat;
    CallsIn(s.calls, BotKey(bot), s.now / 1000) < 30 && CallsIn(s.calls, ChatKey(bot, chat), s.now / 1000) < 1
  }

  lemma ObstacleMeans(s: Platform, l: LogKey)
    ensures Delivery.Obstacle(s, l) == Some(Delivery.Skip) <==> NothingToSend(s, l)
    ensures forall reason :: Delivery.Obstacle(s, l) == Some(Delivery.Fail(reason)) <==> FailsBecause(s, l, reason)
    ensures Delivery.Obstacle(s, l).None? <==> IsFree(s, l)
  {
  }

  // ----- The results -----

  ghost function RowOf(s: Platform, l: LogKey): Option<DeliveryLog> {
    if l in s.msgs.logs then Some(s.msgs.logs[l]) else None
  }

  ghost function SentRow(row: DeliveryLog, messageId: Option<int>, now: nat): DeliveryLog {
    DeliveryLog(row.tenant, Sent, messageId, None, Some(now), row.createdAt)
  }

  ghost function FailedRow(row: DeliveryLog, reason: string): DeliveryLog {
    DeliveryLog(row.tenant, Failed, row.telegramMessageId,
                Some(if |reason| <= 2000 then reason else reason[..2000]), row.sentAt, row.createdAt)
  }

  /** Milliseconds before the next attempt, by the attempts that failed before. */
  ghost function Countdown(failed: nat): nat {
    if failed == 0 then 1000 else if failed == 1 then 2000 else if failed == 2 then 4000
    else if failed == 3 then 8000 else 16000
  }

  /** The job is gone. */
  ghost function Without(tickets: multiset<Ticket>, t: Ticket): multiset<Ticket> {
    tickets - multiset{t}
  }

  /** The job is gone, and another one is there instead. */
  ghost function Replaced(tickets: multiset<Ticket>, t: Ticket, next: Ticket): multiset<Ticket> {
    tickets - multiset{t} + multiset{next}
  }

  /** What a log looks like: its row, and its outstanding jobs. */
  datatype Shape = Shape(row: Option<DeliveryLog>, jobs: multiset<Ticket>)

  ghost function ShapeOf(s: Platform, l: LogKey): Shape {
    Shape(RowOf(s, l), Tickets(s.queue, l))
  }

  /** With nothing in its way the throttle and Telegram decide; `room` is the throttle's verdict. */
  ghost function FreeTask(row: DeliveryLog, jobs: multiset<Ticket>, t: Ticket, room: bool, answer: Delivery.Answer,
                          fate: Delivery.Fate, now: nat): Shape
  {
    if fate.Cut? then
      Shape(Some(if room && answer.Accept? && fate.point.AfterCommit? then SentRow(row, answer.messageId, now) else row),
            if fate.kept then jobs else Without(jobs, t))
    else if !room then Shape(Some(row), Replaced(jobs, t, Ticket(0, now + 1000)))
    else if answer.Accept? then Shape(Some(SentRow(row, answer.messageId, now)), Without(jobs, t))
    else if t.retries < 5 then Shape(Some(row), Replaced(jobs, t, Ticket(t.retries + 1, now + Countdown(t.retries))))
    else Shape(Some(FailedRow(row, answer.reason)), Without(jobs, t))
  }

  /** With something in its way the log is skipped, or FAILED for good. */
  ghost predicate StoppedTask(s: Platform, l: LogKey, t: Ticket, fate: Delivery.Fate, after: Shape)
    requires !IsFree(s, l)
  {
    var jobs := Tickets(s.queue, l);
    if fate.Cut? then after == Shape(RowOf(s, l), if fate.kept then jobs else Without(jobs, t))
    else if NothingToSend(s, l) then after == Shape(RowOf(s, l), Without(jobs, t))
    else exists reason ::
           FailsBecause(s, l, reason) && after == Shape(Some(FailedRow(s.msgs.logs[l], reason)), Without(jobs, t))
  }

  /** The whole table of outcomes. */
  ghost predicate TaskLeaves(s: Platform, s': Platform, l: LogKey, t: Ticket, answer: Delivery.Answer,
                             fate: Delivery.Fate)
  {
    if !IsUp(s, l, t) then s' == s
    else if IsFree(s, l) then
      ShapeOf(s', l) == FreeTask(s.msgs.logs[l], Tickets(s.queue, l), t, HasRoom(s, l), answer, fate, s.now)
    else StoppedTask(s, l, t, fate, ShapeOf(s', l))
  }

  // ----- Step by step -----

  /** The outcome of a free delivery. */
  ghost function OutcomeOfFree(room: bool, answer: Delivery.Answer, fate: Delivery.Fate): Delivery.Outcome {
    if fate.Cut? then Delivery.WasCut(fate.kept)
    else if !room then Delivery.WasThrottled
    else if answer.Accept? then Delivery.WasSent else Delivery.WasRejected(answer.reason)
  }

  /** What telling the broker makes of a log. */
  ghost function AfterOutcome(before: Shape, t: Ticket, outcome: Delivery.Outcome, now: nat): Shape {
    match outcome
    case WasCut(kept) => if kept then before else before.(jobs := Without(before.jobs, t))
    case WasThrottled => before.(jobs := Replaced(before.jobs, t, Ticket(0, now + 1000)))
    case WasRejected(reason) =>
      if t.retries >= 5 then
        Shape(if before.row.Some? then Some(FailedRow(before.row.value, reason)) else None, Without(before.jobs, t))
      else before.(jobs := Replaced(before.jobs, t, Ticket(t.retries + 1, now + Countdown(t.retries))))
    case _ => before.(jobs := Without(before.jobs, t))
  }

  /** The outcome of a call, and the row it leaves. */
  lemma CallResult(s: Platform, l: LogKey, bot: BotId, chat: int, content: Payload.Content, answer: Delivery.Answer,
                   fate: Delivery.Fate)
    requires l in s.msgs.logs && Payload.SendViaTelegram(content).Ok?
    ensures var r := Delivery.CallTelegram(s, l, bot, chat, content, answer, fate);
            && RowOf(r.0, l) == Some(if IsRecorded(answer, fate) then SentRow(s.msgs.logs[l], answer.messageId, s.now)
                                     else s.msgs.logs[l])
            && r.1 == (if fate.Cut? then Delivery.WasCut(fate.kept)
                       else if answer.Accept? then Delivery.WasSent else Delivery.WasRejected(answer.reason))
  {
    hide Payload.SendViaTelegram, Note, Delivery.CallMarks;
  }

  lemma SendResult(s: Platform, l: LogKey, message: Message, chat: int, answer: Delivery.Answer, fate: Delivery.Fate)
    requires l in s.msgs.logs && Payload.SendViaTelegram(message.content).Ok?
    ensures var r := Delivery.ThrottledSend(s, l, message, chat, answer, fate);
            var ok := Delivery.CheckThrottle(s, message.bot, chat).1;
            && RowOf(r.0, l) == Some(if ok && IsRecorded(answer, fate)
                                     then SentRow(s.msgs.logs[l], answer.messageId, s.now) else s.msgs.logs[l])
            && r.1 == (if fate.Cut? then Delivery.WasCut(fate.kept)
                       else if !ok then Delivery.WasThrottled
                       else if answer.Accept? then Delivery.WasSent else Delivery.WasRejected(answer.reason))
  {
    hide Payload.SendViaTelegram, Note, Delivery.CallTelegram, Delivery.CheckThrottle;
    var (s1, ok) := Delivery.CheckThrottle(s, message.bot, chat);
    if ok {
      CallResult(s1, l, message.bot, chat, message.content, answer, fate);
    }
  }

  lemma RoomIsVerdict(s: Platform, l: LogKey)
    requires Metered(s) && IsFree(s, l)
    ensures HasRoom(s, l) <==>
              Delivery.CheckThrottle(s, s.msgs.messages[l.message].bot, s.dests.destinations[l.destination].chat).1
  {
    VerdictAt(s, s.msgs.messages[l.message].bot, s.dests.destinations[l.destination].chat);
    hide Delivery.CheckThrottle, CallsIn, Metered;
  }

  lemma FreeResult(s: Platform, l: LogKey, answer: Delivery.Answer, fate: Delivery.Fate)
    requires Metered(s) && Law(AccountOf(s, l)) && IsFree(s, l)
    ensures var r := Delivery.ProcessDelivery(s, l, answer, fate);
            && RowOf(r.0, l) == Some(if HasRoom(s, l) && IsRecorded(answer, fate)
                                     then SentRow(s.msgs.logs[l], answer.messageId, s.now) else s.msgs.logs[l])
            && r.1 == OutcomeOfFree(HasRoom(s, l), answer, fate)
  {
    ObstacleMeans(s, l);
    RoomIsVerdict(s, l);
    FreeIsSendable(s, l);
    SendResult(s, l, s.msgs.messages[l.message], s.dests.destinations[l.destination].chat, answer, fate);
    hide Delivery.ThrottledSend, Delivery.Obstacle, Delivery.CheckThrottle, Law, Metered, HasRoom, Payload.SendViaTelegram;
  }

  lemma FreeIsSendable(s: Platform, l: LogKey)
    requires Law(AccountOf(s, l)) && IsFree(s, l)
    ensures Payload.SendViaTelegram(s.msgs.messages[l.message].content).Ok?
  {
    hide Payload.SendViaTelegram, RowLaw, TicketLaw, Balanced;
  }

  /** A delivery with something in its way: cut short it leaves the row alone, otherwise it is skipped or fails. */
  lemma StoppedResult(s: Platform, l: LogKey, answer: Delivery.Answer, fate: Delivery.Fate)
    requires !IsFree(s, l)
    ensures var r := Delivery.ProcessDelivery(s, l, answer, fate);
            if fate.Cut? then r == (s, Delivery.WasCut(fate.kept))
            else if NothingToSend(s, l) then r == (s, Delivery.WasSkipped)
            else exists reason :: FailsBecause(s, l, reason) && r.1.WasFailed?
                                  && RowOf(r.0, l) == Some(FailedRow(s.msgs.logs[l], reason))
  {
    ObstacleMeans(s, l);
    hide Delivery.ThrottledSend, Delivery.Obstacle, MessageThere, BotThere, DestinationThere;
    if !NothingToSend(s, l) {
      var reason := Delivery.Obstacle(s, l).value.reason;
      assert FailsBecause(s, l, reason);
    }
  }

  lemma CountdownDoubles(retries: nat)
    requires retries < 5
    ensures Delivery.Pow2(retries) * 1000 == Countdown(retries)
  {
    Delivery.BackoffTotal();
  }

  lemma SettlingLeaves(s: Platform, l: LogKey, t: Ticket, outcome: Delivery.Outcome)
    ensures ShapeOf(Delivery.Settle(s, l, t, outcome), l) == AfterOutcome(ShapeOf(s, l), t, outcome, s.now)
  {
    SettlingRow(s, l, t, outcome);
    SettlingJobs(s, l, t, outcome);
    JobsAre(Tickets(s.queue, l), t, outcome, s.now);
    hide Delivery.Settle, Countdown, FailedRow, Without, Replaced, Tickets, TicketsAfter;
  }

  lemma JobsAre(jobs: multiset<Ticket>, t: Ticket, outcome: Delivery.Outcome, now: nat)
    ensures TicketsAfter(jobs, t, outcome, now) ==
            match outcome
            case WasCut(kept) => if kept then jobs else Without(jobs, t)
            case WasThrottled => Replaced(jobs, t, Ticket(0, now + 1000))
            case WasRejected(_) =>
              if t.retries >= 5 then Without(jobs, t)
              else Replaced(jobs, t, Ticket(t.retries + 1, now + Countdown(t.retries)))
            case _ => Without(jobs, t)
  {
    if t.retries < 5 {
      CountdownDoubles(t.retries);
    }
    hide Delivery.Pow2, Countdown;
  }

  lemma SettlingJobs(s: Platform, l: LogKey, t: Ticket, outcome: Delivery.Outcome)
    ensures Tickets(Delivery.Settle(s, l, t, outcome).queue, l) == TicketsAfter(Tickets(s.queue, l), t, outcome, s.now)
  {
    SettleMoves(s, l, t, outcome, l);
    hide Delivery.Settle, TicketsAfter, Tickets, MarksOf, FailedFrom, Delivery.CutMarks;
  }

  lemma SettlingRow(s: Platform, l: LogKey, t: Ticket, outcome: Delivery.Outcome)
    ensures RowOf(Delivery.Settle(s, l, t, outcome), l)
            == if outcome.WasRejected? && t.retries >= 5 && l in s.msgs.logs
               then Some(FailedRow(s.msgs.logs[l], outcome.reason)) else RowOf(s, l)
  {
    hide Take, Enqueue, Delivery.Retried, Delivery.Postponed, Note, Delivery.CutMarks;
  }

  lemma RunIs(s: Platform, l: LogKey, t: Ticket, answer: Delivery.Answer, fate: Delivery.Fate)
    requires IsUp(s, l, t)
    ensures var r := Delivery.ProcessDelivery(s, l, answer, fate);
            && Step(s, RunTask(l, t, answer, fate)) == Delivery.Settle(r.0, l, t, r.1)
            && r.0.queue == s.queue && r.0.now == s.now
  {
    Frames.TaskFrame(s, l, t, answer, fate);
    Delivery.ProcessTouchesOnlyDelivery(s, l, answer, fate);
    hide Step, Delivery.ProcessDelivery, Delivery.Settle;
  }

  lemma FreeTable(row: DeliveryLog, jobs: multiset<Ticket>, t: Ticket, room: bool, answer: Delivery.Answer,
                  fate: Delivery.Fate, now: nat)
    ensures AfterOutcome(Shape(Some(if room && IsRecorded(answer, fate) then SentRow(row, answer.messageId, now) else row),
                               jobs),
                         t, OutcomeOfFree(room, answer, fate), now)
            == FreeTask(row, jobs, t, room, answer, fate, now)
  {
    hide SentRow, FailedRow, Countdown, Without, Replaced;
  }

  lemma FreeLeaves(s: Platform, l: LogKey, t: Ticket, answer: Delivery.Answer, fate: Delivery.Fate)
    requires Metered(s) && Law(AccountOf(s, l)) && IsUp(s, l, t) && IsFree(s, l)
    ensures l in s.msgs.logs
    ensures ShapeOf(Step(s, RunTask(l, t, answer, fate)), l)
            == FreeTask(s.msgs.logs[l], Tickets(s.queue, l), t, HasRoom(s, l), answer, fate, s.now)
  {
    FreeIsThere(s, l);
    hide *;
    RunIs(s, l, t, answer, fate);
    FreeResult(s, l, answer, fate);
    var r := Delivery.ProcessDelivery(s, l, answer, fate);
    SettlingLeaves(r.0, l, t, r.1);
    ShapeIs(r.0, l);
    FreeTable(s.msgs.logs[l], Tickets(s.queue, l), t, HasRoom(s, l), answer, fate, s.now);
  }

  lemma ShapeIs(s: Platform, l: LogKey)
    ensures ShapeOf(s, l) == Shape(RowOf(s, l), Tickets(s.queue, l))
  {
  }

  lemma FreeIsThere(s: Platform, l: LogKey)
    requires IsFree(s, l)
    ensures l in s.msgs.logs
  {
  }

  lemma StoppedLeaves(s: Platform, l: LogKey, t: Ticket, answer: Delivery.Answer, fate: Delivery.Fate)
    requires IsUp(s, l, t) && !IsFree(s, l)
    ensures StoppedTask(s, l, t, fate, ShapeOf(Step(s, RunTask(l, t, answer, fate)), l))
  {
    hide Step, Delivery.ProcessDelivery, Delivery.Settle, IsFree, HasRoom, FailsBecause, SentRow, FailedRow, Tickets, IsUp,
         Without, Replaced, Countdown;
    RunIs(s, l, t, answer, fate);
    StoppedResult(s, l, answer, fate);
    var r := Delivery.ProcessDelivery(s, l, answer, fate);
    SettlingLeaves(r.0, l, t, r.1);
  }

  lemma TaskAt(s: Platform, l: LogKey, t: Ticket, answer: Delivery.Answer, fate: Delivery.Fate)
    requires Metered(s) && Law(AccountOf(s, l))
    ensures TaskLeaves(s, Step(s, RunTask(l, t, answer, fate)), l, t, answer, fate)
  {
    Frames.TaskFrame(s, l, t, answer, fate);
    hide Step, Metered, Law, IsFree, HasRoom;
    if IsUp(s, l, t) {
      if IsFree(s, l) {
        FreeLeaves(s, l, t, answer, fate);
      } else {
        StoppedLeaves(s, l, t, answer, fate);
      }
      hide FreeTask, StoppedTask;
    }
  }

  /** The send task, in every run and in every case. A job that is not up does nothing. An execution cut short leaves
      the row alone, unless the commit of SENT was reached, and its job if the broker keeps it. Otherwise the job is
      done, and: a settled log stays; an obstructed one is FAILED with its reason; one held back by the throttle gets a
      fresh job a second later; an accepted one is SENT; a refused one is retried after 1, 2, 4, 8 and 16 seconds, and
      FAILED with the reason after that. */
  lemma TaskIsExact(ops: seq<Op>, l: LogKey, t: Ticket, answer: Delivery.Answer, fate: Delivery.Fate)
    ensures TaskLeaves(Run(ops), Step(Run(ops), RunTask(l, t, answer, fate)), l, t, answer, fate)
  {
    hide Run, Step, TaskLeaves, Metered, Admitted, Law;
    RunMeters(ops, 0, 0, 0);
    RunKeepsLaw(ops, l);
    TaskAt(Run(ops), l, t, answer, fate);
  }

  /** Every other log keeps its row, its jobs and its history. */
  lemma TaskMindsItsLog(s: Platform, l: LogKey, t: Ticket, answer: Delivery.Answer, fate: Delivery.Fate, k: LogKey)
    requires k != l
    ensures var s' := Step(s, RunTask(l, t, answer, fate));
            && RowOf(s', k) == RowOf(s, k) && Tickets(s'.queue, k) == Tickets(s.queue, k)
            && MarksOf(s'.history, k) == MarksOf(s.history, k)
  {
    Frames.TaskFrame(s, l, t, answer, fate);
    if Delivery.CanRun(s, l, t) {
      RunMoves(s, l, t, answer, fate, k);
    }
    hide Step, Delivery.RunTask, Delivery.CanRun, Tickets, MarksOf;
  }

  /** A delivery the throttle holds back gives its place to a fresh job that may start a second later, and changes
      nothing in the row: held back any number of times, it loses no retry. */
  lemma HeldBackStartsAfresh(ops: seq<Op>, l: LogKey, t: Ticket, answer: Delivery.Answer)
    requires var s := Run(ops);
             && t in Tickets(s.queue, l) && t.eta <= s.now && IsFree(s, l) && !HasRoom(s, l)
    ensures var s, s' := Run(ops), Step(Run(ops), RunTask(l, t, answer, Delivery.Whole));
            && Tickets(s'.queue, l) == Tickets(s.queue, l) - multiset{t} + multiset{Ticket(0, s.now + 1000)}
            && RowOf(s', l) == RowOf(s, l)
  {
    hide Run, Step, IsFree, HasRoom;
    FreeIsThere(Run(ops), l);
    TaskIsExact(ops, l, t, answer, Delivery.Whole);
  }

  /** A refused call with retries left gives its place to the next retry, 1, 2, 4, 8 or 16 seconds later, and changes
      nothing in the row. */
  lemma RefusedIsRetried(ops: seq<Op>, l: LogKey, t: Ticket, answer: Delivery.Answer)
    requires var s := Run(ops);
             && t in Tickets(s.queue, l) && t.eta <= s.now && IsFree(s, l) && HasRoom(s, l)
             && !answer.Accept? && t.retries < 5
    ensures var s, s' := Run(ops), Step(Run(ops), RunTask(l, t, answer, Delivery.Whole));
            var seconds := [1, 2, 4, 8, 16];
            && Tickets(s'.queue, l)
               == Tickets(s.queue, l) - multiset{t} + multiset{Ticket(t.retries + 1, s.now + seconds[t.retries] * 1000)}
            && RowOf(s', l) == RowOf(s, l)
  {
    hide Run, Step, IsFree, HasRoom;
    FreeIsThere(Run(ops), l);
    TaskIsExact(ops, l, t, answer, Delivery.Whole);
    assert Countdown(t.retries) == [1, 2, 4, 8, 16][t.retries] * 1000;
  }

  // ----- What is noted besides the calls -----

  lemma OutcomeOfTask(s: Platform, l: LogKey, answer: Delivery.Answer, fate: Delivery.Fate)
    requires Metered(s) && Law(AccountOf(s, l))
    ensures var outcome := Delivery.ProcessDelivery(s, l, answer, fate).1;
            && (outcome.WasCut? <==> fate.Cut?) && (fate.Cut? ==> outcome.kept == fate.kept)
            && (outcome.WasThrottled? <==> fate.Whole? && IsFree(s, l) && !HasRoom(s, l))
  {
    hide Metered, Law, Delivery.ProcessDelivery, HasRoom, NothingToSend, FailsBecause, FailedRow, SentRow;
    if IsFree(s, l) {
      FreeResult(s, l, answer, fate);
    } else {
      StoppedResult(s, l, answer, fate);
    }
    hide IsFree;
  }

  /** Marks an execution makes apart from those of a call. */
  ghost predicate Noted(m: multiset<Mark>, m': multiset<Mark>, held: bool, cut: bool, lost: bool) {
    && m'[Throttled] == m[Throttled] + (if held then 1 else 0)
    && m'[CutOff] == m[CutOff] + (if cut then 1 else 0)
    && m'[JobLost] == m[JobLost] + (if lost then 1 else 0)
    && m'[Copied] == m[Copied] && m'[EnqueueLost] == m[EnqueueLost]
  }

  lemma ErroredNotes(a: Account, a': Account)
    requires Errored(a, a')
    ensures Noted(a.marks, a'.marks, false, false, false)
  {
  }

  lemma InterruptedNotes(a: Account, a': Account, now: nat)
    requires Interrupted(a, a', now)
    ensures Noted(a.marks, a'.marks, false, false, false)
  {
    hide SentFrom, Unsent, Errored;
    if Errored(a, a') {
      ErroredNotes(a, a');
      hide Noted;
    }
  }

  lemma ProcessedNotes(a: Account, a': Account, outcome: Delivery.Outcome, now: nat)
    requires Processed(a, a', outcome, now)
    ensures Noted(a.marks, a'.marks, outcome.WasThrottled?, false, false)
  {
    hide Payload.SendViaTelegram, SentFrom, FailedFrom, Interrupted, Unsent;
    if outcome.WasCut? {
      InterruptedNotes(a, a', now);
      hide Noted;
    }
  }

  lemma SettledNotes(a: Account, a': Account, t: Ticket, outcome: Delivery.Outcome, now: nat)
    requires Settled(a, a', t, outcome, now)
    ensures Noted(a.marks, a'.marks, false, outcome.WasCut?, outcome.WasCut? && !outcome.kept)
  {
    hide TicketsAfter;
  }

  lemma RanNotes(a: Account, a': Account, t: Ticket, outcome: Delivery.Outcome, now: nat)
    requires Ran(a, a', t, outcome, now)
    ensures Noted(a.marks, a'.marks, outcome.WasThrottled?, outcome.WasCut?, outcome.WasCut? && !outcome.kept)
  {
    hide Processed, Settled;
    var a1 :| Processed(a, a1, outcome, now) && Settled(a1, a', t, outcome, now);
    ProcessedNotes(a, a1, outcome, now);
    SettledNotes(a1, a', t, outcome, now);
  }

  /** In every run an execution counts as held back, as cut short, and as a lost job exactly when it was. */
  lemma TaskIsNoted(ops: seq<Op>, l: LogKey, t: Ticket, answer: Delivery.Answer, fate: Delivery.Fate)
    ensures var s, s' := Run(ops), Step(Run(ops), RunTask(l, t, answer, fate));
            var up := IsUp(s, l, t);
            Noted(MarksOf(s.history, l), MarksOf(s'.history, l),
                  up && fate.Whole? && IsFree(s, l) && !HasRoom(s, l), up && fate.Cut?, up && fate.Cut? && !fate.kept)
  {
    hide Run, Step, Metered, Admitted, Law, IsFree, HasRoom, Noted, Ran, Delivery.ProcessDelivery, Delivery.RunTask;
    var s := Run(ops);
    RunMeters(ops, 0, 0, 0);
    RunKeepsLaw(ops, l);
    Frames.TaskFrame(s, l, t, answer, fate);
    if IsUp(s, l, t) {
      OutcomeOfTask(s, l, answer, fate);
      RunMoves(s, l, t, answer, fate, l);
      RanNotes(AccountOf(s, l), AccountOf(Step(s, RunTask(l, t, answer, fate)), l), t,
               Delivery.ProcessDelivery(s, l, answer, fate).1, s.now);
    } else {
      NothingIsNoted(MarksOf(s.history, l));
    }
  }

  lemma NothingIsNoted(m: multiset<Mark>)
    ensures Noted(m, m, false, false, false)
  {
  }

  /** A redelivery adds one copy of an outstanding job, and nothing else happens. */
  lemma RedeliveryIsExact(s: Platform, l: LogKey, t: Ticket, k: LogKey)
    ensures var s' := Step(s, Redeliver(l, t));
            var copied := k == l && t in Tickets(s.queue, l);
            && s' == s.(queue := s'.queue, history := s'.history)
            && Tickets(s'.queue, k) == Tickets(s.queue, k) + (if copied then multiset{t} else multiset{})
            && MarksOf(s'.history, k) == MarksOf(s.history, k) + if copied then multiset{Copied} else multiset{}
  {
    Frames.RedeliverFrame(s, l, t);
    if t in Tickets(s.queue, l) {
      RedeliverMoves(s, l, t, k);
    }
    hide Step, Tickets, MarksOf, Enqueue, Note;
  }
}
