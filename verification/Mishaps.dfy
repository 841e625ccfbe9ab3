/** Concrete runs that a maintainer may not expect: a FAILED log that is sent after all, a message delivered twice, and
    a SENT log without a usage event. And one that they do: a backlog that drains. */
module Mishaps {
  import opened Wrappers
  import opened Rows
  import opened Tables
  import opened State
  import opened Platforms
  import opened Ledger
  import opened Laws
  import opened Causes
  import opened Throttling
  import opened Draining
  import opened Witness
  import FixedWindow
  import Payload
  import Messaging
  import Delivery
  import Frames
  import Retries

  const COPY := Redeliver(LOG, JOB)

  /** Retry n of the job, due when the backoff has passed. */
  ghost function Retry(n: nat): Ticket {
    Ticket(n, 1000 * Delivery.WaitBefore(n))
  }

  ghost function Refused(n: nat): Op {
    RunTask(LOG, Retry(n), Delivery.Reject("no"), Delivery.Whole)
  }

  /** Send the message, deliver its job twice, and let the first n attempts of one copy fail. */
  ghost function Attempts(n: nat): seq<Op> {
    if n == 0 then [FOUND, REGISTER, CHAT, SEND] + [COPY]
    else Attempts(n - 1) + [Refused(n - 1)] + [Tick(1000 * Delivery.Pow2(n - 1))]
  }

  /** Everything a delivery of the log needs is in place, and the bot has made no call in this second. */
  ghost predicate Ready(s: Platform) {
    && s.bots == BOTS && s.dests == DESTS && s.msgs.messages == map[4 := ROW]
    && LOG in s.msgs.logs && s.msgs.logs[LOG].tenant == 1 && s.msgs.logs[LOG].status != Sent
    && Quiet(s)
  }

  ghost predicate Quiet(s: Platform) {
    forall i | 0 <= i < |s.calls| :: FixedWindow.Seconds(s.calls[i].at) < FixedWindow.Seconds(s.now)
  }

  lemma ReadyIsLive(s: Platform)
    requires Ready(s)
    ensures Delivery.Obstacle(s, LOG).None? && !Attempted(s.calls, 2, FixedWindow.Seconds(s.now))
    ensures Payload.SendViaTelegram(ROW.content).Ok? && s.msgs.messages[4] == ROW
    ensures 3 in s.dests.destinations && s.dests.destinations[3].chat == 42
  {
  }

  lemma Refusal(s: Platform, l: LogKey, message: Message, chat: int, answer: Delivery.Answer)
    requires l in s.msgs.logs && Delivery.CheckThrottle(s, message.bot, chat).1
    requires Payload.SendViaTelegram(message.content).Ok? && !answer.Accept?
    ensures var r := Delivery.ThrottledSend(s, l, message, chat, answer, Delivery.Whole);
            && r.1 == Delivery.WasRejected(answer.reason) && r.0.msgs == s.msgs
            && r.0.history == Note(s.history, l, Delivery.CallMarks(answer, Delivery.Whole))
  {
    hide Delivery.CheckThrottle, Note, Delivery.CallMarks, Payload.SendViaTelegram;
  }

  /** One attempt ends in an error. */
  lemma Fails(s: Platform, answer: Delivery.Answer)
    requires Ready(s) && Metered(s) && Paired(s.calls) && !answer.Accept?
    ensures var r := Delivery.ProcessDelivery(s, LOG, answer, Delivery.Whole);
            && r.1 == Delivery.WasRejected(answer.reason) && r.0.msgs == s.msgs
            && r.0.history == Note(s.history, LOG, Delivery.CallMarks(answer, Delivery.Whole))
  {
    ReadyIsLive(s);
    assert LOG in s.msgs.logs;
    hide Ready, Metered, Paired, Delivery.Obstacle, Delivery.CheckThrottle, Delivery.ThrottledSend, Note,
         Delivery.CallMarks, Payload.SendViaTelegram;
    FirstOfSecondPasses(s, 2, 42);
    Refusal(s, LOG, ROW, 42, answer);
  }

  /** After an error the tables stand, apart from the row of an exhausted attempt. */
  lemma AfterRefusal(s: Platform, t: Ticket, answer: Delivery.Answer)
    requires Ready(s) && Metered(s) && Paired(s.calls) && Delivery.CanRun(s, LOG, t) && !answer.Accept?
    ensures var s' := Step(s, RunTask(LOG, t, answer, Delivery.Whole));
            && s'.bots == s.bots && s'.dests == s.dests && s'.msgs.messages == s.msgs.messages && s'.now == s.now
            && LOG in s'.msgs.logs && s'.msgs.logs[LOG].tenant == 1
            && s'.msgs.logs[LOG].status == (if t.retries >= 5 then Failed else s.msgs.logs[LOG].status)
            && Tickets(s'.queue, LOG)
               == TicketsAfter(Tickets(s.queue, LOG), t, Delivery.WasRejected(answer.reason), s.now)
            && s'.history == Note(s.history, LOG, Delivery.CallMarks(answer, Delivery.Whole))
  {
    Fails(s, answer);
    Frames.TaskFrame(s, LOG, t, answer, Delivery.Whole);
    var r := Delivery.ProcessDelivery(s, LOG, answer, Delivery.Whole);
    ProcessFrameOf(s, answer);
    SettleMoves(r.0, LOG, t, r.1, LOG);
    RowAfterSettle(r.0, t, answer.reason);
    assert AccountOf(r.0, LOG).tickets == Tickets(s.queue, LOG);
    hide Step, Delivery.ProcessDelivery, Delivery.Settle, Delivery.CanRun, TicketsAfter, Metered, Paired, Note,
         Delivery.CallMarks;
  }

  lemma ProcessFrameOf(s: Platform, answer: Delivery.Answer)
    ensures var r := Delivery.ProcessDelivery(s, LOG, answer, Delivery.Whole).0;
            r.queue == s.queue && r.now == s.now
  {
    Delivery.ProcessTouchesOnlyDelivery(s, LOG, answer, Delivery.Whole);
    hide Delivery.ProcessDelivery;
  }

  lemma RowAfterSettle(s: Platform, t: Ticket, reason: string)
    requires LOG in s.msgs.logs
    ensures var s' := Delivery.Settle(s, LOG, t, Delivery.WasRejected(reason));
            && LOG in s'.msgs.logs && s'.msgs.logs[LOG].tenant == s.msgs.logs[LOG].tenant
            && s'.msgs.logs[LOG].status == (if t.retries >= 5 then Failed else s.msgs.logs[LOG].status)
            && s'.history == s.history
  {
    hide Take, Enqueue, Delivery.Retried;
  }

  /** The calls of an attempt are of this second, so the next second is quiet again. */
  lemma QuietAgain(s: Platform, op: Op, ms: nat)
    requires Quiet(s) && op.RunTask? && ms >= 1000 && Step(s, op).now == s.now
    ensures Quiet(Step(Step(s, op), Tick(ms)))
    ensures var s1 := Step(s, op); Step(s1, Tick(ms)) == s1.(now := s.now + ms)
  {
    Frames.TickFrame(Step(s, op), ms);
    StepCalls(s, op);
    hide Step, Reaches;
  }

  lemma Pow2Positive(n: nat)
    ensures Delivery.Pow2(n) >= 1
  {
    Delivery.WaitIsPow2Minus1(n);
  }

  ghost predicate AtAttempt(s: Platform, n: nat) {
    && Ready(s) && s.msgs.logs[LOG].status == Queued
    && s.now == 1000 * Delivery.WaitBefore(n) && Tickets(s.queue, LOG) == multiset{JOB, Retry(n)}
  }

  lemma FirstAttempt()
    ensures AtAttempt(Run(Attempts(0)), 0)
  {
    SentOff();
    hide Step, Run;
    var s := Run([FOUND, REGISTER, CHAT, SEND]);
    OneMoreStep([FOUND, REGISTER, CHAT, SEND], COPY);
    Frames.RedeliverFrame(s, LOG, JOB);
    assert Delivery.WaitBefore(0) == 0;
    assert Tickets(Enqueue(s.queue, LOG, JOB), LOG) == multiset{JOB} + multiset{JOB} == multiset{JOB, Retry(0)};
  }

  lemma NextJobs(n: nat, now: nat)
    requires n < 5 && now == 1000 * Delivery.WaitBefore(n)
    ensures TicketsAfter(multiset{JOB, Retry(n)}, Retry(n), Delivery.WasRejected("no"), now) == multiset{JOB, Retry(n + 1)}
    ensures now + 1000 * Delivery.Pow2(n) == 1000 * Delivery.WaitBefore(n + 1)
  {
    assert multiset{JOB, Retry(n)} - multiset{Retry(n)} == multiset{JOB};
    assert Delivery.Retried(Retry(n), now) == Retry(n + 1);
  }

  lemma AttemptsRunsOn(n: nat)
    ensures Run(Attempts(n + 1)) == Step(Step(Run(Attempts(n)), Refused(n)), Tick(1000 * Delivery.Pow2(n)))
  {
    hide Step, Run, Refused;
    OneMoreStep(Attempts(n), Refused(n));
    OneMoreStep(Attempts(n) + [Refused(n)], Tick(1000 * Delivery.Pow2(n)));
  }

  lemma {:induction false} AtEachAttempt(n: nat)
    requires n <= 5
    ensures AtAttempt(Run(Attempts(n)), n)
  {
    if n == 0 {
      FirstAttempt();
    } else {
      AtEachAttempt(n - 1);
      RunMeans(Attempts(n - 1));
      AttemptsRunsOn(n - 1);
      hide Run, Metered, Paired, AllLawful;
      OneAttempt(Run(Attempts(n - 1)), n - 1);
    }
  }

  lemma OneAttempt(s: Platform, n: nat)
    requires n < 5 && AtAttempt(s, n) && Metered(s) && Paired(s.calls)
    ensures AtAttempt(Step(Step(s, Refused(n)), Tick(1000 * Delivery.Pow2(n))), n + 1)
  {
    assert Retry(n) in Tickets(s.queue, LOG) && Delivery.CanRun(s, LOG, Retry(n));
    hide Step, Metered, Paired, TicketsAfter, Delivery.CanRun;
    Pow2Positive(n);
    AfterRefusal(s, Retry(n), Delivery.Reject("no"));
    NextJobs(n, s.now);
    QuietAgain(s, Refused(n), 1000 * Delivery.Pow2(n));
    hide Quiet;
  }

  lemma LastJobs(now: nat)
    ensures TicketsAfter(multiset{JOB, Retry(5)}, Retry(5), Delivery.WasRejected("no"), now) == multiset{JOB}
  {
    assert multiset{JOB, Retry(5)} - multiset{Retry(5)} == multiset{JOB};
  }

  /** The sixth refusal leaves the log FAILED and the copy outstanding; a second later the copy is accepted. */
  lemma Revives(s: Platform)
    requires AtAttempt(s, 5) && Metered(s) && Paired(s.calls)
    ensures var s' := Step(Step(s, Refused(5)), Tick(1000));
            && LOG in s'.msgs.logs && s'.msgs.logs[LOG].status == Failed
            && Ready(s') && Tickets(s'.queue, LOG) == multiset{JOB}
  {
    assert Retry(5) in Tickets(s.queue, LOG) && Delivery.CanRun(s, LOG, Retry(5));
    hide Step, Metered, Paired, TicketsAfter, Delivery.CanRun;
    AfterRefusal(s, Retry(5), Delivery.Reject("no"));
    LastJobs(s.now);
    QuietAgain(s, Refused(5), 1000);
    hide Quiet;
  }

  function AcceptedNow(t: Ticket): Op {
    RunTask(LOG, t, Delivery.Accept(Some(1)), Delivery.Whole)
  }

  lemma LastAttempt(s: Platform, t: Ticket)
    requires Ready(s) && Metered(s) && Paired(s.calls) && Delivery.CanRun(s, LOG, t) && Law(AccountOf(s, LOG))
    ensures LOG in Step(s, AcceptedNow(t)).msgs.logs && Step(s, AcceptedNow(t)).msgs.logs[LOG].status == Sent
  {
    ReadyIsLive(s);
    assert Reaches(s, AcceptedNow(t)) && IsRecorded(AcceptedNow(t).answer, AcceptedNow(t).fate);
    hide Ready, Metered, Paired, Law, Step, Attempted, Reaches;
    FirstAttemptDelivers(s, AcceptedNow(t));
  }

  ghost const EXHAUSTED := Attempts(5) + [Refused(5)] + [Tick(1000)]

  /** After six refusals the log is FAILED; the copy of its job is delivered, accepted, and the log is SENT. */
  lemma ACopyRevivesAFailedLog()
    ensures LOG in Run(EXHAUSTED).msgs.logs && Run(EXHAUSTED).msgs.logs[LOG].status == Failed
    ensures LOG in Run(EXHAUSTED + [AcceptedNow(JOB)]).msgs.logs && Run(EXHAUSTED + [AcceptedNow(JOB)]).msgs.logs[LOG].status == Sent
  {
    hide Step, Run, Ready, Metered, Paired, Law, AccountOf, Attempts, Refused;
    AtEachAttempt(5);
    RunMeans(Attempts(5));
    Revives(Run(Attempts(5)));
    OneMoreStep(Attempts(5), Refused(5));
    OneMoreStep(Attempts(5) + [Refused(5)], Tick(1000));
    RunMeans(EXHAUSTED);
    LastAttempt(Run(EXHAUSTED), JOB);
    OneMoreStep(EXHAUSTED, AcceptedNow(JOB));
  }

  // ----- A timeout that hides an acceptance -----

  const TIMEOUT := RunTask(LOG, JOB, Delivery.AcceptUnreported("timeout"), Delivery.Whole)
  const SECOND := Ticket(1, 1000)

  const UNANSWERED := [FOUND, REGISTER, CHAT, SEND] + [TIMEOUT] + [Tick(1000)]

  lemma SentOffIsReady()
    ensures var s := Run([FOUND, REGISTER, CHAT, SEND]);
            && Ready(s) && Delivery.CanRun(s, LOG, JOB) && Tickets(s.queue, LOG) == multiset{JOB} && s.now == 0
  {
    SentOff();
    hide Run;
  }

  lemma Unanswered()
    ensures var s := Run(UNANSWERED);
            && Ready(s) && Delivery.CanRun(s, LOG, SECOND) && MarksOf(s.history, LOG)[Unreported] >= 1
  {
    hide Run, Step, Metered, Paired, Note;
    var before := Run([FOUND, REGISTER, CHAT, SEND]);
    SentOffIsReady();
    RunMeans([FOUND, REGISTER, CHAT, SEND]);
    AfterRefusal(before, JOB, Delivery.AcceptUnreported("timeout"));
    QuietAgain(before, TIMEOUT, 1000);
    OneMoreStep([FOUND, REGISTER, CHAT, SEND], TIMEOUT);
    OneMoreStep([FOUND, REGISTER, CHAT, SEND] + [TIMEOUT], Tick(1000));
    NoteAdds(before.history, LOG, Delivery.CallMarks(Delivery.AcceptUnreported("timeout"), Delivery.Whole));
    assert multiset{JOB} - multiset{JOB} + multiset{SECOND} == multiset{SECOND};
    assert Delivery.Retried(JOB, 0) == SECOND;
  }

  lemma ProcessedGrows(a: Account, a': Account, outcome: Delivery.Outcome, now: nat)
    requires Processed(a, a', outcome, now)
    ensures a.marks <= a'.marks
  {
    hide Payload.SendViaTelegram;
  }

  lemma SettledGrows(a: Account, a': Account, t: Ticket, outcome: Delivery.Outcome, now: nat)
    requires Settled(a, a', t, outcome, now)
    ensures a.marks <= a'.marks
  {
    hide TicketsAfter, Delivery.CutMarks;
  }

  lemma MarksGrow(a: Account, a': Account, t: Ticket, outcome: Delivery.Outcome, now: nat)
    requires Ran(a, a', t, outcome, now)
    ensures a.marks <= a'.marks
  {
    hide Processed, Settled;
    var a1 :| Processed(a, a1, outcome, now) && Settled(a1, a', t, outcome, now);
    ProcessedGrows(a, a1, outcome, now);
    SettledGrows(a1, a', t, outcome, now);
  }

  /** Telegram takes the message, the reply is lost, and the retry is accepted too: nobody died, nothing was
      redelivered, and the chat got the message twice. */
  lemma ATimeoutDoublesAMessage()
    ensures var s := Run(UNANSWERED + [AcceptedNow(SECOND)]);
            LOG in s.msgs.logs && s.msgs.logs[LOG].status == Sent && MarksOf(s.history, LOG)[Accepted] >= 2
  {
    hide Run, Step, Metered, Paired, Ready, Ran, Law, Delivery.CanRun;
    var s := Run(UNANSWERED);
    Unanswered();
    RunMeans(UNANSWERED);
    LastAttempt(s, SECOND);
    OneMoreStep(UNANSWERED, AcceptedNow(SECOND));
    Frames.TaskFrame(s, LOG, SECOND, Delivery.Accept(Some(1)), Delivery.Whole);
    RunMoves(s, LOG, SECOND, Delivery.Accept(Some(1)), Delivery.Whole, LOG);
    MarksGrow(AccountOf(s, LOG), AccountOf(Step(s, AcceptedNow(SECOND)), LOG), SECOND,
              Delivery.ProcessDelivery(s, LOG, Delivery.Accept(Some(1)), Delivery.Whole).1, s.now);
    DeliverySafety(UNANSWERED + [AcceptedNow(SECOND)], LOG);
  }

  // ----- A death between the commit and the usage event -----

  const AFTER_COMMIT := Delivery.Cut(Delivery.AfterCommit, true)
  const DEATH := RunTask(LOG, JOB, Delivery.Accept(Some(1)), AFTER_COMMIT)

  lemma CallDies(s: Platform)
    requires LOG in s.msgs.logs
    ensures var r := Delivery.CallTelegram(s, LOG, 2, 42, ROW.content, Delivery.Accept(Some(1)), AFTER_COMMIT);
            && r.1 == Delivery.WasCut(true) && LOG in r.0.msgs.logs && r.0.msgs.logs[LOG].status == Sent
            && MarksOf(r.0.history, LOG)[EventLost] >= 1
  {
    hide MarksOf, Note;
    NoteAdds(s.history, LOG, multiset{Accepted, EventLost});
  }

  lemma SendDies(s: Platform)
    requires s.bots == BOTS && s.dests == DESTS && s.msgs == QUEUED && s.now == 0 && s.redis == map[]
    ensures var r := Delivery.ProcessDelivery(s, LOG, Delivery.Accept(Some(1)), AFTER_COMMIT);
            && r.1 == Delivery.WasCut(true) && LOG in r.0.msgs.logs && r.0.msgs.logs[LOG].status == Sent
            && MarksOf(r.0.history, LOG)[EventLost] >= 1
  {
    NothingInTheWay(s);
    hide Delivery.CheckThrottle, Delivery.Obstacle, Delivery.CallTelegram, MarksOf;
    CallDies(Delivery.CheckThrottle(s, 2, 42).0);
  }

  lemma DiesAfterCommit(s: Platform)
    requires s.bots == BOTS && s.dests == DESTS && s.msgs == QUEUED && s.now == 0 && s.redis == map[]
    requires JOB in Tickets(s.queue, LOG)
    ensures var s' := Step(s, DEATH);
            && LOG in s'.msgs.logs && s'.msgs.logs[LOG].status == Sent && MarksOf(s'.history, LOG)[EventLost] >= 1
  {
    SendDies(s);
    Frames.TaskFrame(s, LOG, JOB, Delivery.Accept(Some(1)), AFTER_COMMIT);
    hide Step, Delivery.ProcessDelivery, Delivery.Settle, MarksOf;
    SettlesDead(Delivery.ProcessDelivery(s, LOG, Delivery.Accept(Some(1)), AFTER_COMMIT).0);
  }

  lemma SettlesDead(s: Platform)
    ensures var s' := Delivery.Settle(s, LOG, JOB, Delivery.WasCut(true));
            s'.msgs == s.msgs && MarksOf(s'.history, LOG)[EventLost] >= MarksOf(s.history, LOG)[EventLost]
  {
    hide Take, MarksOf, Note;
    NoteAdds(s.history, LOG, Delivery.CutMarks(true));
  }

  /** A worker dies right after the commit of SENT: whatever happens next, that log never gets its usage event. */
  lemma ADeathLosesAUsageEvent(more: seq<Op>)
    ensures var s := Run([FOUND, REGISTER, CHAT, SEND] + [DEATH]);
            && LOG in s.msgs.logs && s.msgs.logs[LOG].status == Sent
            && MarksOf(RunFrom(s, more).history, LOG)[EventOut] == 0
  {
    hide Run, Step, Law;
    var s := Run([FOUND, REGISTER, CHAT, SEND] + [DEATH]);
    SentOff();
    DiesAfterCommit(Run([FOUND, REGISTER, CHAT, SEND]));
    OneMoreStep([FOUND, REGISTER, CHAT, SEND], DEATH);
    DeliverySafety([FOUND, REGISTER, CHAT, SEND] + [DEATH], LOG);
    RunKeepsLaw([FOUND, REGISTER, CHAT, SEND] + [DEATH], LOG);
    SentIsFinal(s, more, LOG);
  }

  // ----- A backlog that drains -----

  lemma OneIsOpen(s: Platform)
    requires s.msgs == QUEUED && Tickets(s.queue, LOG) == multiset{JOB}
    ensures OpenJobs(s, 2) == {LOG}
  {
  }

  lemma FirstSecond(s: Platform)
    requires s.calls == [] && s.now == 0 && Ready(s) && Delivery.CanRun(s, LOG, JOB)
    ensures NewSeconds(s, Step(s, AcceptedNow(JOB)), 2) == {0}
  {
    ReadyIsLive(s);
    assert Reaches(s, AcceptedNow(JOB));
    StepCalls(s, AcceptedNow(JOB));
    hide Step, Reaches, Ready, Delivery.CanRun;
    var calls := Step(s, AcceptedNow(JOB)).calls;
    assert calls == [FixedWindow.Call(BotKey(2), 0), FixedWindow.Call(ChatKey(2, 42), 0)];
    assert FixedWindow.Seconds(calls[0].at) == 0;
    assert ActiveSeconds(calls, 2) == {0};
  }

  lemma AcceptingOnce(s: Platform)
    ensures AllAccepting(s, [AcceptedNow(JOB)], 2) && RunFrom(s, [AcceptedNow(JOB)]) == Step(s, AcceptedNow(JOB))
  {
    hide Step, Passes;
    assert [AcceptedNow(JOB)][..0] == [];
  }

  /** The bound of `BacklogDrains` is met: one outstanding log, one second, and no job is left. */
  lemma ABacklogOfOneDrains()
    ensures var s, more := Run([FOUND, REGISTER, CHAT, SEND]), [AcceptedNow(JOB)];
            var s' := RunFrom(s, more);
            && AllAccepting(s, more, 2) && (forall op | op in more :: BringsNone(op))
            && NotFailed(s'.msgs, OpenJobs(s, 2)) == {LOG} && NewSeconds(s, s', 2) == {0}
            && NotFailed(s'.msgs, OpenJobs(s', 2)) == {}
  {
    hide Step, Run, RunFrom, Ready, Metered, Paired, AllAccepting, Delivery.CanRun, OpenJobs, NewSeconds, Law, AccountOf;
    var ops := [FOUND, REGISTER, CHAT, SEND];
    var s := Run(ops);
    SentOff();
    SentOffIsReady();
    RunMeans(ops);
    OneIsOpen(s);
    AcceptingOnce(s);
    LastAttempt(s, JOB);
    FirstSecond(s);
    BacklogDrains(ops, [AcceptedNow(JOB)], 2);
  }
}
