/** How many attempts on one log can fail, and what exhausting them leaves. */
module Retries {
  import opened Wrappers
  import opened Rows
  import opened Tables
  import opened State
  import opened Platforms
  import opened Ledger
  import opened Laws
  import opened Causes
  import Payload
  import Delivery
  import Frames

  /** Attempts a job may still fail. */
  ghost function Left(t: Ticket): nat {
    if t.retries <= Delivery.MAX_SEND_RETRIES then Delivery.MAX_SEND_RETRIES + 1 - t.retries else 0
  }

  ghost function AllLeft(tickets: multiset<Ticket>): nat {
    if tickets == multiset{} then 0
    else
      var t :| t in tickets;
      Left(t) + AllLeft(tickets - multiset{t})
  }

  lemma {:induction false} LeftSplits(tickets: multiset<Ticket>, t: Ticket)
    requires t in tickets
    ensures AllLeft(tickets) == Left(t) + AllLeft(tickets - multiset{t})
    decreases |tickets|
  {
    var u :| u in tickets && AllLeft(tickets) == Left(u) + AllLeft(tickets - multiset{u});
    if u != t {
      LeftSplits(tickets - multiset{u}, t);
      LeftSplits(tickets - multiset{t}, u);
      assert tickets - multiset{u} - multiset{t} == tickets - multiset{t} - multiset{u};
    }
  }

  lemma LeftGrows(tickets: multiset<Ticket>, t: Ticket)
    ensures AllLeft(tickets + multiset{t}) == Left(t) + AllLeft(tickets)
  {
    LeftSplits(tickets + multiset{t}, t);
    assert tickets + multiset{t} - multiset{t} == tickets;
  }

  /** Failed attempts so far, and those the outstanding jobs may still add, stay within what throttled requeues,
      redelivered copies and executions cut short allow. */
  ghost predicate RetryLaw(a: Account) {
    a.marks[Rejected] + AllLeft(a.tickets)
    <= 5 * a.marks[Throttled] + 6 * (1 + a.marks[Copied]) + a.marks[CutOff]
  }

  lemma FirstTaskKeepsRetry(a: Account, a': Account, now: nat, dropped: bool)
    requires FirstTask(a, a', now, dropped) && a.tickets == multiset{} && a.marks == multiset{}
    ensures RetryLaw(a')
  {
    LeftGrows(multiset{}, Ticket(0, now));
  }

  /** What one processed delivery adds to the failed attempts. */
  lemma ProcessedAddsOne(a: Account, a': Account, outcome: Delivery.Outcome, now: nat)
    requires Processed(a, a', outcome, now)
    ensures a'.tickets == a.tickets && a'.marks[Copied] == a.marks[Copied] && a'.marks[CutOff] == a.marks[CutOff]
    ensures a'.marks[Rejected] <= a.marks[Rejected] + if outcome.WasRejected? || outcome.WasCut? then 1 else 0
    ensures a'.marks[Throttled] == a.marks[Throttled] + if outcome.WasThrottled? then 1 else 0
  {
    hide Payload.SendViaTelegram;
  }

  lemma SettledMarks(a: Account, a': Account, t: Ticket, outcome: Delivery.Outcome, now: nat)
    requires Settled(a, a', t, outcome, now)
    ensures a'.tickets == TicketsAfter(a.tickets, t, outcome, now)
    ensures a'.marks[Rejected] == a.marks[Rejected] && a'.marks[Throttled] == a.marks[Throttled]
    ensures a'.marks[Copied] == a.marks[Copied]
    ensures a'.marks[CutOff] == a.marks[CutOff] + if outcome.WasCut? then 1 else 0
  {
    hide TicketsAfter;
  }

  lemma LeftAfter(tickets: multiset<Ticket>, t: Ticket, outcome: Delivery.Outcome, now: nat)
    requires t in tickets && t.retries <= Delivery.MAX_SEND_RETRIES
    ensures AllLeft(TicketsAfter(tickets, t, outcome, now)) + (if outcome.WasRejected? then 1 else 0)
            <= AllLeft(tickets) + if outcome.WasThrottled? then 5 else 0
  {
    hide AllLeft;
    LeftSplits(tickets, t);
    if outcome.WasThrottled? {
      LeftGrows(tickets - multiset{t}, Delivery.Postponed(now));
    } else if outcome.WasRejected? && t.retries < Delivery.MAX_SEND_RETRIES {
      LeftGrows(tickets - multiset{t}, Delivery.Retried(t, now));
    }
  }

  lemma RanKeepsRetry(a: Account, a': Account, t: Ticket, outcome: Delivery.Outcome, now: nat)
    requires Law(a) && RetryLaw(a) && Ran(a, a', t, outcome, now)
    ensures RetryLaw(a')
  {
    var a1 :| Processed(a, a1, outcome, now) && Settled(a1, a', t, outcome, now);
    assert TicketLaw(a, t);
    LeftAfter(a.tickets, t, outcome, now);
    hide Processed, Settled, AllLeft, TicketsAfter, Law, TicketLaw;
    ProcessedAddsOne(a, a1, outcome, now);
    SettledMarks(a1, a', t, outcome, now);
  }

  lemma CopyKeepsRetry(a: Account, t: Ticket)
    requires RetryLaw(a)
    ensures RetryLaw(a.(tickets := a.tickets + multiset{t}, marks := a.marks + multiset{Copied}))
  {
    LeftGrows(a.tickets, t);
    hide AllLeft;
  }

  lemma EnqueuedKeepsRetry(a: Account, a': Account, now: nat, dropped: bool)
    requires Law(a) && RetryLaw(a) && (Created(a, a', now, dropped) || DispatchedNow(a, a', now, dropped))
    ensures RetryLaw(a')
  {
    hide AllLeft, Payload.SendViaTelegram, TicketLaw;
    if FirstTask(a, a', now, dropped) {
      FirstTaskKeepsRetry(a, a', now, dropped);
    }
    hide FirstTask;
  }

  lemma MoveKeepsRetry(l: LogKey, a: Account, a': Account, op: Op, outcome: Delivery.Outcome, now: nat)
    requires Law(a) && RetryLaw(a) && Moves(l, a, a', op, outcome, now)
    ensures RetryLaw(a')
  {
    hide Law, Created, DispatchedNow, Ran, Fits, AllLeft;
    if a' != a {
      match op
      case CreateMessage(_, _, _, lost) => EnqueuedKeepsRetry(a, a', now, l in lost);
      case Dispatch(lost) => EnqueuedKeepsRetry(a, a', now, l in lost);
      case RunTask(_, t, _, _) => RanKeepsRetry(a, a', t, outcome, now);
      case Redeliver(_, t) => CopyKeepsRetry(a, t);
      case _ =>
    }
  }

  lemma {:induction false} RunKeepsRetry(ops: seq<Op>, l: LogKey)
    ensures RetryLaw(AccountOf(Run(ops), l))
  {
    if ops == [] {
      NothingIsLawful(l);
    } else {
      var before, op := ops[..|ops| - 1], ops[|ops| - 1];
      hide Law, RetryLaw, AccountOf, Step, Moves, OutcomeOf;
      RunKeepsRetry(before, l);
      RunKeepsLaw(before, l);
      StepMoves(Run(before), op, l);
      MoveKeepsRetry(l, AccountOf(Run(before), l), AccountOf(Run(ops), l), op, OutcomeOf(Run(before), op), Run(before).now);
    }
  }

  /** In every run: with k throttled requeues of a log, c redelivered copies of its jobs and d of its executions cut
      short, at most 5k + 6(1 + c) + d attempts on it fail. */
  lemma FailedAttemptsBounded(ops: seq<Op>, l: LogKey)
    ensures var marks := MarksOf(Run(ops).history, l);
            marks[Rejected] <= 5 * marks[Throttled] + 6 * (1 + marks[Copied]) + marks[CutOff]
  {
    RunKeepsRetry(ops, l);
    hide Run, AllLeft;
  }

  /** A call at the fifth retry that Telegram refuses, or accepts without a reply, leaves the log FAILED with a reason
      and without this job; without throttling that is at least 31 seconds after the log's first job was enqueued. */
  lemma ExhaustionIsRecorded(ops: seq<Op>, l: LogKey, t: Ticket, answer: Delivery.Answer)
    requires CallsTelegram(Run(ops), RunTask(l, t, answer, Delivery.Whole), l) && t.retries >= 5 && !answer.Accept?
    ensures var s, s' := Run(ops), Step(Run(ops), RunTask(l, t, answer, Delivery.Whole));
            && t.retries == 5
            && l in s'.msgs.logs && s'.msgs.logs[l].status == Failed && s'.msgs.logs[l].errorReason.Some?
            && Tickets(s'.queue, l) == Tickets(s.queue, l) - multiset{t}
            && l.message in s.msgs.messages && l in s.msgs.logs
            && (MarksOf(s.history, l)[Throttled] == 0 ==>
                  s.now >= StartOf(s.msgs.messages[l.message], s.msgs.logs[l]) + 31000)
  {
    hide Run, Step, Law, CallsTelegram, Delivery.RunTask, Delivery.ProcessDelivery, Delivery.CanRun;
    var s := Run(ops);
    RunKeepsLaw(ops, l);
    ErrorIsRejected(s, l, t, answer);
    ExhaustingStep(s, l, t, answer);
    Exhausts(s, l, t, answer);
  }

  lemma ExhaustingStep(s: Platform, l: LogKey, t: Ticket, answer: Delivery.Answer)
    requires CallsTelegram(s, RunTask(l, t, answer, Delivery.Whole), l)
    ensures Delivery.CanRun(s, l, t)
    ensures Step(s, RunTask(l, t, answer, Delivery.Whole)) == Delivery.RunTask(s, l, t, answer, Delivery.Whole)
  {
    Frames.TaskFrame(s, l, t, answer, Delivery.Whole);
    hide Step, Delivery.RunTask, Delivery.CanRun;
  }

  lemma RanExhausted(a: Account, a': Account, t: Ticket, outcome: Delivery.Outcome, now: nat)
    requires Law(a) && Ran(a, a', t, outcome, now) && Exhausted(t, outcome)
    ensures t.retries == 5 && a'.row.Some? && a.row.Some? && a.message.Some?
    ensures a'.row.value.status == Failed && a'.row.value.errorReason.Some?
    ensures a'.tickets == a.tickets - multiset{t}
    ensures a.marks[Throttled] == 0 ==> now >= StartOf(a.message.value, a.row.value) + 31000
  {
    var a1 :| Processed(a, a1, outcome, now) && Settled(a1, a', t, outcome, now);
    assert TicketLaw(a, t);
    Delivery.BackoffTotal();
  }

  lemma Exhausts(s: Platform, l: LogKey, t: Ticket, answer: Delivery.Answer)
    requires Law(AccountOf(s, l)) && Delivery.CanRun(s, l, t) && t.retries >= 5
    requires Delivery.ProcessDelivery(s, l, answer, Delivery.Whole).1.WasRejected?
    ensures var a, a' := AccountOf(s, l), AccountOf(Delivery.RunTask(s, l, t, answer, Delivery.Whole), l);
            && t.retries == 5 && a'.row.Some? && a.row.Some? && a.message.Some?
            && a'.row.value.status == Failed && a'.row.value.errorReason.Some?
            && a'.tickets == a.tickets - multiset{t}
            && (a.marks[Throttled] == 0 ==> s.now >= StartOf(a.message.value, a.row.value) + 31000)
  {
    hide Delivery.RunTask, Delivery.ProcessDelivery, AccountOf, Law, Ran;
    var outcome := Delivery.ProcessDelivery(s, l, answer, Delivery.Whole).1;
    RunMoves(s, l, t, answer, Delivery.Whole, l);
    RanExhausted(AccountOf(s, l), AccountOf(Delivery.RunTask(s, l, t, answer, Delivery.Whole), l), t, outcome, s.now);
  }
}
