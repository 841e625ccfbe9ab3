/** No delivery is lost or doubled: what holds when the broker delivers every task once. */
module Conservation {
  import opened Wrappers
  import opened Rows
  import opened Tables
  import opened State
  import opened Platforms
  import opened Ledger
  import opened Laws
  import Payload
  import Messaging
  import Delivery

  /** One job, lost or outstanding, for a queued log that is past the dispatcher, none for a failed one. A log
      recorded SENT has none either, unless the execution that recorded it was cut short right after. */
  ghost predicate CleanLaw(a: Account) {
    && |a.tickets| + Lost(a) <= 1
    && (a.row.Some? && a.message.Some? && !Held(a.message.value) ==>
          match a.row.value.status
          case Queued => |a.tickets| + Lost(a) == 1
          case Failed => |a.tickets| + Lost(a) == 0
          case Sent => |a.tickets| + Lost(a) <= a.marks[EventLost])
  }

  lemma OnlyTicket(tickets: multiset<Ticket>, t: Ticket)
    requires t in tickets && |tickets| <= 1
    ensures tickets == multiset{t} && tickets - multiset{t} == multiset{}
  {
    var rest := tickets - multiset{t};
    assert |rest| == |tickets| - 1 == 0;
    assert tickets == rest + multiset{t};
  }

  lemma FirstTaskClean(a: Account, a': Account, now: nat, dropped: bool)
    requires FirstTask(a, a', now, dropped) && a.tickets == multiset{} && a.marks == multiset{}
    ensures |a'.tickets| + Lost(a') == 1
  {
    assert !dropped ==> a'.tickets == multiset{} + multiset{Ticket(0, now)} == multiset{Ticket(0, now)};
  }

  lemma CreatedKeepsClean(a: Account, a': Account, now: nat, dropped: bool)
    requires Law(a) && Created(a, a', now, dropped)
    ensures CleanLaw(a')
  {
    assert a == NOTHING;
    if a'.row.Some? && a'.message.value.scheduledAt.None? {
      FirstTaskClean(a, a', now, dropped);
    }
    hide TicketLaw, FirstTask, Payload.SendViaTelegram;
  }

  lemma DispatchedKeepsClean(a: Account, a': Account, now: nat, dropped: bool)
    requires Law(a) && CleanLaw(a) && DispatchedNow(a, a', now, dropped)
    ensures CleanLaw(a')
  {
    if a.row.Some? {
      FirstTaskClean(a, a', now, dropped);
    }
    hide TicketLaw, FirstTask, Payload.SendViaTelegram;
  }

  /** Between processing and settling: the one job is still there. */
  lemma ProcessedClean(a: Account, a1: Account, outcome: Delivery.Outcome, now: nat)
    requires Processed(a, a1, outcome, now)
    ensures Lost(a1) == Lost(a) && a1.message == a.message && a1.tickets == a.tickets
    ensures a1.marks[EventLost] >= a.marks[EventLost]
    ensures a1.row.Some? ==> a.row.Some? && a1.row.value.status in {a.row.value.status, Sent, Failed}
    ensures outcome.WasThrottled? ==> a1.row == a.row
    ensures outcome.WasRejected? ==> a1.row == a.row && a.row.Some?
    ensures outcome.WasSkipped? ==> a1 == a && !Unsent(a)
    ensures outcome.WasCut? && a1.row != a.row ==> a1.row.Some? && a1.row.value.status == Sent && a1.marks[EventLost] > 0
    ensures outcome.WasFailed? ==> a1.row.Some? && a1.row.value.status == Failed
    ensures outcome.WasSent? ==> a1.row.Some? && a1.row.value.status == Sent
  {
    hide Payload.SendViaTelegram;
  }

  lemma SettledClean(a: Account, a': Account, t: Ticket, outcome: Delivery.Outcome, now: nat)
    requires Settled(a, a', t, outcome, now) && a.tickets == multiset{t}
    ensures a'.message == a.message && a'.marks[EventLost] == a.marks[EventLost]
    ensures outcome.WasCut? ==> a'.row == a.row && |a'.tickets| + Lost(a') == 1 + Lost(a)
    ensures !outcome.WasCut? ==> Lost(a') == Lost(a)
    ensures outcome.WasThrottled? || (outcome.WasRejected? && !Exhausted(t, outcome)) ==>
              a'.row == a.row && |a'.tickets| == 1
    ensures Exhausted(t, outcome) ==>
              |a'.tickets| == 0 && (a.row.Some? ==> a'.row.Some? && a'.row.value.status == Failed)
    ensures outcome.WasSkipped? || outcome.WasFailed? || outcome.WasSent? || outcome.WasLost? ==>
              a'.row == a.row && |a'.tickets| == 0
  {
    TicketsAfterOne(t, outcome, now);
    hide TicketsAfter, Delivery.Postponed, Delivery.Retried;
  }

  lemma RanKeepsClean(a: Account, a': Account, t: Ticket, outcome: Delivery.Outcome, now: nat)
    requires Law(a) && CleanLaw(a) && Ran(a, a', t, outcome, now)
    ensures CleanLaw(a')
  {
    hide Processed, Settled, TicketLaw, Lost, Payload.SendViaTelegram, RowLaw, Balanced, Held;
    var a1 :| Processed(a, a1, outcome, now) && Settled(a1, a', t, outcome, now);
    RanKeepsLaw(a, a', t, outcome, now);
    hide Ran;
    OnlyTicket(a.tickets, t);
    assert |a.tickets| == 1 && Lost(a) == 0 && a.message.Some? && !Held(a.message.value);
    hide Law;
    ProcessedClean(a, a1, outcome, now);
    SettledClean(a1, a', t, outcome, now);
  }

  lemma TicketsAfterOne(t: Ticket, outcome: Delivery.Outcome, now: nat)
    ensures TicketsAfter(multiset{t}, t, outcome, now) ==
            match outcome
            case WasCut(kept) => if kept then multiset{t} else multiset{}
            case WasThrottled => multiset{Delivery.Postponed(now)}
            case WasRejected(_) =>
              if t.retries >= Delivery.MAX_SEND_RETRIES then multiset{} else multiset{Delivery.Retried(t, now)}
            case _ => multiset{}
  {
    assert multiset{t} - multiset{t} == multiset{};
  }

  lemma MoveKeepsClean(l: LogKey, a: Account, a': Account, op: Op, outcome: Delivery.Outcome, now: nat)
    requires Law(a) && CleanLaw(a) && Moves(l, a, a', op, outcome, now) && !op.Redeliver?
    ensures CleanLaw(a')
  {
    hide Law, Created, DispatchedNow, Ran, Fits;
    if a' != a {
      match op
      case CreateMessage(_, _, _, lost) => CreatedKeepsClean(a, a', now, l in lost);
      case Dispatch(lost) => DispatchedKeepsClean(a, a', now, l in lost);
      case RunTask(_, t, _, _) => RanKeepsClean(a, a', t, outcome, now);
      case _ =>
    }
  }

  lemma StepKeepsClean(s: Platform, op: Op, l: LogKey)
    requires Law(AccountOf(s, l)) && CleanLaw(AccountOf(s, l)) && !op.Redeliver?
    ensures CleanLaw(AccountOf(Step(s, op), l))
  {
    hide Law, CleanLaw, Moves, AccountOf, Step, OutcomeOf;
    StepMoves(s, op, l);
    MoveKeepsClean(l, AccountOf(s, l), AccountOf(Step(s, op), l), op, OutcomeOf(s, op), s.now);
  }

  /** The broker delivers every task once. */
  ghost predicate NoCopies(ops: seq<Op>) {
    forall op | op in ops :: !op.Redeliver?
  }

  lemma {:induction false} CleanFrom(s: Platform, ops: seq<Op>, l: LogKey)
    requires Law(AccountOf(s, l)) && CleanLaw(AccountOf(s, l)) && NoCopies(ops)
    ensures CleanLaw(AccountOf(RunFrom(s, ops), l))
  {
    hide Law, CleanLaw, AccountOf, Step;
    if ops != [] {
      CleanFrom(s, ops[..|ops| - 1], l);
      LawFrom(s, ops[..|ops| - 1], l);
      StepKeepsClean(RunFrom(s, ops[..|ops| - 1]), ops[|ops| - 1], l);
    }
  }

  lemma NothingIsClean()
    ensures CleanLaw(NOTHING)
  {
  }

  lemma RunKeepsClean(ops: seq<Op>, l: LogKey)
    requires NoCopies(ops)
    ensures Law(AccountOf(Run(ops), l)) && CleanLaw(AccountOf(Run(ops), l))
  {
    hide Law, CleanLaw, AccountOf, Step;
    NothingIsLawful(l);
    NothingIsClean();
    RunKeepsLaw(ops, l);
    CleanFrom(EMPTY, ops, l);
  }

  /** Nothing dies: every enqueue happens, every execution runs to its end, once. */
  ghost predicate Reliable(op: Op) {
    && !op.Redeliver?
    && (op.CreateMessage? ==> op.lost == {}) && (op.Dispatch? ==> op.lost == {})
    && (op.RunTask? ==> op.fate.Whole?)
  }

  /** No job is lost, nothing accepted is forgotten. */
  ghost predicate KeepsCount(marks: multiset<Mark>, marks': multiset<Mark>) {
    && marks'[EnqueueLost] == marks[EnqueueLost] && marks'[JobLost] == marks[JobLost]
    && marks'[Unrecorded] == marks[Unrecorded] && marks'[EventLost] == marks[EventLost]
  }

  lemma ProcessedReliably(a: Account, a': Account, outcome: Delivery.Outcome, now: nat)
    requires Processed(a, a', outcome, now) && !outcome.WasCut?
    ensures KeepsCount(a.marks, a'.marks)
  {
    hide Payload.SendViaTelegram;
  }

  lemma SettledReliably(a: Account, a': Account, t: Ticket, outcome: Delivery.Outcome, now: nat)
    requires Settled(a, a', t, outcome, now) && !outcome.WasCut?
    ensures a'.marks == a.marks
  {
    hide TicketsAfter;
  }

  lemma RanReliably(a: Account, a': Account, t: Ticket, outcome: Delivery.Outcome, now: nat)
    requires Ran(a, a', t, outcome, now) && !outcome.WasCut?
    ensures KeepsCount(a.marks, a'.marks)
  {
    var a1 :| Processed(a, a1, outcome, now) && Settled(a1, a', t, outcome, now);
    hide Processed, Settled, KeepsCount;
    ProcessedReliably(a, a1, outcome, now);
    SettledReliably(a1, a', t, outcome, now);
  }

  lemma MoveReliably(l: LogKey, a: Account, a': Account, op: Op, outcome: Delivery.Outcome, now: nat)
    requires Law(a) && Moves(l, a, a', op, outcome, now) && Reliable(op)
    ensures Lost(a') == Lost(a) && a'.marks[Unrecorded] == a.marks[Unrecorded]
    ensures a'.marks[EventLost] == a.marks[EventLost]
  {
    hide Ran, Payload.SendViaTelegram, TicketLaw;
    if a' != a && op.RunTask? {
      RanReliably(a, a', op.ticket, outcome, now);
    }
  }

  lemma ReliableStep(s: Platform, op: Op, l: LogKey)
    requires Reliable(op) && Law(AccountOf(s, l))
    ensures var a, a' := AccountOf(s, l), AccountOf(Step(s, op), l);
            && Lost(a') == Lost(a) && a'.marks[Unrecorded] == a.marks[Unrecorded]
            && a'.marks[EventLost] == a.marks[EventLost]
  {
    hide AccountOf, Step, OutcomeOf, Law, Moves, Lost;
    StepMoves(s, op, l);
    MoveReliably(l, AccountOf(s, l), AccountOf(Step(s, op), l), op, OutcomeOf(s, op), s.now);
  }

  lemma {:induction false} ReliableRun(ops: seq<Op>, l: LogKey)
    requires forall op | op in ops :: Reliable(op)
    ensures var a := AccountOf(Run(ops), l); Lost(a) == 0 && a.marks[Unrecorded] == 0 && a.marks[EventLost] == 0
  {
    if ops == [] {
      NothingIsLawful(l);
    } else {
      hide AccountOf, Step, Law, Lost;
      ReliableRun(ops[..|ops| - 1], l);
      RunKeepsLaw(ops[..|ops| - 1], l);
      assert ops[|ops| - 1] in ops;
      ReliableStep(Run(ops[..|ops| - 1]), ops[|ops| - 1], l);
    }
  }

  /** Conservation. In every state a reliable run reaches, a QUEUED log of a message that is not waiting for its
      dispatch has exactly one outstanding job, a SENT or FAILED log has none, and a log that waits for its dispatch
      has none; Telegram accepted exactly the SENT logs, once each, apart from acceptances reported as errors. */
  lemma NoneLostNoneDoubled(ops: seq<Op>, l: LogKey)
    requires forall op | op in ops :: Reliable(op)
    requires l in Run(ops).msgs.logs
    ensures var s := Run(ops);
            && l.message in s.msgs.messages
            && (|Tickets(s.queue, l)| ==
                if s.msgs.logs[l].status == Queued && !Held(s.msgs.messages[l.message]) then 1 else 0)
            && var marks := MarksOf(s.history, l);
            marks[Accepted] == (if s.msgs.logs[l].status == Sent then 1 else 0) + marks[Unreported]
  {
    ReliableRun(ops, l);
    RunKeepsClean(ops, l);
    hide Run, Payload.SendViaTelegram, TicketLaw;
  }
}
