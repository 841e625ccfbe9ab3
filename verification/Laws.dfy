/** The laws every delivery log's account obeys, in every run and whatever is redelivered or dies. */
module Laws {
  import opened Wrappers
  import opened Rows
  import opened Tables
  import opened State
  import opened Platforms
  import opened Ledger
  import Payload
  import Messaging
  import Delivery

  const NOTHING := Account(None, None, multiset{}, multiset{})

  /** How often the log was committed as SENT. */
  ghost function TimesSent(marks: multiset<Mark>): nat {
    marks[EventOut] + marks[EventLost]
  }

  /** The row says what happened: SENT with a sending time and one usage event, enqueued or lost, FAILED with a reason. */
  ghost predicate RowLaw(message: Message, row: DeliveryLog, marks: multiset<Mark>) {
    && row.tenant == message.tenant
    && (row.status == Sent <==> row.sentAt.Some?)
    && (row.status == Failed <==> row.errorReason.Some?)
    && TimesSent(marks) == (if row.status == Sent then 1 else 0)
    && (Held(message) ==> row.status == Queued)
  }

  /** Every acceptance is accounted for: recorded SENT once, or cut off before the commit, or reported as an error. */
  ghost predicate Balanced(marks: multiset<Mark>) {
    TimesSent(marks) <= 1 && marks[Accepted] == TimesSent(marks) + marks[Unrecorded] + marks[Unreported]
  }

  /** Retries are counted up to five; without throttling, retry n starts no sooner than the backoff allows. */
  ghost predicate TicketLaw(a: Account, t: Ticket) {
    && t.retries <= Delivery.MAX_SEND_RETRIES
    && (a.marks[Throttled] == 0 && a.row.Some? && a.message.Some? ==>
          StartOf(a.message.value, a.row.value) + 1000 * Delivery.WaitBefore(t.retries) <= t.eta)
  }

  ghost predicate MessageLaw(a: Account) {
    && (a.message.None? ==> a == NOTHING)
    && (a.message.Some? ==> Payload.SendViaTelegram(a.message.value.content).Ok?)
    && (a.message.Some? && a.message.value.scheduledAt.None? ==> a.message.value.dispatchedAt.None?)
    && (a.message.Some? && Held(a.message.value) ==> a.tickets == multiset{} && a.marks == multiset{})
  }

  /** What holds of every log in every run. */
  ghost predicate Law(a: Account) {
    && MessageLaw(a) && Balanced(a.marks)
    && (a.row.Some? ==> a.message.Some? && RowLaw(a.message.value, a.row.value, a.marks))
    && (forall t | t in a.tickets :: TicketLaw(a, t))
  }

  lemma FirstTicketLawful(a: Account, now: nat)
    requires a.message.Some? && a.row.Some? && StartOf(a.message.value, a.row.value) == now
    ensures TicketLaw(a, Ticket(0, now))
  {
    assert Delivery.WaitBefore(0) == 0;
  }

  lemma FirstTaskLawful(a: Account, a': Account, now: nat, dropped: bool)
    requires FirstTask(a, a', now, dropped) && a.tickets == multiset{} && a.marks == multiset{}
    requires a'.message.Some? && a'.row.Some? && StartOf(a'.message.value, a'.row.value) == now
    ensures Balanced(a'.marks) && TimesSent(a'.marks) == 0 && forall t | t in a'.tickets :: TicketLaw(a', t)
  {
    if !dropped {
      assert a'.tickets == multiset{} + multiset{Ticket(0, now)} == multiset{Ticket(0, now)};
      FirstTicketLawful(a', now);
    }
    hide TicketLaw;
  }

  lemma CreatedKeepsLaw(a: Account, a': Account, now: nat, dropped: bool)
    requires Law(a) && Created(a, a', now, dropped)
    ensures Law(a')
  {
    assert a == NOTHING;
    if a'.row.Some? && a'.message.value.scheduledAt.None? {
      FirstTaskLawful(a, a', now, dropped);
    }
    hide TicketLaw, FirstTask, Payload.SendViaTelegram;
  }

  lemma DispatchedKeepsLaw(a: Account, a': Account, now: nat, dropped: bool)
    requires Law(a) && DispatchedNow(a, a', now, dropped)
    ensures Law(a')
  {
    if a.row.Some? {
      FirstTaskLawful(a, a', now, dropped);
    }
    hide TicketLaw, FirstTask, Payload.SendViaTelegram;
  }

  lemma CancelledKeepsLaw(a: Account, a': Account)
    requires Law(a) && Cancelled(a, a')
    ensures Law(a')
  {
    forall t | t in a'.tickets
      ensures TicketLaw(a', t)
    {
      assert TicketLaw(a, t);
    }
  }

  /** The law of the row and its marks, apart from the jobs. */
  ghost predicate BookLaw(a: Account) {
    Balanced(a.marks) && (a.row.Some? ==> a.message.Some? && RowLaw(a.message.value, a.row.value, a.marks))
  }

  lemma ErroredKeepsBook(a: Account, a': Account)
    requires BookLaw(a) && Errored(a, a')
    ensures BookLaw(a') && a'.marks[Throttled] == a.marks[Throttled]
  {
  }

  lemma RecordedKeepsBook(a: Account, a': Account, marks: multiset<Mark>, now: nat)
    requires BookLaw(a) && Unsent(a) && Recorded(a, a', marks, now) && !Held(a.message.value)
    requires marks == multiset{Accepted, EventOut} || marks == multiset{Accepted, EventLost}
    ensures BookLaw(a') && a'.marks[Throttled] == a.marks[Throttled]
  {
  }

  lemma InterruptedKeepsBook(a: Account, a': Account, now: nat)
    requires BookLaw(a) && Interrupted(a, a', now) && a.message.Some? && !Held(a.message.value)
    ensures BookLaw(a') && a'.marks[Throttled] == a.marks[Throttled]
  {
    if Errored(a, a') {
      ErroredKeepsBook(a, a');
    } else if Recorded(a, a', multiset{Accepted, EventLost}, now) {
      RecordedKeepsBook(a, a', multiset{Accepted, EventLost}, now);
    }
    hide Errored, Recorded;
  }

  /** Processing keeps everything except that the jobs are still to be settled. */
  lemma ProcessedKeepsRowLaw(a: Account, a': Account, outcome: Delivery.Outcome, now: nat)
    requires BookLaw(a) && Processed(a, a', outcome, now) && a.message.Some? && !Held(a.message.value)
    requires Payload.SendViaTelegram(a.message.value.content).Ok?
    ensures BookLaw(a') && !outcome.WasLost? && a'.marks[Throttled] >= a.marks[Throttled]
    ensures outcome.WasThrottled? ==> a'.marks[Throttled] > 0
  {
    match outcome
    case WasCut(_) => InterruptedKeepsBook(a, a', now); hide BookLaw, Interrupted;
    case WasRejected(_) => ErroredKeepsBook(a, a'); hide BookLaw, Errored;
    case WasSent => RecordedKeepsBook(a, a', multiset{Accepted, EventOut}, now); hide BookLaw, Recorded;
    case _ => hide Payload.SendViaTelegram;
  }

  lemma SettledKeepsRowLaw(a: Account, a': Account, t: Ticket, outcome: Delivery.Outcome, now: nat)
    requires BookLaw(a) && Settled(a, a', t, outcome, now)
    requires outcome.WasRejected? ==> Unsent(a)
    requires a.message.Some? ==> !Held(a.message.value)
    ensures BookLaw(a') && a'.marks[Throttled] == a.marks[Throttled]
  {
    hide TicketsAfter;
  }

  lemma TicketsKeepLaw(a: Account, a': Account, t: Ticket, outcome: Delivery.Outcome, now: nat)
    requires forall u | u in a.tickets :: TicketLaw(a, u)
    requires t in a.tickets && t.eta <= now && a'.tickets == TicketsAfter(a.tickets, t, outcome, now)
    requires a'.message == a.message && a'.marks[Throttled] >= a.marks[Throttled] && (a'.row.Some? <==> a.row.Some?)
    requires a.row.Some? ==> a'.row.value.createdAt == a.row.value.createdAt
    requires outcome.WasThrottled? ==> a'.marks[Throttled] > 0
    ensures forall u | u in a'.tickets :: TicketLaw(a', u)
  {
    assert TicketLaw(a, t);
    forall u | u in a'.tickets
      ensures TicketLaw(a', u)
    {
      if u in a.tickets {
        assert TicketLaw(a, u);
      } else if outcome.WasRejected? {
        assert u == Delivery.Retried(t, now);
        assert Delivery.WaitBefore(u.retries) == Delivery.WaitBefore(t.retries) + Delivery.Pow2(t.retries);
      }
    }
  }

  lemma RanKeepsLaw(a: Account, a': Account, t: Ticket, outcome: Delivery.Outcome, now: nat)
    requires Law(a) && Ran(a, a', t, outcome, now)
    ensures Law(a') && !outcome.WasLost?
  {
    var a1 :| Processed(a, a1, outcome, now) && Settled(a1, a', t, outcome, now);
    assert a.tickets != multiset{} && (a.message.Some? ==> !Held(a.message.value)) && a.message.Some?;
    assert a'.tickets == TicketsAfter(a1.tickets, t, outcome, now);
    hide Processed, Settled, RowLaw, TicketLaw, Balanced, Payload.SendViaTelegram, TicketsAfter, Unsent;
    ProcessedFrame(a, a1, outcome, now);
    SettledFrame(a1, a', t, outcome, now);
    ProcessedKeepsRowLaw(a, a1, outcome, now);
    SettledKeepsRowLaw(a1, a', t, outcome, now);
    TicketsKeepLaw(a, a', t, outcome, now);
  }

  lemma RestKeepsLaw(a: Account, a': Account, t: Ticket)
    requires Law(a)
    requires a' == a.(row := None)
             || (t in a.tickets && a' == a.(tickets := a.tickets + multiset{t}, marks := a.marks + multiset{Copied}))
    ensures Law(a')
  {
    forall u | u in a'.tickets
      ensures TicketLaw(a', u)
    {
      assert TicketLaw(a, u);
    }
  }

  lemma MoveKeepsLaw(l: LogKey, a: Account, a': Account, op: Op, outcome: Delivery.Outcome, now: nat)
    requires Law(a) && Moves(l, a, a', op, outcome, now)
    ensures Law(a')
  {
    hide Law, Created, DispatchedNow, Cancelled, Ran, Fits;
    if a' != a {
      match op
      case CreateMessage(_, _, _, lost) => CreatedKeepsLaw(a, a', now, l in lost);
      case Dispatch(lost) => DispatchedKeepsLaw(a, a', now, l in lost);
      case DeleteOrganization(_, _) => CancelledKeepsLaw(a, a');
      case RunTask(_, t, _, _) => RanKeepsLaw(a, a', t, outcome, now);
      case Redeliver(_, t) => RestKeepsLaw(a, a', t);
      case PurgeLogs(_, _, _) => RestKeepsLaw(a, a', Ticket(0, 0));
    }
  }

  /** One step keeps the law of every log. */
  lemma StepKeepsLaw(s: Platform, op: Op, l: LogKey)
    requires Law(AccountOf(s, l))
    ensures Law(AccountOf(Step(s, op), l))
  {
    hide Law, Moves, AccountOf, Step, OutcomeOf;
    StepMoves(s, op, l);
    MoveKeepsLaw(l, AccountOf(s, l), AccountOf(Step(s, op), l), op, OutcomeOf(s, op), s.now);
  }

  lemma {:induction false} LawFrom(s: Platform, ops: seq<Op>, l: LogKey)
    requires Law(AccountOf(s, l))
    ensures Law(AccountOf(RunFrom(s, ops), l))
  {
    hide Law, AccountOf, Step;
    if ops != [] {
      LawFrom(s, ops[..|ops| - 1], l);
      StepKeepsLaw(RunFrom(s, ops[..|ops| - 1]), ops[|ops| - 1], l);
    }
  }

  lemma NothingIsLawful(l: LogKey)
    ensures AccountOf(EMPTY, l) == NOTHING && Law(NOTHING)
  {
    assert AccountOf(EMPTY, l) == NOTHING;
  }

  lemma RunKeepsLaw(ops: seq<Op>, l: LogKey)
    ensures Law(AccountOf(Run(ops), l))
  {
    NothingIsLawful(l);
    LawFrom(EMPTY, ops, l);
  }

  /** Safety of delivery over every run: with any redeliveries and lost enqueues, executions cut short at any of four
      points, and errors that hide an acceptance. A log is recorded SENT at most once. Every acceptance is that one,
      or was cut off before the commit, or was reported as an error; every recording enqueues one usage event, unless
      it was cut off in between. The row's columns agree with its status; a log never meets an unsendable message;
      a log that waits for the dispatcher has no job. */
  lemma DeliverySafety(ops: seq<Op>, l: LogKey)
    ensures var s := Run(ops);
            var marks := MarksOf(s.history, l);
            && marks[EventOut] + marks[EventLost] <= 1
            && marks[Accepted] == marks[EventOut] + marks[EventLost] + marks[Unrecorded] + marks[Unreported]
            && (forall t | t in Tickets(s.queue, l) :: t.retries <= Delivery.MAX_SEND_RETRIES)
            && (l in s.msgs.logs ==>
                  && l.message in s.msgs.messages
                  && s.msgs.logs[l].tenant == s.msgs.messages[l.message].tenant
                  && Payload.SendViaTelegram(s.msgs.messages[l.message].content).Ok?
                  && (s.msgs.logs[l].status == Sent <==> s.msgs.logs[l].sentAt.Some?)
                  && (s.msgs.logs[l].status == Sent <==> marks[EventOut] + marks[EventLost] == 1)
                  && (s.msgs.logs[l].status == Failed <==> s.msgs.logs[l].errorReason.Some?)
                  && (Held(s.msgs.messages[l.message]) ==>
                        s.msgs.logs[l].status == Queued && Tickets(s.queue, l) == multiset{} && marks == multiset{}))
  {
    RunKeepsLaw(ops, l);
    hide Run, Payload.SendViaTelegram;
    forall t | t in Tickets(Run(ops).queue, l)
      ensures t.retries <= Delivery.MAX_SEND_RETRIES
    {
      assert TicketLaw(AccountOf(Run(ops), l), t);
    }
  }

  // ----- SENT is final -----

  /** The log is recorded SENT, or was and has been purged: Telegram is never called for it again. */
  ghost predicate SentOrPurged(a: Account, row: DeliveryLog) {
    a.message.Some? && !Held(a.message.value) && (a.row.None? || a.row == Some(row))
  }

  /** Nothing is asked of Telegram, recorded or metered for the log. */
  ghost predicate Quiet(marks: multiset<Mark>, marks': multiset<Mark>) {
    && marks'[Accepted] == marks[Accepted] && marks'[Rejected] == marks[Rejected]
    && marks'[EventOut] == marks[EventOut] && marks'[EventLost] == marks[EventLost]
  }

  lemma SentIsNotProcessed(a: Account, a1: Account, outcome: Delivery.Outcome, now: nat)
    requires !Unsent(a) && Processed(a, a1, outcome, now)
    requires a.message.Some? ==> Payload.SendViaTelegram(a.message.value.content).Ok?
    ensures a1 == a && (outcome.WasSkipped? || outcome.WasCut?)
  {
    hide Payload.SendViaTelegram;
  }

  lemma SettledStaysSent(a: Account, a': Account, t: Ticket, outcome: Delivery.Outcome, now: nat)
    requires Settled(a, a', t, outcome, now) && (outcome.WasSkipped? || outcome.WasCut?)
    ensures a'.row == a.row && a'.message == a.message && Quiet(a.marks, a'.marks)
  {
    hide TicketsAfter;
  }

  lemma RanKeepsSent(a: Account, a': Account, t: Ticket, outcome: Delivery.Outcome, now: nat, row: DeliveryLog)
    requires row.status == Sent && SentOrPurged(a, row) && Ran(a, a', t, outcome, now)
    requires Payload.SendViaTelegram(a.message.value.content).Ok?
    ensures SentOrPurged(a', row) && Quiet(a.marks, a'.marks)
  {
    var a1 :| Processed(a, a1, outcome, now) && Settled(a1, a', t, outcome, now);
    hide Payload.SendViaTelegram, Processed, Settled, Quiet;
    SentIsNotProcessed(a, a1, outcome, now);
    SettledStaysSent(a1, a', t, outcome, now);
  }

  lemma MoveKeepsSent(l: LogKey, a: Account, a': Account, op: Op, outcome: Delivery.Outcome, now: nat, row: DeliveryLog)
    requires row.status == Sent && SentOrPurged(a, row) && Law(a) && Moves(l, a, a', op, outcome, now)
    ensures SentOrPurged(a', row) && Quiet(a.marks, a'.marks)
  {
    hide Ran, Payload.SendViaTelegram, TicketLaw;
    if a' != a && op.RunTask? {
      RanKeepsSent(a, a', op.ticket, outcome, now, row);
    }
  }

  /** Once a log is SENT its row never changes again, except that the retention purge may remove it, and
      Telegram never accepts or rejects the log again, whatever copies of its job are still delivered. */
  lemma {:induction false} SentIsFinal(s: Platform, ops: seq<Op>, l: LogKey)
    requires Law(AccountOf(s, l)) && l in s.msgs.logs && s.msgs.logs[l].status == Sent
    ensures var s' := RunFrom(s, ops);
            && (l in s'.msgs.logs ==> s'.msgs.logs[l] == s.msgs.logs[l])
            && Quiet(MarksOf(s.history, l), MarksOf(s'.history, l))
            && SentOrPurged(AccountOf(s', l), s.msgs.logs[l])
  {
    if ops != [] {
      hide Step, Law;
      var before := RunFrom(s, ops[..|ops| - 1]);
      SentIsFinal(s, ops[..|ops| - 1], l);
      LawFrom(s, ops[..|ops| - 1], l);
      SentStep(before, ops[|ops| - 1], l, s.msgs.logs[l]);
    }
  }

  lemma SentStep(s: Platform, op: Op, l: LogKey, row: DeliveryLog)
    requires row.status == Sent && SentOrPurged(AccountOf(s, l), row) && Law(AccountOf(s, l))
    ensures SentOrPurged(AccountOf(Step(s, op), l), row)
    ensures Quiet(AccountOf(s, l).marks, AccountOf(Step(s, op), l).marks)
  {
    hide SentOrPurged, Moves, AccountOf, Step, OutcomeOf, Quiet, Law;
    StepMoves(s, op, l);
    MoveKeepsSent(l, AccountOf(s, l), AccountOf(Step(s, op), l), op, OutcomeOf(s, op), s.now, row);
  }
}
