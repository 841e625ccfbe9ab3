/** Scheduled messages are dispatched when their time has come: neither before, nor without the jobs of their logs. */
module Dispatching {
  import opened Wrappers
  import opened Rows
  import opened Tables
  import opened State
  import opened Platforms
  import opened Ledger
  import opened Laws
  import opened Health
  import opened Coherence
  import Payload
  import Messaging
  import Delivery
  import Frames

  /** Live, scheduled, not dispatched yet, and the scheduled time is not in the future. */
  ghost predicate TimeHasCome(row: Message, now: nat) {
    row.scheduledAt.Some? && row.scheduledAt.value <= now && row.dispatchedAt.None? && row.deletedAt.None?
  }

  /** A due message gets its dispatch time; any other message is as it was. */
  ghost predicate Stamped(m: MessageTables, m': MessageTables, now: nat) {
    && m'.logs == m.logs && m'.messages.Keys == m.messages.Keys
    && (forall id | id in m.messages ::
          m'.messages[id] == if TimeHasCome(m.messages[id], now) then m.messages[id].(dispatchedAt := Some(now))
                             else m.messages[id])
  }

  /** A log gets one more job, that may start at once, or loses it when the process dies before it is enqueued. */
  ghost predicate FirstJob(s: Platform, s': Platform, l: LogKey, first: bool, dropped: bool) {
    && Tickets(s'.queue, l) == Tickets(s.queue, l) + (if first && !dropped then multiset{Ticket(0, s.now)} else multiset{})
    && MarksOf(s'.history, l) == MarksOf(s.history, l) + if first && dropped then multiset{EnqueueLost} else multiset{}
  }

  /** Each log of a due message gets one new job that may start at once, unless the dispatcher dies before it is
      enqueued; no other log gets any. */
  ghost predicate FirstJobs(s: Platform, s': Platform, lost: set<LogKey>) {
    forall l: LogKey ::
      FirstJob(s, s', l, l in s.msgs.logs && l.message in s.msgs.messages && TimeHasCome(s.msgs.messages[l.message], s.now),
               l in lost)
  }

  lemma StampsExactly(m: MessageTables, now: nat)
    ensures Stamped(m, Messaging.MarkDispatched(m, now), now)
  {
  }

  lemma DueLogsAre(s: Platform, l: LogKey)
    requires Linked(s)
    ensures l in Messaging.DueLogs(s.msgs, s.now) <==>
              l in s.msgs.logs && l.message in s.msgs.messages && TimeHasCome(s.msgs.messages[l.message], s.now)
  {
    DueMeaning(s.msgs, s.now, l);
    if l in s.msgs.logs {
      assert LinkedLog(s.dests, l, s.msgs.logs[l].tenant, s.msgs.messages[l.message]);
    }
    hide LinkedSubscriptions;
  }

  lemma Enqueues(s: Platform, msgs: MessageTables, logs: set<LogKey>, lost: set<LogKey>, l: LogKey)
    ensures FirstJob(s, CommitAndEnqueue(s, msgs, logs, lost), l, l in logs, l in lost)
  {
    CommitMarks(s.history, logs * lost, s.queue, logs - lost, Ticket(0, s.now), l);
    hide Tickets, MarksOf, EnqueueAll, NoteAll;
  }

  /** In every run, one execution of the dispatcher stamps exactly the messages whose time has come, gives exactly
      their logs a first job, and changes nothing else. */
  lemma DispatchIsExact(ops: seq<Op>, lost: set<LogKey>)
    ensures var s, s' := Run(ops), Step(Run(ops), Dispatch(lost));
            && Stamped(s.msgs, s'.msgs, s.now) && FirstJobs(s, s', lost)
            && s' == s.(msgs := s'.msgs, queue := s'.queue, history := s'.history)
  {
    hide Run, Linked;
    RunIsLinked(ops);
    DispatchAt(Run(ops), lost);
  }

  lemma DispatchAt(s: Platform, lost: set<LogKey>)
    requires Linked(s)
    ensures var s' := Step(s, Dispatch(lost));
            && Stamped(s.msgs, s'.msgs, s.now) && FirstJobs(s, s', lost)
            && s' == s.(msgs := s'.msgs, queue := s'.queue, history := s'.history)
  {
    hide Step, Linked, Stamped, TimeHasCome, FirstJob, Messaging.DueLogs, Messaging.MarkDispatched;
    var s' := Step(s, Dispatch(lost));
    Frames.DispatchFrame(s, lost);
    StampsExactly(s.msgs, s.now);
    forall l: LogKey
      ensures FirstJob(s, s', l,
                       l in s.msgs.logs && l.message in s.msgs.messages && TimeHasCome(s.msgs.messages[l.message], s.now),
                       l in lost)
    {
      DueLogsAre(s, l);
      Enqueues(s, Messaging.MarkDispatched(s.msgs, s.now), Messaging.DueLogs(s.msgs, s.now), lost, l);
      hide CommitAndEnqueue;
    }
  }

  /** No message is due right after the dispatcher ran. */
  lemma NoneLeftDue(ops: seq<Op>, lost: set<LogKey>, id: MessageId)
    ensures var s' := Step(Run(ops), Dispatch(lost));
            id in s'.msgs.messages ==> !TimeHasCome(s'.msgs.messages[id], s'.now)
  {
    DispatchIsExact(ops, lost);
    hide Run, Step, FirstJobs;
  }

  // ----- Never early -----

  /** A dispatch time is not before the scheduled time, and not in the future. */
  ghost predicate InTime(message: Message, now: nat) {
    message.dispatchedAt.Some? ==>
      && message.scheduledAt.Some? && message.scheduledAt.value <= message.dispatchedAt.value
      && message.dispatchedAt.value <= now
  }

  lemma MoveKeepsTime(l: LogKey, a: Account, a': Account, op: Op, outcome: Delivery.Outcome, now: nat)
    requires Moves(l, a, a', op, outcome, now) && !op.Dispatch?
    requires a.message.Some? ==> InTime(a.message.value, now)
    ensures a'.message.Some? ==> InTime(a'.message.value, now)
  {
    hide Ran, Payload.SendViaTelegram;
    if a' != a && op.RunTask? {
      RanFrame(a, a', op.ticket, outcome, now);
    }
  }

  lemma LaterInTime(message: Message, now: nat, later: nat)
    requires InTime(message, now) && now <= later
    ensures InTime(message, later)
  {
  }

  lemma {:induction false} NeverEarly(ops: seq<Op>, id: MessageId)
    ensures var s := Run(ops); id in s.msgs.messages ==> InTime(s.msgs.messages[id], s.now)
  {
    if ops != [] {
      var before, op := ops[..|ops| - 1], ops[|ops| - 1];
      var s, s', l := Run(before), Run(ops), LogKey(id, 0);
      NeverEarly(before, id);
      hide Run, Step, Moves, OutcomeOf, InTime;
      assert s' == Step(s, op) by { RunsOn(before, op, ops); }
      if op.Dispatch? {
        DispatchIsExact(before, op.lost);
        DispatchInTime(s, s', id);
      } else {
        StepMoves(s, op, l);
        MoveKeepsTime(l, AccountOf(s, l), AccountOf(s', l), op, OutcomeOf(s, op), s.now);
        ClockRuns(s, op);
        if id in s'.msgs.messages {
          LaterInTime(s'.msgs.messages[id], s.now, s'.now);
        }
      }
    }
  }

  lemma RunsOn(before: seq<Op>, op: Op, ops: seq<Op>)
    requires ops != [] && before == ops[..|ops| - 1] && op == ops[|ops| - 1]
    ensures Run(ops) == Step(Run(before), op)
  {
    hide Step;
  }

  lemma DispatchInTime(s: Platform, s': Platform, id: MessageId)
    requires Stamped(s.msgs, s'.msgs, s.now) && s'.now == s.now
    requires id in s.msgs.messages ==> InTime(s.msgs.messages[id], s.now)
    ensures id in s'.msgs.messages ==> InTime(s'.msgs.messages[id], s'.now)
  {
  }

  /** The clock shows the milliseconds that passed, and nothing else moves it. */
  lemma ClockRuns(s: Platform, op: Op)
    ensures Step(s, op).now == s.now + if op.Tick? then op.milliseconds else 0
  {
    if op.Tick? {
      Frames.TickFrame(s, op.milliseconds);
    }
    Frames.Elsewhere(s, op);
    hide Step;
  }

  /** In every run, a log of a scheduled message has an outstanding job, or any history at all, only once the scheduled
      time has come. */
  lemma NoJobBeforeItsTime(ops: seq<Op>, l: LogKey)
    ensures var s := Run(ops);
            && l.message in s.msgs.messages && s.msgs.messages[l.message].scheduledAt.Some?
            && (Tickets(s.queue, l) != multiset{} || MarksOf(s.history, l) != multiset{}) ==>
              s.msgs.messages[l.message].scheduledAt.value <= s.now
  {
    RunKeepsLaw(ops, l);
    NeverEarly(ops, l.message);
    hide Run, Payload.SendViaTelegram, TicketLaw, RowLaw;
  }
}
