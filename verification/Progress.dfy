/** The overall status of a message along a run. */
module StatusProgress {
  import opened Wrappers
  import opened Rows
  import opened Tables
  import opened State
  import opened Platforms
  import opened Ledger
  import opened Laws
  import opened Causes
  import opened Conservation
  import Payload
  import Messaging
  import Delivery
  import Frames

  /** The logs of a message, each once, in some order. */
  ghost predicate Lists(s: Platform, id: MessageId, keys: seq<LogKey>) {
    && id in s.msgs.messages
    && (forall l :: l in keys <==> l.message == id && l in s.msgs.logs)
    && (forall i, j | 0 <= i < j < |keys| :: keys[i] != keys[j])
  }

  ghost function RowsOf(m: MessageTables, keys: seq<LogKey>): seq<DeliveryLog>
    requires forall l | l in keys :: l in m.logs
  {
    seq(|keys|, i requires 0 <= i < |keys| => m.logs[keys[i]])
  }

  ghost function StatusOf(s: Platform, id: MessageId, keys: seq<LogKey>): Messaging.OverallStatus
    requires Lists(s, id, keys)
  {
    Messaging.ComputeOverallStatus(s.msgs.messages[id], RowsOf(s.msgs, keys))
  }

  /** Without purge and redelivery: a row stays, a recorded status stays, no row joins an existing message. */
  ghost predicate Forward(a: Account, a': Account) {
    a.message.Some? ==>
      && a'.message.Some? && a'.message.value.scheduledAt == a.message.value.scheduledAt
      && (a.message.value.dispatchedAt.Some? ==> a'.message.value.dispatchedAt == a.message.value.dispatchedAt)
      && (a'.row.Some? <==> a.row.Some?)
      && (a.row.Some? && a.row.value.status != Queued ==> a'.row == a.row)
  }

  lemma ProcessedForward(a: Account, a1: Account, outcome: Delivery.Outcome, now: nat)
    requires Processed(a, a1, outcome, now)
    ensures a1.message == a.message && (a1.row.Some? <==> a.row.Some?)
    ensures !Unsent(a) ==> a1.row == a.row
    ensures outcome.WasRejected? ==> Unsent(a)
  {
    hide Payload.SendViaTelegram;
  }

  lemma SettledForward(a: Account, a': Account, t: Ticket, outcome: Delivery.Outcome, now: nat)
    requires Settled(a, a', t, outcome, now)
    ensures a'.message == a.message && (a'.row.Some? <==> a.row.Some?)
    ensures !outcome.WasRejected? ==> a'.row == a.row
  {
    hide TicketsAfter;
  }

  lemma RanForward(a: Account, a': Account, t: Ticket, outcome: Delivery.Outcome, now: nat)
    requires Law(a) && CleanLaw(a) && Ran(a, a', t, outcome, now)
    ensures Forward(a, a')
  {
    var a1 :| Processed(a, a1, outcome, now) && Settled(a1, a', t, outcome, now);
    assert |a.tickets| > 0 && (a.message.Some? ==> !Held(a.message.value));
    hide Processed, Settled, TicketLaw, RowLaw, Balanced, Lost, Payload.SendViaTelegram;
    ProcessedForward(a, a1, outcome, now);
    SettledForward(a1, a', t, outcome, now);
  }

  lemma MoveForward(l: LogKey, a: Account, a': Account, op: Op, outcome: Delivery.Outcome, now: nat)
    requires Law(a) && CleanLaw(a) && Moves(l, a, a', op, outcome, now) && !op.Redeliver? && !op.PurgeLogs?
    ensures Forward(a, a')
  {
    hide Ran, Law, CleanLaw;
    if a' != a && op.RunTask? {
      RanForward(a, a', op.ticket, outcome, now);
    }
  }

  lemma StepForward(s: Platform, op: Op, l: LogKey)
    requires Law(AccountOf(s, l)) && CleanLaw(AccountOf(s, l)) && !op.Redeliver? && !op.PurgeLogs?
    ensures Forward(AccountOf(s, l), AccountOf(Step(s, op), l))
  {
    hide Law, CleanLaw, Moves, AccountOf, Step, OutcomeOf, Forward;
    StepMoves(s, op, l);
    MoveForward(l, AccountOf(s, l), AccountOf(Step(s, op), l), op, OutcomeOf(s, op), s.now);
  }

  lemma StatusForward(s: Platform, s': Platform, id: MessageId, keys: seq<LogKey>)
    requires Lists(s, id, keys) && keys != []
    requires forall l :: Forward(AccountOf(s, l), AccountOf(s', l))
    ensures Lists(s', id, keys)
    ensures Messaging.Progress(StatusOf(s, id, keys)) <= Messaging.Progress(StatusOf(s', id, keys))
    ensures Messaging.Progress(StatusOf(s, id, keys)) == 3 ==> StatusOf(s', id, keys) == StatusOf(s, id, keys)
  {
    forall l: LogKey | l.message == id
      ensures l in s'.msgs.logs <==> l in s.msgs.logs
      ensures l in s.msgs.logs && s.msgs.logs[l].status != Queued ==> s'.msgs.logs[l] == s.msgs.logs[l]
    {
      assert Forward(AccountOf(s, l), AccountOf(s', l));
    }
    assert keys[0] in keys;
    assert Forward(AccountOf(s, keys[0]), AccountOf(s', keys[0]));
    Messaging.StatusMovesForward(s.msgs.messages[id], RowsOf(s.msgs, keys), s'.msgs.messages[id], RowsOf(s'.msgs, keys));
  }

  ghost predicate AllClean(s: Platform) {
    forall l: LogKey :: Law(AccountOf(s, l)) && CleanLaw(AccountOf(s, l))
  }

  lemma StepStaysClean(s: Platform, op: Op)
    requires AllClean(s) && !op.Redeliver?
    ensures AllClean(Step(s, op))
    ensures !op.PurgeLogs? ==> forall l :: Forward(AccountOf(s, l), AccountOf(Step(s, op), l))
  {
    hide Law, CleanLaw, AccountOf, Step, Forward;
    forall l: LogKey
      ensures Law(AccountOf(Step(s, op), l)) && CleanLaw(AccountOf(Step(s, op), l))
      ensures !op.PurgeLogs? ==> Forward(AccountOf(s, l), AccountOf(Step(s, op), l))
    {
      StepKeepsLaw(s, op, l);
      StepKeepsClean(s, op, l);
      if !op.PurgeLogs? {
        StepForward(s, op, l);
      }
    }
  }

  lemma {:induction false} ForwardFrom(s: Platform, ops: seq<Op>, id: MessageId, keys: seq<LogKey>)
    requires AllClean(s) && forall op | op in ops :: !op.Redeliver? && !op.PurgeLogs?
    requires Lists(s, id, keys) && keys != []
    ensures var s' := RunFrom(s, ops);
            && AllClean(s') && Lists(s', id, keys)
            && Messaging.Progress(StatusOf(s, id, keys)) <= Messaging.Progress(StatusOf(s', id, keys))
            && (Messaging.Progress(StatusOf(s, id, keys)) == 3 ==> StatusOf(s', id, keys) == StatusOf(s, id, keys))
  {
    if ops != [] {
      hide Step, StatusOf, Lists, AllClean, AccountOf, Forward, Messaging.Progress;
      var before := RunFrom(s, ops[..|ops| - 1]);
      ForwardFrom(s, ops[..|ops| - 1], id, keys);
      assert ops[|ops| - 1] in ops;
      StepStaysClean(before, ops[|ops| - 1]);
      StatusForward(before, RunFrom(s, ops), id, keys);
    }
  }

  /** Without purge and redelivery the overall status of a message only moves forward, through scheduled, queued and
      in progress to one of sent, partially failed and failed; those three are final. */
  lemma OverallStatusOnlyMovesForward(ops: seq<Op>, more: seq<Op>, id: MessageId, keys: seq<LogKey>)
    requires NoCopies(ops) && NoCopies(more) && (forall op | op in more :: !op.PurgeLogs?)
    requires Lists(Run(ops), id, keys) && keys != []
    ensures Lists(Run(ops + more), id, keys)
    ensures Messaging.Progress(StatusOf(Run(ops), id, keys)) <= Messaging.Progress(StatusOf(Run(ops + more), id, keys))
    ensures Messaging.Progress(StatusOf(Run(ops), id, keys)) == 3 ==>
              StatusOf(Run(ops + more), id, keys) == StatusOf(Run(ops), id, keys)
  {
    hide StatusOf, Lists, AccountOf, Law, CleanLaw, Messaging.Progress;
    forall l: LogKey
      ensures Law(AccountOf(Run(ops), l)) && CleanLaw(AccountOf(Run(ops), l))
    {
      RunKeepsClean(ops, l);
    }
    RunSplits(EMPTY, ops, more);
    ForwardFrom(Run(ops), more, id, keys);
  }

  // ----- When FAILED is not final -----

  /** A copy of the job that is still outstanding runs, finds everything in place, passes the throttle, Telegram
      accepts, and the commit is reached. */
  ghost predicate Revives(s: Platform, op: Op, l: LogKey) {
    Passes(s, op) && op.log == l && IsRecorded(op.answer, op.fate)
  }

  lemma CallRecords(s: Platform, l: LogKey, bot: BotId, chat: int, content: Payload.Content, answer: Delivery.Answer,
                    fate: Delivery.Fate)
    requires l in s.msgs.logs && s.msgs.logs[l].status != Sent && Payload.SendViaTelegram(content).Ok?
    ensures var s' := Delivery.CallTelegram(s, l, bot, chat, content, answer, fate).0;
            && l in s'.msgs.logs
            && (s'.msgs.logs[l].status == Sent <==> IsRecorded(answer, fate))
            && (s'.msgs.logs[l].status == Sent || s'.msgs.logs[l] == s.msgs.logs[l])
  {
    hide Payload.SendViaTelegram, Note;
  }

  lemma SendRecords(s: Platform, l: LogKey, message: Message, chat: int, answer: Delivery.Answer, fate: Delivery.Fate)
    requires l in s.msgs.logs && s.msgs.logs[l].status != Sent && Payload.SendViaTelegram(message.content).Ok?
    ensures var s' := Delivery.ThrottledSend(s, l, message, chat, answer, fate).0;
            && l in s'.msgs.logs
            && (s'.msgs.logs[l].status == Sent <==>
                  Delivery.CheckThrottle(s, message.bot, chat).1 && IsRecorded(answer, fate))
            && (s'.msgs.logs[l].status == Sent || s'.msgs.logs[l] == s.msgs.logs[l])
  {
    var (s1, ok) := Delivery.CheckThrottle(s, message.bot, chat);
    hide Delivery.CheckThrottle, Delivery.CallTelegram, Payload.SendViaTelegram;
    if ok {
      CallRecords(s1, l, message.bot, chat, message.content, answer, fate);
    }
  }

  lemma ProcessRecords(s: Platform, l: LogKey, answer: Delivery.Answer, fate: Delivery.Fate)
    requires l in s.msgs.logs && s.msgs.logs[l].status == Failed
    requires l.message in s.msgs.messages && Payload.SendViaTelegram(s.msgs.messages[l.message].content).Ok?
    ensures var s' := Delivery.ProcessDelivery(s, l, answer, fate).0;
            && l in s'.msgs.logs && s'.msgs.logs[l].status != Queued
            && (s'.msgs.logs[l].status == Sent <==>
                  && Delivery.Obstacle(s, l).None? && IsRecorded(answer, fate)
                  && Delivery.CheckThrottle(s, s.msgs.messages[l.message].bot,
                                            s.dests.destinations[l.destination].chat).1)
  {
    if Delivery.Obstacle(s, l).None? {
      SendRecords(s, l, s.msgs.messages[l.message], s.dests.destinations[l.destination].chat, answer, fate);
    }
    hide Delivery.ThrottledSend, Delivery.Obstacle, Delivery.CheckThrottle, Payload.SendViaTelegram;
  }

  lemma SettleKeepsStatus(s: Platform, l: LogKey, t: Ticket, outcome: Delivery.Outcome)
    requires l in s.msgs.logs && s.msgs.logs[l].status != Queued
    requires outcome.WasRejected? ==> s.msgs.logs[l].status == Failed
    ensures var s' := Delivery.Settle(s, l, t, outcome);
            l in s'.msgs.logs && s'.msgs.logs[l].status == s.msgs.logs[l].status
  {
    hide Take, Enqueue, Delivery.Retried, Delivery.Postponed, Note;
  }

  lemma RejectionChangesNoRow(s: Platform, l: LogKey, answer: Delivery.Answer, fate: Delivery.Fate)
    requires Delivery.ProcessDelivery(s, l, answer, fate).1.WasRejected? && l in s.msgs.logs
    ensures var s' := Delivery.ProcessDelivery(s, l, answer, fate).0;
            l in s'.msgs.logs && s'.msgs.logs[l] == s.msgs.logs[l]
  {
    ProcessMoves(s, l, answer, fate, l);
    hide Delivery.ProcessDelivery, Payload.SendViaTelegram;
  }

  /** In any run, whatever is redelivered: a FAILED log never returns to QUEUED, and it becomes SENT exactly when an
      outstanding copy of its job is accepted and recorded. Without redelivery there is no copy, so FAILED is final. */
  lemma FailedIsRevivedExactlyBy(ops: seq<Op>, op: Op, l: LogKey)
    requires l in Run(ops).msgs.logs && Run(ops).msgs.logs[l].status == Failed
    ensures var s' := Step(Run(ops), op);
            && (l in s'.msgs.logs ==> s'.msgs.logs[l].status != Queued)
            && (l in s'.msgs.logs && s'.msgs.logs[l].status == Sent <==> Revives(Run(ops), op, l))
    ensures NoCopies(ops) ==> !Revives(Run(ops), op, l)
  {
    RunKeepsLaw(ops, l);
    hide Run, Law, CleanLaw, Step, Delivery.Obstacle, Delivery.CheckThrottle;
    if NoCopies(ops) {
      RunKeepsClean(ops, l);
      NoCopyLeft(Run(ops), l);
    }
    RevivedBy(Run(ops), op, l);
  }

  lemma NoCopyLeft(s: Platform, l: LogKey)
    requires Law(AccountOf(s, l)) && CleanLaw(AccountOf(s, l))
    requires l in s.msgs.logs && s.msgs.logs[l].status == Failed
    ensures Tickets(s.queue, l) == multiset{}
  {
    hide Payload.SendViaTelegram, TicketLaw;
  }

  lemma RevivedByTask(s: Platform, l: LogKey, t: Ticket, answer: Delivery.Answer, fate: Delivery.Fate)
    requires l in s.msgs.logs && s.msgs.logs[l].status == Failed
    requires l.message in s.msgs.messages && Payload.SendViaTelegram(s.msgs.messages[l.message].content).Ok?
    ensures var s', op := Step(s, RunTask(l, t, answer, fate)), RunTask(l, t, answer, fate);
            && l in s'.msgs.logs && s'.msgs.logs[l].status != Queued
            && (s'.msgs.logs[l].status == Sent <==> Revives(s, op, l))
  {
    Frames.TaskFrame(s, l, t, answer, fate);
    hide Step, Delivery.ProcessDelivery, Delivery.Settle, Delivery.CheckThrottle, Delivery.Obstacle, Delivery.CanRun,
         Payload.SendViaTelegram;
    if Delivery.CanRun(s, l, t) {
      var (s1, outcome) := Delivery.ProcessDelivery(s, l, answer, fate);
      ProcessRecords(s, l, answer, fate);
      if outcome.WasRejected? {
        RejectionChangesNoRow(s, l, answer, fate);
      }
      SettleKeepsStatus(s1, l, t, outcome);
    }
  }

  lemma FailedRowMoves(l: LogKey, a: Account, a': Account, op: Op, outcome: Delivery.Outcome, now: nat)
    requires Moves(l, a, a', op, outcome, now) && a.message.Some? && a.row.Some?
    requires !(op.RunTask? && op.log == l)
    ensures a'.row.Some? ==> a'.row == a.row
  {
    hide Ran, Payload.SendViaTelegram;
  }

  lemma RevivedBy(s: Platform, op: Op, l: LogKey)
    requires Law(AccountOf(s, l)) && l in s.msgs.logs && s.msgs.logs[l].status == Failed
    ensures var s' := Step(s, op);
            && (l in s'.msgs.logs ==> s'.msgs.logs[l].status != Queued)
            && (l in s'.msgs.logs && s'.msgs.logs[l].status == Sent <==> Revives(s, op, l))
  {
    var a := AccountOf(s, l);
    assert a.row == Some(s.msgs.logs[l]) && a.message == Some(s.msgs.messages[l.message]);
    hide Payload.SendViaTelegram, TicketLaw, RowLaw, Balanced, Step, Revives;
    if op.RunTask? && op.log == l {
      RevivedByTask(s, l, op.ticket, op.answer, op.fate);
    } else {
      StepMoves(s, op, l);
      FailedRowMoves(l, a, AccountOf(Step(s, op), l), op, OutcomeOf(s, op), s.now);
      OthersDoNotRevive(s, op, l);
      hide Moves, OutcomeOf;
    }
  }

  lemma OthersDoNotRevive(s: Platform, op: Op, l: LogKey)
    requires !(op.RunTask? && op.log == l)
    ensures !Revives(s, op, l)
  {
  }
}
