/** Exactly which steps call Telegram, record a log, lose its usage event or send it once more. */
module Causes {
  import opened Wrappers
  import opened Rows
  import opened Tables
  import opened State
  import opened Platforms
  import opened Ledger
  import opened Laws
  import Payload
  import Delivery
  import Frames

  /** The job gets as far as the throttle: it is due, nothing is in its way, and it is not cut short at once. */
  ghost predicate Reaches(s: Platform, op: Op) {
    && op.RunTask? && Delivery.CanRun(s, op.log, op.ticket) && Delivery.Obstacle(s, op.log).None?
    && !(op.fate.Cut? && op.fate.point.AtOnce?)
  }

  /** ... and the throttle lets it pass. */
  ghost predicate Passes(s: Platform, op: Op) {
    && Reaches(s, op)
    && Delivery.CheckThrottle(s, s.msgs.messages[op.log.message].bot, s.dests.destinations[op.log.destination].chat).1
  }

  /** The step calls Telegram for this log. */
  ghost predicate CallsTelegram(s: Platform, op: Op, l: LogKey) {
    Passes(s, op) && op.log == l && !(op.fate.Cut? && op.fate.point.BeforeCall?)
  }

  /** Telegram accepts and says so, and the execution gets as far as the commit. */
  predicate IsRecorded(answer: Delivery.Answer, fate: Delivery.Fate) {
    answer.Accept? && (fate.Whole? || fate.point.AfterCommit?)
  }

  /** The step records this log as SENT and is cut short before the usage event is enqueued. */
  ghost predicate LosesEvent(s: Platform, op: Op, l: LogKey) {
    Passes(s, op) && op.log == l && op.answer.Accept? && op.fate.Cut? && op.fate.point.AfterCommit?
  }

  /** Two histories that agree on acceptances, errors and usage events. */
  ghost predicate SameCalls(m: multiset<Mark>, m': multiset<Mark>) {
    && m'[Accepted] == m[Accepted] && m'[Rejected] == m[Rejected] && m'[Unreported] == m[Unreported]
    && m'[Unrecorded] == m[Unrecorded] && m'[EventOut] == m[EventOut] && m'[EventLost] == m[EventLost]
  }

  lemma SameCallsChain(m: multiset<Mark>, m1: multiset<Mark>, m2: multiset<Mark>)
    requires SameCalls(m, m1) && SameCalls(m1, m2)
    ensures SameCalls(m, m2)
  {
  }

  lemma NoteAdds(h: History, l: LogKey, marks: multiset<Mark>)
    ensures MarksOf(Note(h, l, marks), l) == MarksOf(h, l) + marks
  {
  }

  // ----- One execution -----

  /** What a call adds to its log's history, as far as acceptances, errors and usage events go. */
  ghost function CallAdds(answer: Delivery.Answer, fate: Delivery.Fate, called: bool): multiset<Mark> {
    if called then Delivery.CallMarks(answer, fate) else multiset{}
  }

  lemma CallIsNoted(s: Platform, l: LogKey, bot: BotId, chat: int, content: Payload.Content, answer: Delivery.Answer,
                    fate: Delivery.Fate)
    requires l in s.msgs.logs && Payload.SendViaTelegram(content).Ok? && !(fate.Cut? && fate.point.AtOnce?)
    ensures MarksOf(Delivery.CallTelegram(s, l, bot, chat, content, answer, fate).0.history, l)
            == MarksOf(s.history, l) + CallAdds(answer, fate, !(fate.Cut? && fate.point.BeforeCall?))
  {
    NoteAdds(s.history, l, Delivery.CallMarks(answer, fate));
    hide Payload.SendViaTelegram, Note, MarksOf, Delivery.CallMarks;
  }

  lemma SendIsNoted(s: Platform, l: LogKey, message: Message, chat: int, answer: Delivery.Answer, fate: Delivery.Fate)
    requires l in s.msgs.logs && Payload.SendViaTelegram(message.content).Ok? && !(fate.Cut? && fate.point.AtOnce?)
    ensures var ok := Delivery.CheckThrottle(s, message.bot, chat).1;
            SameCalls(MarksOf(s.history, l) + CallAdds(answer, fate, ok && !(fate.Cut? && fate.point.BeforeCall?)),
                      MarksOf(Delivery.ThrottledSend(s, l, message, chat, answer, fate).0.history, l))
  {
    var (s1, ok) := Delivery.CheckThrottle(s, message.bot, chat);
    NoteAdds(s1.history, l, multiset{Throttled});
    hide Payload.SendViaTelegram, Note, MarksOf, Delivery.CallMarks, Delivery.CheckThrottle, Delivery.CallTelegram;
    if ok {
      CallIsNoted(s1, l, message.bot, chat, message.content, answer, fate);
    }
  }

  lemma SettlingIsNoted(s: Platform, l: LogKey, t: Ticket, outcome: Delivery.Outcome)
    ensures SameCalls(MarksOf(s.history, l), MarksOf(Delivery.Settle(s, l, t, outcome).history, l))
  {
    NoteAdds(s.history, l, multiset{CutOff});
    NoteAdds(s.history, l, multiset{CutOff, JobLost});
    hide Take, Enqueue, Note, MarksOf, Delivery.Retried, Delivery.Postponed;
  }

  lemma ProcessingIsNoted(s: Platform, op: Op)
    requires op.RunTask? && Delivery.CanRun(s, op.log, op.ticket)
    requires Reaches(s, op) ==> Payload.SendViaTelegram(s.msgs.messages[op.log.message].content).Ok?
    ensures SameCalls(MarksOf(s.history, op.log) + CallAdds(op.answer, op.fate, CallsTelegram(s, op, op.log)),
                      MarksOf(Delivery.ProcessDelivery(s, op.log, op.answer, op.fate).0.history, op.log))
  {
    hide Payload.SendViaTelegram, MarksOf, Delivery.CallMarks, Delivery.CheckThrottle, Delivery.ThrottledSend,
         Delivery.Obstacle, Delivery.CanRun;
    if Reaches(s, op) {
      SendIsNoted(s, op.log, s.msgs.messages[op.log.message], s.dests.destinations[op.log.destination].chat,
                  op.answer, op.fate);
    }
  }

  lemma TaskIsNoted(s: Platform, op: Op)
    requires op.RunTask? && Delivery.CanRun(s, op.log, op.ticket)
    requires Reaches(s, op) ==> Payload.SendViaTelegram(s.msgs.messages[op.log.message].content).Ok?
    ensures SameCalls(MarksOf(s.history, op.log) + CallAdds(op.answer, op.fate, CallsTelegram(s, op, op.log)),
                      MarksOf(Step(s, op).history, op.log))
  {
    Frames.TaskFrame(s, op.log, op.ticket, op.answer, op.fate);
    hide Step, Delivery.ProcessDelivery, Delivery.Settle, CallsTelegram, CallAdds, SameCalls, MarksOf, Reaches,
         Delivery.CanRun, Payload.SendViaTelegram;
    ProcessingIsNoted(s, op);
    var (s1, outcome) := Delivery.ProcessDelivery(s, op.log, op.answer, op.fate);
    SettlingIsNoted(s1, op.log, op.ticket, outcome);
    SameCallsChain(MarksOf(s.history, op.log) + CallAdds(op.answer, op.fate, CallsTelegram(s, op, op.log)),
                   MarksOf(s1.history, op.log), MarksOf(Step(s, op).history, op.log));
  }

  lemma CallIsRejected(s: Platform, l: LogKey, message: Message, chat: int, answer: Delivery.Answer)
    requires l in s.msgs.logs && Payload.SendViaTelegram(message.content).Ok? && !answer.Accept?
    ensures var r := Delivery.ThrottledSend(s, l, message, chat, answer, Delivery.Whole);
            if Delivery.CheckThrottle(s, message.bot, chat).1 then r.1 == Delivery.WasRejected(answer.reason)
            else r.1.WasThrottled?
  {
    hide Payload.SendViaTelegram, Delivery.CheckThrottle, Note, Delivery.CallMarks;
  }

  /** An error ends an attempt whose call is made and not accepted, or accepted without a reply. */
  lemma ErrorIsRejected(s: Platform, l: LogKey, t: Ticket, answer: Delivery.Answer)
    requires CallsTelegram(s, RunTask(l, t, answer, Delivery.Whole), l) && !answer.Accept? && Law(AccountOf(s, l))
    ensures Delivery.ProcessDelivery(s, l, answer, Delivery.Whole).1 == Delivery.WasRejected(answer.reason)
  {
    ReachedIsSendable(s, RunTask(l, t, answer, Delivery.Whole));
    CallIsRejected(s, l, s.msgs.messages[l.message], s.dests.destinations[l.destination].chat, answer);
    hide Law, Delivery.ThrottledSend, Delivery.Obstacle, Delivery.CheckThrottle, Delivery.CanRun, Payload.SendViaTelegram;
  }

  // ----- Any step -----

  lemma CallMarksCount(m: multiset<Mark>, answer: Delivery.Answer, fate: Delivery.Fate)
    requires !(fate.Cut? && (fate.point.AtOnce? || fate.point.BeforeCall?))
    ensures var m' := m + Delivery.CallMarks(answer, fate);
            && m'[Accepted] == m[Accepted] + (if answer.Reject? then 0 else 1)
            && m'[Rejected] == m[Rejected] + (if answer.Accept? then 0 else 1)
            && m'[Unreported] == m[Unreported] + (if answer.AcceptUnreported? then 1 else 0)
            && m'[Unrecorded] == m[Unrecorded] + (if answer.Accept? && !IsRecorded(answer, fate) then 1 else 0)
            && m'[EventOut] == m[EventOut] + (if answer.Accept? && fate.Whole? then 1 else 0)
            && m'[EventLost] == m[EventLost] + (if answer.Accept? && IsRecorded(answer, fate) && fate.Cut? then 1 else 0)
  {
  }

  lemma OthersNoteNothing(l: LogKey, a: Account, a': Account, op: Op, outcome: Delivery.Outcome, now: nat)
    requires Law(a) && Moves(l, a, a', op, outcome, now) && !(op.RunTask? && op.log == l)
    ensures SameCalls(a.marks, a'.marks)
  {
    hide Ran, Payload.SendViaTelegram, TicketLaw, Balanced;
  }

  lemma ReachedIsSendable(s: Platform, op: Op)
    requires Reaches(s, op) && Law(AccountOf(s, op.log))
    ensures Payload.SendViaTelegram(s.msgs.messages[op.log.message].content).Ok?
    ensures op.log in s.msgs.logs && s.msgs.logs[op.log].status != Sent
  {
    hide Payload.SendViaTelegram, RowLaw, TicketLaw, Balanced, Delivery.CanRun;
  }

  lemma StepIsNoted(s: Platform, op: Op, l: LogKey)
    requires Law(AccountOf(s, l))
    ensures CallsTelegram(s, op, l) ==>
              SameCalls(MarksOf(s.history, l) + Delivery.CallMarks(op.answer, op.fate), MarksOf(Step(s, op).history, l))
    ensures !CallsTelegram(s, op, l) ==> SameCalls(MarksOf(s.history, l), MarksOf(Step(s, op).history, l))
  {
    if op.RunTask? && op.log == l && Delivery.CanRun(s, l, op.ticket) {
      if Reaches(s, op) {
        ReachedIsSendable(s, op);
      }
      TaskIsNoted(s, op);
      assert MarksOf(s.history, l) + multiset{} == MarksOf(s.history, l);
      hide *;
    } else if op.RunTask? && op.log == l {
      Frames.TaskFrame(s, l, op.ticket, op.answer, op.fate);
      hide Step, MarksOf;
    } else {
      StepMoves(s, op, l);
      OthersNoteNothing(l, AccountOf(s, l), AccountOf(Step(s, op), l), op, OutcomeOf(s, op), s.now);
      hide Step, OutcomeOf, Moves, Law, MarksOf;
    }
  }

  /** In every run, what a step adds to a log's history: acceptances, errors and usage events come from a job that is
      due, meets nothing in its way and passes the throttle, as the answer and the point of a cut decide. */
  lemma StepCounts(ops: seq<Op>, op: Op, l: LogKey)
    ensures var s := Run(ops);
            var m, m' := MarksOf(s.history, l), MarksOf(Step(s, op).history, l);
            var called := CallsTelegram(s, op, l);
            && m'[Accepted] == m[Accepted] + (if called && !op.answer.Reject? then 1 else 0)
            && m'[Rejected] == m[Rejected] + (if called && !op.answer.Accept? then 1 else 0)
            && m'[Unreported] == m[Unreported] + (if called && op.answer.AcceptUnreported? then 1 else 0)
            && m'[Unrecorded] == m[Unrecorded]
                                 + (if called && op.answer.Accept? && !IsRecorded(op.answer, op.fate) then 1 else 0)
            && m'[EventOut] == m[EventOut] + (if called && op.answer.Accept? && op.fate.Whole? then 1 else 0)
            && m'[EventLost] == m[EventLost] + (if LosesEvent(s, op, l) then 1 else 0)
  {
    hide Run, Step, MarksOf, Law, Delivery.CallMarks;
    RunKeepsLaw(ops, l);
    StepIsNoted(Run(ops), op, l);
    if CallsTelegram(Run(ops), op, l) {
      CallMarksCount(MarksOf(Run(ops).history, l), op.answer, op.fate);
    }
    hide Passes;
  }

  /** In every run the usage event of a log is lost by exactly the steps that record it and are cut short right after;
      the log is SENT then, and nothing that happens later enqueues its event. */
  lemma EventIsLostExactlyBy(ops: seq<Op>, op: Op, l: LogKey, more: seq<Op>)
    ensures var s, s' := Run(ops), Step(Run(ops), op);
            && (MarksOf(s'.history, l)[EventLost] != MarksOf(s.history, l)[EventLost] <==> LosesEvent(s, op, l))
            && (LosesEvent(s, op, l) ==>
                  && l in s'.msgs.logs && s'.msgs.logs[l].status == Sent
                  && MarksOf(RunFrom(s', more).history, l)[EventOut] == 0)
  {
    StepCounts(ops, op, l);
    if LosesEvent(Run(ops), op, l) {
      hide Run, Step, MarksOf, Law;
      StepKeepsLawInRun(ops, op, l);
      LostIsSent(Run(ops), op, l);
      SentIsFinal(Step(Run(ops), op), more, l);
    }
  }

  lemma StepKeepsLawInRun(ops: seq<Op>, op: Op, l: LogKey)
    ensures Law(AccountOf(Run(ops), l)) && Law(AccountOf(Step(Run(ops), op), l))
  {
    hide Law, Step, Run;
    RunKeepsLaw(ops, l);
    StepKeepsLaw(Run(ops), op, l);
  }

  lemma StillThere(l: LogKey, a: Account, a': Account, op: Op, outcome: Delivery.Outcome, now: nat)
    requires op.RunTask? && Moves(l, a, a', op, outcome, now)
    ensures a'.row.Some? <==> a.row.Some?
  {
    hide Ran;
    if a' != a {
      RanFrame(a, a', op.ticket, outcome, now);
    }
  }

  lemma LostIsSent(s: Platform, op: Op, l: LogKey)
    requires LosesEvent(s, op, l) && Law(AccountOf(s, l)) && Law(AccountOf(Step(s, op), l))
    requires MarksOf(Step(s, op).history, l)[EventLost] > 0
    ensures l in Step(s, op).msgs.logs && Step(s, op).msgs.logs[l].status == Sent
    ensures MarksOf(Step(s, op).history, l)[EventOut] == 0
  {
    ReachedIsSendable(s, op);
    StepMoves(s, op, l);
    StillThere(l, AccountOf(s, l), AccountOf(Step(s, op), l), op, OutcomeOf(s, op), s.now);
    hide Step, Moves, OutcomeOf, MarksOf, TicketLaw, MessageLaw;
  }

  /** In every run a log is accepted once more by exactly the steps that call Telegram for it, are not refused, and
      follow an acceptance that was cut off before its commit or reported as an error; all earlier ones were, so a log
      recorded SENT is never accepted again. */
  lemma IsAcceptedAgainExactlyBy(ops: seq<Op>, op: Op, l: LogKey)
    ensures var s := Run(ops);
            var m, m' := MarksOf(s.history, l), MarksOf(Step(s, op).history, l);
            && (m[Accepted] > 0 && m'[Accepted] > m[Accepted] <==>
                  CallsTelegram(s, op, l) && !op.answer.Reject? && m[Unrecorded] + m[Unreported] > 0)
            && (CallsTelegram(s, op, l) ==>
                  m[Accepted] == m[Unrecorded] + m[Unreported] && l in s.msgs.logs && s.msgs.logs[l].status != Sent)
  {
    StepCounts(ops, op, l);
    RunKeepsLaw(ops, l);
    if CallsTelegram(Run(ops), op, l) {
      ReachedIsSendable(Run(ops), op);
    }
    hide Run, Step, Passes, MarksOf, TicketLaw, MessageLaw;
  }

  // ----- The recorded calls -----

  lemma CallIsTraced(s: Platform, l: LogKey, bot: BotId, chat: int, content: Payload.Content, answer: Delivery.Answer,
                     fate: Delivery.Fate)
    requires l in s.msgs.logs && Payload.SendViaTelegram(content).Ok? && !(fate.Cut? && fate.point.AtOnce?)
    ensures Delivery.CallTelegram(s, l, bot, chat, content, answer, fate).0.trace
            == s.trace + if fate.Cut? && fate.point.BeforeCall? then multiset{}
                         else multiset{BotCalled(bot, s.now / 1000), ChatCalled(bot, chat, s.now / 1000)}
  {
    hide Payload.SendViaTelegram, Note, Delivery.CallMarks;
  }

  lemma SendIsTraced(s: Platform, l: LogKey, message: Message, chat: int, answer: Delivery.Answer, fate: Delivery.Fate)
    requires l in s.msgs.logs && Payload.SendViaTelegram(message.content).Ok? && !(fate.Cut? && fate.point.AtOnce?)
    ensures Delivery.ThrottledSend(s, l, message, chat, answer, fate).0.trace
            == s.trace + if Delivery.CheckThrottle(s, message.bot, chat).1 && !(fate.Cut? && fate.point.BeforeCall?)
                         then multiset{BotCalled(message.bot, s.now / 1000), ChatCalled(message.bot, chat, s.now / 1000)}
                         else multiset{}
  {
    hide Payload.SendViaTelegram, Note, Delivery.CallMarks, Delivery.CheckThrottle, Delivery.CallTelegram;
    var (s1, ok) := Delivery.CheckThrottle(s, message.bot, chat);
    if ok {
      CallIsTraced(s1, l, message.bot, chat, message.content, answer, fate);
    }
  }

  lemma SettlingTraces(s: Platform, l: LogKey, t: Ticket, outcome: Delivery.Outcome)
    ensures Delivery.Settle(s, l, t, outcome).trace == s.trace
  {
    hide Take, Enqueue, Note, Delivery.Retried, Delivery.Postponed;
  }

  lemma TaskIsTraced(s: Platform, op: Op)
    requires op.RunTask? && Delivery.CanRun(s, op.log, op.ticket)
    requires Reaches(s, op) ==> Payload.SendViaTelegram(s.msgs.messages[op.log.message].content).Ok?
    ensures Step(s, op).trace
            == s.trace + if CallsTelegram(s, op, op.log)
                         then var bot, chat := s.msgs.messages[op.log.message].bot, s.dests.destinations[op.log.destination].chat;
                              multiset{BotCalled(bot, s.now / 1000), ChatCalled(bot, chat, s.now / 1000)}
                         else multiset{}
  {
    Frames.TaskFrame(s, op.log, op.ticket, op.answer, op.fate);
    hide Step, Payload.SendViaTelegram, Delivery.CheckThrottle, Delivery.ThrottledSend, Delivery.Obstacle,
         Delivery.CanRun, Delivery.Settle;
    var (s1, outcome) := Delivery.ProcessDelivery(s, op.log, op.answer, op.fate);
    SettlingTraces(s1, op.log, op.ticket, outcome);
    if Reaches(s, op) {
      SendIsTraced(s, op.log, s.msgs.messages[op.log.message], s.dests.destinations[op.log.destination].chat,
                   op.answer, op.fate);
    }
  }

  /** In every run a call is recorded, under its bot, chat and second, exactly when Telegram is called. */
  lemma CallsAreRecorded(ops: seq<Op>, op: Op)
    requires op.RunTask?
    ensures var s := Run(ops);
            Step(s, op).trace
            == s.trace + if CallsTelegram(s, op, op.log)
                         then var bot, chat := s.msgs.messages[op.log.message].bot, s.dests.destinations[op.log.destination].chat;
                              multiset{BotCalled(bot, s.now / 1000), ChatCalled(bot, chat, s.now / 1000)}
                         else multiset{}
  {
    var s := Run(ops);
    RunKeepsLaw(ops, op.log);
    hide Run, Step, Law;
    if Delivery.CanRun(s, op.log, op.ticket) {
      if Reaches(s, op) {
        ReachedIsSendable(s, op);
      }
      TaskIsTraced(s, op);
    } else {
      Frames.TaskFrame(s, op.log, op.ticket, op.answer, op.fate);
    }
  }
}
