/** One delivery log seen across the whole system, and how one step can change it. */
module Ledger {
  import opened Wrappers
  import opened Rows
  import opened Tables
  import opened State
  import opened Platforms
  import Payload
  import Organizations
  import Auth
  import Messaging
  import Delivery
  import Bots
  import Destinations
  import FixedWindow
  import Frames

  /** The log's message and row, its outstanding jobs, and what happened to it. */
  datatype Account = Account(
    message: Option<Message>, row: Option<DeliveryLog>, tickets: multiset<Ticket>, marks: multiset<Mark>)

  ghost function AccountOf(s: Platform, l: LogKey): Account {
    Account(if l.message in s.msgs.messages then Some(s.msgs.messages[l.message]) else None,
            if l in s.msgs.logs then Some(s.msgs.logs[l]) else None,
            Tickets(s.queue, l), MarksOf(s.history, l))
  }

  /** Jobs that are gone undone: never enqueued, or not kept when their execution was cut short. */
  ghost function Lost(a: Account): nat {
    a.marks[EnqueueLost] + a.marks[JobLost]
  }

  /** A scheduled message that has not been dispatched: its logs wait for the dispatcher, not for a task. */
  ghost predicate Held(m: Message) {
    m.scheduledAt.Some? && m.dispatchedAt.None?
  }

  /** When the first task of a log was enqueued. */
  ghost function StartOf(m: Message, row: DeliveryLog): nat {
    if m.dispatchedAt.Some? then m.dispatchedAt.value else row.createdAt
  }

  // ----- How one step can change an account -----

  /** The first task is enqueued now, or lost by a dying process. */
  ghost predicate FirstTask(a: Account, a': Account, now: nat, dropped: bool) {
    if dropped then a'.tickets == a.tickets && a'.marks == a.marks + multiset{EnqueueLost}
    else a'.tickets == a.tickets + multiset{Ticket(0, now)} && a'.marks == a.marks
  }

  ghost predicate Created(a: Account, a': Account, now: nat, dropped: bool) {
    && a.message.None? && a'.message.Some?
    && a'.message.value.dispatchedAt.None? && Payload.SendViaTelegram(a'.message.value.content).Ok?
    && (|| (a'.row == a.row && a'.tickets == a.tickets && a'.marks == a.marks)
        || (&& a'.row == Some(Messaging.QueuedLog(a'.message.value.tenant, now))
            && if a'.message.value.scheduledAt.Some? then a'.tickets == a.tickets && a'.marks == a.marks
               else FirstTask(a, a', now, dropped)))
  }

  /** What the dispatcher and the delete cascade may change in a message. */
  ghost predicate DispatchedNow(a: Account, a': Account, now: nat, dropped: bool) {
    && a.message.Some? && Held(a.message.value)
    && a'.message == Some(a.message.value.(dispatchedAt := Some(now)))
    && a'.row == a.row
    && if a.row.Some? && a.row.value.tenant == a.message.value.tenant then FirstTask(a, a', now, dropped)
       else a'.tickets == a.tickets && a'.marks == a.marks
  }

  ghost predicate Cancelled(a: Account, a': Account) {
    && a.message.Some? && a'.message.Some?
    && a' == a.(message := a'.message)
    && a'.message.value == a.message.value.(deletedAt := a'.message.value.deletedAt)
  }

  ghost predicate FailedFrom(row: DeliveryLog, row': DeliveryLog) {
    row' == row.(status := Failed, errorReason := row'.errorReason) && row'.errorReason.Some?
  }

  ghost predicate SentFrom(row: DeliveryLog, row': DeliveryLog, now: nat) {
    row' == row.(status := Sent, telegramMessageId := row'.telegramMessageId, errorReason := None, sentAt := Some(now))
  }

  ghost predicate Unsent(a: Account) {
    a.row.Some? && a.row.value.status != Sent
  }

  /** An error was reported, perhaps in spite of an acceptance. */
  ghost predicate Errored(a: Account, a': Account) {
    a' == a.(marks := a'.marks)
    && (a'.marks == a.marks + multiset{Rejected} || a'.marks == a.marks + multiset{Rejected, Accepted, Unreported})
  }

  /** The row was recorded SENT. */
  ghost predicate Recorded(a: Account, a': Account, marks: multiset<Mark>, now: nat) {
    && a.row.Some? && a'.row.Some? && SentFrom(a.row.value, a'.row.value, now)
    && a' == a.(row := a'.row, marks := a.marks + marks)
  }

  /** What an execution that was cut short left behind. */
  ghost predicate Interrupted(a: Account, a': Account, now: nat) {
    || a' == a
    || (Unsent(a) &&
        (|| Errored(a, a')
         || a' == a.(marks := a.marks + multiset{Accepted, Unrecorded})
         || Recorded(a, a', multiset{Accepted, EventLost}, now)))
  }

  /** What processing a delivery does to its account before the broker is told. */
  ghost predicate Processed(a: Account, a': Account, outcome: Delivery.Outcome, now: nat) {
    match outcome
    case WasSkipped => a' == a && !Unsent(a)
    case WasCut(_) => Interrupted(a, a', now)
    case WasFailed =>
      Unsent(a) && a'.row.Some? && a' == a.(row := a'.row) && FailedFrom(a.row.value, a'.row.value)
    case WasThrottled => Unsent(a) && a' == a.(marks := a.marks + multiset{Throttled})
    case WasRejected(_) => Unsent(a) && Errored(a, a')
    case WasSent => Unsent(a) && Recorded(a, a', multiset{Accepted, EventOut}, now)
    case WasLost => a' == a && a.message.Some? && Payload.SendViaTelegram(a.message.value.content).Err?
  }

  /** What the broker holds for the log after the execution. */
  ghost function TicketsAfter(tickets: multiset<Ticket>, t: Ticket, outcome: Delivery.Outcome, now: nat):
    multiset<Ticket>
  {
    match outcome
    case WasCut(kept) => if kept then tickets else tickets - multiset{t}
    case WasThrottled => tickets - multiset{t} + multiset{Delivery.Postponed(now)}
    case WasRejected(_) =>
      if t.retries >= Delivery.MAX_SEND_RETRIES then tickets - multiset{t}
      else tickets - multiset{t} + multiset{Delivery.Retried(t, now)}
    case _ => tickets - multiset{t}
  }

  /** A retry was due and none is left. */
  ghost predicate Exhausted(t: Ticket, outcome: Delivery.Outcome) {
    outcome.WasRejected? && t.retries >= Delivery.MAX_SEND_RETRIES
  }

  /** What telling the broker does to an account; an exhausted delivery is recorded as failed first. */
  ghost predicate Settled(a: Account, a': Account, t: Ticket, outcome: Delivery.Outcome, now: nat) {
    && a'.tickets == TicketsAfter(a.tickets, t, outcome, now)
    && if outcome.WasCut? then
         a' == a.(tickets := a'.tickets, marks := a.marks + Delivery.CutMarks(outcome.kept))
       else if Exhausted(t, outcome) && a.row.Some? then
         && a'.row.Some? && FailedFrom(a.row.value, a'.row.value)
         && a' == a.(tickets := a'.tickets, row := a'.row)
       else a' == a.(tickets := a'.tickets)
  }

  /** A job of this log was executed: the delivery processed, then the broker told. */
  ghost predicate Ran(a: Account, a': Account, t: Ticket, outcome: Delivery.Outcome, now: nat) {
    && t in a.tickets && t.eta <= now
    && exists a1 :: Processed(a, a1, outcome, now) && Settled(a1, a', t, outcome, now)
  }

  ghost function OutcomeOf(s: Platform, op: Op): Delivery.Outcome {
    if op.RunTask? then Delivery.ProcessDelivery(s, op.log, op.answer, op.fate).1 else Delivery.WasSkipped
  }

  /** The outcomes that depend on Telegram's answer and on the execution's fate. */
  ghost predicate Fits(outcome: Delivery.Outcome, answer: Delivery.Answer, fate: Delivery.Fate) {
    && (outcome.WasSent? ==> answer.Accept?)
    && (outcome.WasRejected? ==> !answer.Accept?)
    && (outcome.WasCut? ==> fate.Cut? && outcome.kept == fate.kept)
    && (fate.Cut? ==> outcome.WasCut? || outcome.WasLost?)
  }

  ghost predicate Moves(l: LogKey, a: Account, a': Account, op: Op, outcome: Delivery.Outcome, now: nat) {
    a' == a ||
    match op
    case CreateMessage(_, _, _, lost) => Created(a, a', now, l in lost)
    case Dispatch(lost) => DispatchedNow(a, a', now, l in lost)
    case DeleteOrganization(_, _) => Cancelled(a, a')
    case RunTask(log, t, answer, fate) => log == l && Fits(outcome, answer, fate) && Ran(a, a', t, outcome, now)
    case Redeliver(_, t) =>
      t in a.tickets && a' == a.(tickets := a.tickets + multiset{t}, marks := a.marks + multiset{Copied})
    case PurgeLogs(_, _, _) => a' == a.(row := None)
    case _ => false
  }

  // ----- Pieces of the state -----

  lemma QueueMoves(s: Platform, queue: Broker, k: LogKey)
    ensures AccountOf(s.(queue := queue), k) == AccountOf(s, k).(tickets := Tickets(queue, k))
  {
  }

  lemma HistoryMoves(s: Platform, history: History, k: LogKey)
    ensures AccountOf(s.(history := history), k) == AccountOf(s, k).(marks := MarksOf(history, k))
  {
  }

  lemma RecordMoves(s: Platform, l: LogKey, marks: multiset<Mark>, k: LogKey)
    ensures var a := AccountOf(s, k);
            AccountOf(Delivery.Record(s, l, marks), k) == if k == l then a.(marks := a.marks + marks) else a
  {
  }

  lemma PutLogMoves(s: Platform, l: LogKey, row: DeliveryLog, k: LogKey)
    ensures AccountOf(Delivery.PutLog(s, l, row), k)
            == if k == l then AccountOf(s, k).(row := Some(row)) else AccountOf(s, k)
  {
  }

  /** Accounts depend on the messaging tables, the broker and the history only. */
  lemma SameAccount(s: Platform, s': Platform, l: LogKey)
    requires s'.msgs == s.msgs && s'.queue == s.queue && s'.history == s.history
    ensures AccountOf(s', l) == AccountOf(s, l)
  {
  }

  lemma CommitMarks(h: History, logs: set<LogKey>, q: Broker, more: set<LogKey>, t: Ticket, l: LogKey)
    ensures MarksOf(NoteAll(h, logs, multiset{EnqueueLost}), l)
            == if l in logs then MarksOf(h, l) + multiset{EnqueueLost} else MarksOf(h, l)
    ensures Tickets(EnqueueAll(q, more, t), l) == if l in more then Tickets(q, l) + multiset{t} else Tickets(q, l)
  {
  }

  /** Commit and enqueue: the tables are the new ones, the listed logs get their first task or lose it. */
  lemma CommitMoves(s: Platform, msgs: MessageTables, logs: set<LogKey>, lost: set<LogKey>, l: LogKey)
    ensures var a, a' := AccountOf(s.(msgs := msgs), l), AccountOf(CommitAndEnqueue(s, msgs, logs, lost), l);
            if l in logs then FirstTask(a, a', s.now, l in lost) && a' == a.(tickets := a'.tickets, marks := a'.marks)
            else a' == a
  {
    var t := Ticket(0, s.now);
    var q, h := EnqueueAll(s.queue, logs - lost, t), NoteAll(s.history, logs * lost, multiset{EnqueueLost});
    CommitMarks(s.history, logs * lost, s.queue, logs - lost, t, l);
    QueueMoves(s.(msgs := msgs), q, l);
    HistoryMoves(s.(msgs := msgs, queue := q), h, l);
    assert AccountOf(s.(msgs := msgs), l).tickets == Tickets(s.queue, l);
    assert AccountOf(s.(msgs := msgs), l).marks == MarksOf(s.history, l);
    hide AccountOf, EnqueueAll, NoteAll, Tickets, MarksOf;
    assert CommitAndEnqueue(s, msgs, logs, lost) == s.(msgs := msgs, queue := q, history := h);
  }

  lemma InsertMoves(s: Platform, msgs: MessageTables, id: MessageId, row: Message,
                    destinations: seq<DestinationId>, lost: set<LogKey>, l: LogKey)
    requires Messaging.InsertMessage(s.msgs, id, row, destinations, s.now) == Ok(msgs)
    requires row.dispatchedAt.None? && Payload.SendViaTelegram(row.content).Ok?
    ensures var keys := if row.scheduledAt.Some? then {} else Messaging.LogKeys(id, destinations);
            var a, a' := AccountOf(s, l), AccountOf(CommitAndEnqueue(s, msgs, keys, lost), l);
            a' == a || Created(a, a', s.now, l in lost)
  {
    var keys := Messaging.LogKeys(id, destinations);
    CommitMoves(s, msgs, if row.scheduledAt.Some? then {} else keys, lost, l);
    assert l in keys <==> l.message == id && l.destination in destinations;
    if l.message == id {
      var a1 := AccountOf(s.(msgs := msgs), l);
      assert a1.row == if l in keys then Some(Messaging.QueuedLog(row.tenant, s.now)) else AccountOf(s, l).row;
    }
  }

  lemma CreateMoves(s: Platform, p: Principal, r: Messaging.Request, id: MessageId, lost: set<LogKey>, l: LogKey)
    requires Send(s, p, r, id, lost).Ok?
    ensures var a, a' := AccountOf(s, l), AccountOf(Send(s, p, r, id, lost).value, l);
            a' == a || Created(a, a', s.now, l in lost)
  {
    var (tenant, sender) := Authenticate(s, p).value;
    var text := Messaging.ResolveText(r.payload, r.template).value;
    var row := Message(tenant, r.bot, Payload.Stored(r.payload, text), r.scheduledAt, None, None);
    Payload.ValidatedIsSendable(r.payload, text);
    var msgs := Messaging.CreateMessage(s.orgs, s.bots, s.dests, s.msgs, tenant, sender, r, id, s.now).value;
    assert Messaging.InsertMessage(s.msgs, id, row, r.payload.destinations, s.now) == Ok(msgs);
    InsertMoves(s, msgs, id, row, r.payload.destinations, lost, l);
  }

  lemma DueMeaning(m: MessageTables, now: nat, l: LogKey)
    ensures l in Messaging.DueLogs(m, now) <==>
            && l in m.logs && l.message in m.messages && Messaging.IsDue(m.messages[l.message], now)
            && m.logs[l].tenant == m.messages[l.message].tenant
  {
  }

  lemma MarkDispatchedAt(s: Platform, l: LogKey)
    ensures var a, a1 := AccountOf(s, l), AccountOf(s.(msgs := Messaging.MarkDispatched(s.msgs, s.now)), l);
            a1 == a.(message := if a.message.Some? then Some(Messaging.Dispatched(a.message.value, s.now)) else None)
  {
  }

  lemma DispatchMoves(s: Platform, lost: set<LogKey>, l: LogKey)
    ensures var a, a' := AccountOf(s, l), AccountOf(Step(s, Dispatch(lost)), l);
            a' == a || DispatchedNow(a, a', s.now, l in lost)
  {
    MarkDispatchedAt(s, l);
    DueMeaning(s.msgs, s.now, l);
    CommitMoves(s, Messaging.MarkDispatched(s.msgs, s.now), Messaging.DueLogs(s.msgs, s.now), lost, l);
  }

  lemma CallCounts(s: Platform, l: LogKey, bot: BotId, chat: int, answer: Delivery.Answer, fate: Delivery.Fate, k: LogKey)
    ensures var a, s' := AccountOf(s, k), Delivery.Call(s, l, bot, chat, answer, fate);
            && AccountOf(s', k) == (if k == l then a.(marks := a.marks + Delivery.CallMarks(answer, fate)) else a)
            && s'.msgs == s.msgs && s'.now == s.now
  {
    RecordMoves(s, l, Delivery.CallMarks(answer, fate), k);
    SameAccount(Delivery.Record(s, l, Delivery.CallMarks(answer, fate)), Delivery.Call(s, l, bot, chat, answer, fate), k);
    hide AccountOf;
  }

  /** A call Telegram accepted: the row is recorded unless the execution is cut short first. */
  lemma RecordSentMoves(s: Platform, s1: Platform, l: LogKey, answer: Delivery.Answer, fate: Delivery.Fate, k: LogKey)
    requires answer.Accept? && l in s.msgs.logs && s.msgs.logs[l].status != Sent && s1.msgs == s.msgs && s1.now == s.now
    requires var a := AccountOf(s, k);
             AccountOf(s1, k) == if k == l then a.(marks := a.marks + Delivery.CallMarks(answer, fate)) else a
    ensures var r := Delivery.RecordSent(s1, l, answer.messageId, fate);
            if k == l then Processed(AccountOf(s, k), AccountOf(r.0, k), r.1, s.now)
            else AccountOf(r.0, k) == AccountOf(s, k)
  {
    var row := Messaging.MarkSent(s.msgs.logs[l], answer.messageId, s.now);
    PutLogMoves(s1, l, row, k);
    assert AccountOf(s, l).row == Some(s.msgs.logs[l]);
    SentAccount(AccountOf(s, l), row, answer, fate, s.now);
    hide AccountOf, Delivery.PutLog, Messaging.MarkSent, SentFrom, Processed, Delivery.CallMarks;
  }

  lemma SentAccount(a: Account, row: DeliveryLog, answer: Delivery.Answer, fate: Delivery.Fate, now: nat)
    requires Unsent(a) && SentFrom(a.row.value, row, now) && answer.Accept?
    ensures var a1 := a.(marks := a.marks + Delivery.CallMarks(answer, fate));
            if fate.Whole? then Processed(a, a1.(row := Some(row)), Delivery.WasSent, now)
            else Processed(a, if fate.point.AfterCommit? then a1.(row := Some(row)) else a1,
                           Delivery.WasCut(fate.kept), now)
  {
  }

  /** Whether Telegram is called at all. */
  ghost predicate IsCalled(content: Payload.Content, fate: Delivery.Fate) {
    Payload.SendViaTelegram(content).Ok? && !(fate.Cut? && (fate.point.AtOnce? || fate.point.BeforeCall?))
  }

  lemma AcceptedCallMoves(s: Platform, l: LogKey, bot: BotId, chat: int, content: Payload.Content, answer: Delivery.Answer,
                          fate: Delivery.Fate, k: LogKey)
    requires l in s.msgs.logs && s.msgs.logs[l].status != Sent
    requires IsCalled(content, fate) && answer.Accept?
    ensures var r := Delivery.CallTelegram(s, l, bot, chat, content, answer, fate);
            if k == l then Processed(AccountOf(s, k), AccountOf(r.0, k), r.1, s.now)
            else AccountOf(r.0, k) == AccountOf(s, k)
  {
    CallCounts(s, l, bot, chat, answer, fate, k);
    RecordSentMoves(s, Delivery.Call(s, l, bot, chat, answer, fate), l, answer, fate, k);
    hide Processed, AccountOf, Delivery.Call, Delivery.RecordSent, Delivery.CallMarks, Payload.SendViaTelegram;
  }

  lemma ErrorMoves(s: Platform, s1: Platform, l: LogKey, answer: Delivery.Answer, fate: Delivery.Fate, k: LogKey)
    requires !answer.Accept? && l in s.msgs.logs && s.msgs.logs[l].status != Sent
    requires var a := AccountOf(s, k);
             AccountOf(s1, k) == if k == l then a.(marks := a.marks + Delivery.CallMarks(answer, fate)) else a
    ensures var outcome := if fate.Whole? then Delivery.WasRejected(answer.reason) else Delivery.WasCut(fate.kept);
            k == l ==> Processed(AccountOf(s, k), AccountOf(s1, k), outcome, s.now)
  {
    assert AccountOf(s, l).row == Some(s.msgs.logs[l]);
    hide AccountOf;
  }

  lemma ErrorCallMoves(s: Platform, l: LogKey, bot: BotId, chat: int, content: Payload.Content, answer: Delivery.Answer,
                       fate: Delivery.Fate, k: LogKey)
    requires l in s.msgs.logs && s.msgs.logs[l].status != Sent
    requires IsCalled(content, fate) && !answer.Accept?
    ensures var r := Delivery.CallTelegram(s, l, bot, chat, content, answer, fate);
            if k == l then Processed(AccountOf(s, k), AccountOf(r.0, k), r.1, s.now)
            else AccountOf(r.0, k) == AccountOf(s, k)
  {
    CallCounts(s, l, bot, chat, answer, fate, k);
    ErrorMoves(s, Delivery.Call(s, l, bot, chat, answer, fate), l, answer, fate, k);
    hide Processed, AccountOf, Delivery.Call, Delivery.CallMarks, Payload.SendViaTelegram;
  }

  lemma CallMoves(s: Platform, l: LogKey, bot: BotId, chat: int, content: Payload.Content, answer: Delivery.Answer,
                  fate: Delivery.Fate, k: LogKey)
    requires l in s.msgs.logs && s.msgs.logs[l].status != Sent
    requires l.message in s.msgs.messages && s.msgs.messages[l.message].content == content
    ensures var r := Delivery.CallTelegram(s, l, bot, chat, content, answer, fate);
            if k == l then Processed(AccountOf(s, k), AccountOf(r.0, k), r.1, s.now)
            else AccountOf(r.0, k) == AccountOf(s, k)
  {
    assert AccountOf(s, l).message == Some(s.msgs.messages[l.message]);
    UnsentStays(AccountOf(s, l), s.now);
    hide Processed, AccountOf, Delivery.Call, Delivery.RecordSent, Payload.SendViaTelegram;
    if IsCalled(content, fate) {
      hide Delivery.CallTelegram;
      if answer.Accept? {
        AcceptedCallMoves(s, l, bot, chat, content, answer, fate, k);
      } else {
        ErrorCallMoves(s, l, bot, chat, content, answer, fate, k);
      }
    }
  }

  /** Nothing happened to a log that could be sent: it was cut short, or its content met a failed assertion. */
  lemma UnsentStays(a: Account, now: nat)
    ensures Processed(a, a, Delivery.WasCut(true), now) && Processed(a, a, Delivery.WasCut(false), now)
    ensures a.message.Some? && Payload.SendViaTelegram(a.message.value.content).Err? ==>
              Processed(a, a, Delivery.WasLost, now)
  {
  }

  lemma PutFailedMoves(s: Platform, l: LogKey, reason: string, k: LogKey)
    requires l in s.msgs.logs
    ensures var s' := Delivery.PutLog(s, l, Messaging.MarkFailed(s.msgs.logs[l], reason));
            var a, a' := AccountOf(s, k), AccountOf(s', k);
            if k == l then a'.row.Some? && a' == a.(row := a'.row) && FailedFrom(a.row.value, a'.row.value) else a' == a
  {
    PutLogMoves(s, l, Messaging.MarkFailed(s.msgs.logs[l], reason), k);
  }

  lemma HeldBackMoves(s: Platform, s1: Platform, l: LogKey, fate: Delivery.Fate, k: LogKey)
    requires l in s.msgs.logs && s.msgs.logs[l].status != Sent && AccountOf(s1, k) == AccountOf(s, k)
    ensures var a, s' := AccountOf(s, k), if fate.Whole? then Delivery.Record(s1, l, multiset{Throttled}) else s1;
            if k == l then Processed(a, AccountOf(s', k), if fate.Whole? then Delivery.WasThrottled
                                                          else Delivery.WasCut(fate.kept), s.now)
            else AccountOf(s', k) == a
  {
    assert AccountOf(s, l).row == Some(s.msgs.logs[l]);
    RecordMoves(s1, l, multiset{Throttled}, k);
    hide AccountOf, Delivery.Record;
  }

  lemma ThrottleMoves(s: Platform, l: LogKey, answer: Delivery.Answer, fate: Delivery.Fate, k: LogKey)
    requires l in s.msgs.logs && s.msgs.logs[l].status != Sent && l.message in s.msgs.messages
    requires l.destination in s.dests.destinations
    ensures var r := Delivery.ThrottledSend(s, l, s.msgs.messages[l.message], s.dests.destinations[l.destination].chat,
                                            answer, fate);
            if k == l then Processed(AccountOf(s, k), AccountOf(r.0, k), r.1, s.now)
            else AccountOf(r.0, k) == AccountOf(s, k)
  {
    var message := s.msgs.messages[l.message];
    var chat := s.dests.destinations[l.destination].chat;
    var (s1, ok) := Delivery.CheckThrottle(s, message.bot, chat);
    SameAccount(s, s1, k);
    hide Delivery.CheckThrottle, Delivery.CallTelegram, AccountOf, Delivery.Record, Processed;
    if ok {
      CallMoves(s1, l, message.bot, chat, message.content, answer, fate, k);
    } else {
      HeldBackMoves(s, s1, l, fate, k);
    }
  }

  lemma ProcessMoves(s: Platform, l: LogKey, answer: Delivery.Answer, fate: Delivery.Fate, k: LogKey)
    ensures var r := Delivery.ProcessDelivery(s, l, answer, fate);
            if k == l then Processed(AccountOf(s, k), AccountOf(r.0, k), r.1, s.now)
            else AccountOf(r.0, k) == AccountOf(s, k)
  {
    hide Delivery.ThrottledSend;
    match Delivery.Obstacle(s, l)
    case Some(Skip) =>
    case Some(Fail(reason)) => PutFailedMoves(s, l, reason, k);
    case None => ThrottleMoves(s, l, answer, fate, k);
  }

  lemma TakeTickets(q: Broker, l: LogKey, t: Ticket, back: Ticket, k: LogKey)
    ensures Tickets(Take(q, l, t), k) == if k == l then Tickets(q, k) - multiset{t} else Tickets(q, k)
    ensures Tickets(Enqueue(Take(q, l, t), l, back), k)
            == if k == l then Tickets(q, k) - multiset{t} + multiset{back} else Tickets(q, k)
  {
  }

  lemma FailMoves(s: Platform, l: LogKey, reason: string, queue: Broker, k: LogKey)
    ensures var a, a' := AccountOf(s, k), AccountOf(Delivery.FailPermanently(s, l, reason).(queue := queue), k);
            if k == l && a.row.Some? then
              && a'.row.Some? && FailedFrom(a.row.value, a'.row.value)
              && a' == a.(tickets := Tickets(queue, k), row := a'.row)
            else a' == a.(tickets := Tickets(queue, k))
  {
    QueueMoves(Delivery.FailPermanently(s, l, reason), queue, k);
    if l in s.msgs.logs {
      PutFailedMoves(s, l, reason, k);
    }
  }

  lemma RequeueSettles(s: Platform, l: LogKey, t: Ticket, outcome: Delivery.Outcome, k: LogKey)
    requires outcome.WasThrottled? || (outcome.WasRejected? && t.retries < Delivery.MAX_SEND_RETRIES)
    ensures var a, a' := AccountOf(s, k), AccountOf(Delivery.Settle(s, l, t, outcome), k);
            a' == if k == l then a.(tickets := TicketsAfter(a.tickets, t, outcome, s.now)) else a
  {
    var back := if outcome.WasThrottled? then Delivery.Postponed(s.now) else Delivery.Retried(t, s.now);
    var queue := Enqueue(Take(s.queue, l, t), l, back);
    assert Delivery.Settle(s, l, t, outcome) == s.(queue := queue);
    QueueMoves(s, queue, k);
    TakeTickets(s.queue, l, t, back, k);
  }

  lemma SettleCases(s: Platform, l: LogKey, t: Ticket, outcome: Delivery.Outcome)
    ensures Exhausted(t, outcome) ==>
              Delivery.Settle(s, l, t, outcome)
              == Delivery.FailPermanently(s, l, outcome.reason).(queue := Take(s.queue, l, t))
    ensures outcome.WasCut? ==>
              Delivery.Settle(s, l, t, outcome)
              == Delivery.Record(if outcome.kept then s else s.(queue := Take(s.queue, l, t)), l,
                                 Delivery.CutMarks(outcome.kept))
  {
    hide Take, Enqueue, Delivery.FailPermanently, Delivery.Record, Delivery.CutMarks;
  }

  lemma ExhaustionSettles(s: Platform, l: LogKey, t: Ticket, outcome: Delivery.Outcome, k: LogKey)
    requires Exhausted(t, outcome)
    ensures var a, a' := AccountOf(s, k), AccountOf(Delivery.Settle(s, l, t, outcome), k);
            if k == l then Settled(a, a', t, outcome, s.now) else a' == a
  {
    SettleCases(s, l, t, outcome);
    assert AccountOf(s, k).tickets == Tickets(s.queue, k);
    hide AccountOf, Take, Delivery.FailPermanently, Delivery.Settle;
    TakeTickets(s.queue, l, t, t, k);
    FailMoves(s, l, outcome.reason, Take(s.queue, l, t), k);
  }

  lemma CutSettles(s: Platform, l: LogKey, t: Ticket, outcome: Delivery.Outcome, k: LogKey)
    requires outcome.WasCut?
    ensures var a, a' := AccountOf(s, k), AccountOf(Delivery.Settle(s, l, t, outcome), k);
            if k == l then Settled(a, a', t, outcome, s.now) else a' == a
  {
    SettleCases(s, l, t, outcome);
    hide AccountOf, Take, Delivery.Record, Delivery.CutMarks, Delivery.Settle;
    if outcome.kept {
      RecordMoves(s, l, Delivery.CutMarks(true), k);
    } else {
      DroppedMoves(s, l, t, k);
    }
  }

  lemma DroppedMoves(s: Platform, l: LogKey, t: Ticket, k: LogKey)
    ensures var a := AccountOf(s, k);
            AccountOf(Delivery.Record(s.(queue := Take(s.queue, l, t)), l, Delivery.CutMarks(false)), k)
            == if k == l then a.(tickets := a.tickets - multiset{t}, marks := a.marks + Delivery.CutMarks(false)) else a
  {
    var s1 := s.(queue := Take(s.queue, l, t));
    RecordMoves(s1, l, Delivery.CutMarks(false), k);
    TakeTickets(s.queue, l, t, t, k);
    QueueMoves(s, s1.queue, k);
    assert AccountOf(s, k).tickets == Tickets(s.queue, k);
    hide AccountOf, Delivery.Record, Delivery.CutMarks, Take;
  }

  lemma RemovalSettles(s: Platform, l: LogKey, t: Ticket, outcome: Delivery.Outcome, k: LogKey)
    requires !outcome.WasRejected? && !outcome.WasThrottled? && !outcome.WasCut?
    ensures var a, a' := AccountOf(s, k), AccountOf(Delivery.Settle(s, l, t, outcome), k);
            a' == if k == l then a.(tickets := TicketsAfter(a.tickets, t, outcome, s.now)) else a
  {
    TakeTickets(s.queue, l, t, t, k);
    QueueMoves(s, Take(s.queue, l, t), k);
    hide Take;
  }

  lemma SettleMoves(s: Platform, l: LogKey, t: Ticket, outcome: Delivery.Outcome, k: LogKey)
    ensures var a, a' := AccountOf(s, k), AccountOf(Delivery.Settle(s, l, t, outcome), k);
            if k == l then Settled(a, a', t, outcome, s.now) else a' == a
  {
    hide AccountOf, Delivery.Settle, TicketsAfter;
    if outcome.WasCut? {
      CutSettles(s, l, t, outcome, k);
    } else if Exhausted(t, outcome) {
      ExhaustionSettles(s, l, t, outcome, k);
    } else if outcome.WasThrottled? || outcome.WasRejected? {
      RequeueSettles(s, l, t, outcome, k);
    } else {
      RemovalSettles(s, l, t, outcome, k);
    }
  }

  lemma RunMoves(s: Platform, l: LogKey, t: Ticket, answer: Delivery.Answer, fate: Delivery.Fate, k: LogKey)
    requires Delivery.CanRun(s, l, t)
    ensures var s' := Delivery.RunTask(s, l, t, answer, fate);
            if k == l then
              Ran(AccountOf(s, k), AccountOf(s', k), t, Delivery.ProcessDelivery(s, l, answer, fate).1, s.now)
            else AccountOf(s', k) == AccountOf(s, k)
  {
    hide Delivery.ProcessDelivery, Delivery.Settle, Processed, Settled;
    var r := Delivery.ProcessDelivery(s, l, answer, fate);
    ProcessMoves(s, l, answer, fate, k);
    Delivery.ProcessTouchesOnlyDelivery(s, l, answer, fate);
    SettleMoves(r.0, l, t, r.1, k);
    if k == l {
      assert Processed(AccountOf(s, k), AccountOf(r.0, k), r.1, s.now);
    }
  }

  lemma OutcomeFits(s: Platform, l: LogKey, answer: Delivery.Answer, fate: Delivery.Fate)
    ensures Fits(Delivery.ProcessDelivery(s, l, answer, fate).1, answer, fate)
  {
    hide Delivery.Obstacle, Delivery.CheckThrottle, Payload.SendViaTelegram, Delivery.Call;
  }

  lemma DeleteMoves(s: Platform, tenant: TenantId, actor: UserId, l: LogKey)
    ensures var a, a' := AccountOf(s, l), AccountOf(Step(s, DeleteOrganization(tenant, actor)), l);
            a' == a || Cancelled(a, a')
  {
    hide Organizations.CheckPathPermission, Organizations.Dissolved, Bots.Retired, Auth.RevokeAllForTenant;
  }

  lemma ExchangeStays(s: Platform, auth: AuthOp, l: LogKey)
    ensures AccountOf(Step(s, OnAuth(auth)), l) == AccountOf(s, l)
  {
    Frames.AuthFrame(s, auth);
    hide Step;
    SameAccount(s, Step(s, OnAuth(auth)), l);
  }

  /** Steps of the other modules do not touch any account. */
  lemma OtherStepsStay(s: Platform, op: Op, l: LogKey)
    requires op.Tick? || op.OnOrgs? || op.OnBots? || op.OnDestinations? || op.Webhook? || op.OnAuth?
    ensures AccountOf(Step(s, op), l) == AccountOf(s, l)
  {
    hide Step;
    match op
    case OnAuth(auth) => ExchangeStays(s, auth, l);
    case Tick(ms) => Frames.TickFrame(s, ms); SameAccount(s, Step(s, op), l);
    case OnOrgs(org) => Frames.OrgsFrame(s, org); SameAccount(s, Step(s, op), l);
    case OnBots(user, tenant, bot) => Frames.BotsFrame(s, user, tenant, bot); SameAccount(s, Step(s, op), l);
    case OnDestinations(user, tenant, destination) =>
      Frames.DestinationsFrame(s, user, tenant, destination);
      SameAccount(s, Step(s, op), l);
    case Webhook(bot, secretMatches, update, id) =>
      Frames.WebhookFrame(s, bot, secretMatches, update, id);
      SameAccount(s, Step(s, op), l);
  }

  lemma RedeliverMoves(s: Platform, l: LogKey, t: Ticket, k: LogKey)
    requires t in Tickets(s.queue, l)
    ensures var a, a' := AccountOf(s, k), AccountOf(Step(s, Redeliver(l, t)), k);
            if k == l then a' == a.(tickets := a.tickets + multiset{t}, marks := a.marks + multiset{Copied}) else a' == a
  {
    Frames.RedeliverFrame(s, l, t);
    hide Step;
    var queue := Enqueue(s.queue, l, t);
    QueueMoves(s, queue, k);
    RecordMoves(s.(queue := queue), l, multiset{Copied}, k);
    assert Step(s, Redeliver(l, t)) == Delivery.Record(s.(queue := queue), l, multiset{Copied});
  }

  lemma PurgeMoves(s: Platform, tenant: TenantId, before: nat, victims: set<LogKey>, l: LogKey)
    ensures var a, a' := AccountOf(s, l), AccountOf(Step(s, PurgeLogs(tenant, before, victims)), l);
            a' == a || a' == a.(row := None)
  {
    Frames.PurgeFrame(s, tenant, before, victims);
    hide Step;
  }

  /** Every step changes every account in one of the ways above, or not at all. */
  lemma StepMoves(s: Platform, op: Op, l: LogKey)
    ensures Moves(l, AccountOf(s, l), AccountOf(Step(s, op), l), op, OutcomeOf(s, op), s.now)
  {
    hide AccountOf, Step, Created, DispatchedNow, Cancelled, Ran, Fits, Send, DeleteTenant, Delivery.RunTask,
         Delivery.ProcessDelivery;
    match op
    case CreateMessage(p, r, id, lost) => SendMoves(s, p, r, id, lost, l);
    case Dispatch(lost) => DispatchMoves(s, lost, l);
    case RunTask(log, t, answer, fate) =>
      Frames.TaskFrame(s, log, t, answer, fate);
      if Delivery.CanRun(s, log, t) {
        RunMoves(s, log, t, answer, fate, l);
        OutcomeFits(s, log, answer, fate);
      }
    case DeleteOrganization(tenant, actor) => DeleteMoves(s, tenant, actor, l);
    case Redeliver(log, t) =>
      Frames.RedeliverFrame(s, log, t);
      if t in Tickets(s.queue, log) {
        RedeliverMoves(s, log, t, l);
        HasTicket(s, log, t);
      }
    case PurgeLogs(tenant, before, victims) => PurgeMoves(s, tenant, before, victims, l);
    case _ => OtherStepsStay(s, op, l);
  }

  lemma HasTicket(s: Platform, l: LogKey, t: Ticket)
    requires t in Tickets(s.queue, l)
    ensures t in AccountOf(s, l).tickets
  {
  }

  lemma SendMoves(s: Platform, p: Principal, r: Messaging.Request, id: MessageId, lost: set<LogKey>, l: LogKey)
    ensures var a, a' := AccountOf(s, l), AccountOf(Step(s, CreateMessage(p, r, id, lost)), l);
            a' == a || Created(a, a', s.now, l in lost)
  {
    hide AccountOf, Created, Send;
    if Send(s, p, r, id, lost).Ok? {
      CreateMoves(s, p, r, id, lost, l);
    }
  }

  // ----- What an execution never changes -----

  ghost predicate SameFrame(a: Account, a': Account) {
    && a'.message == a.message && (a'.row.Some? <==> a.row.Some?)
    && (a.row.Some? ==> a'.row.value.tenant == a.row.value.tenant && a'.row.value.createdAt == a.row.value.createdAt)
  }

  lemma ProcessedFrame(a: Account, a': Account, outcome: Delivery.Outcome, now: nat)
    requires Processed(a, a', outcome, now)
    ensures SameFrame(a, a') && a'.tickets == a.tickets && (outcome.WasRejected? ==> Unsent(a'))
  {
    hide Payload.SendViaTelegram;
  }

  lemma SettledFrame(a: Account, a': Account, t: Ticket, outcome: Delivery.Outcome, now: nat)
    requires Settled(a, a', t, outcome, now)
    ensures SameFrame(a, a')
  {
    hide TicketsAfter;
  }

  lemma RanFrame(a: Account, a': Account, t: Ticket, outcome: Delivery.Outcome, now: nat)
    requires Ran(a, a', t, outcome, now)
    ensures SameFrame(a, a')
  {
    var a1 :| Processed(a, a1, outcome, now) && Settled(a1, a', t, outcome, now);
    hide Processed, Settled;
    ProcessedFrame(a, a1, outcome, now);
    SettledFrame(a1, a', t, outcome, now);
  }
}
