/** The Celery send task: idempotence check, throttle, Telegram call, retry and permanent failure. */
module Delivery {
  import opened Wrappers
  import opened Rows
  import opened Tables
  import opened State
  import FixedWindow
  import Payload
  import Bots
  import Destinations
  import Messaging

  const MAX_SEND_RETRIES: nat := 5
  const BOT_LIMIT: nat := 30
  const CHAT_LIMIT: nat := 1
  /** One-second windows whose keys live two seconds. */
  const WIDTH: nat := 1
  const TTL: nat := 2

  function Pow2(n: nat): nat {
    if n == 0 then 1 else 2 * Pow2(n - 1)
  }

  /** `_try_consume_window` on the shared counters, with the call recorded. */
  function Consume(s: Platform, key: ThrottleKey): Platform {
    s.(redis := FixedWindow.Increment(s.redis, FixedWindow.Slot(key, FixedWindow.WindowOf(s.now, WIDTH)), TTL, s.now),
       calls := s.calls + [FixedWindow.Call(key, s.now)])
  }

  function CountNow(s: Platform, key: ThrottleKey): nat {
    var slot := FixedWindow.Slot(key, FixedWindow.WindowOf(s.now, WIDTH));
    if slot in s.redis then s.redis[slot].count else 0
  }

  /** Both counters are consumed, the chat's even when the bot's is exhausted. */
  function CheckThrottle(s: Platform, bot: BotId, chat: int): (r: (Platform, bool))
    ensures r.0 == s.(redis := r.0.redis, calls := r.0.calls)
  {
    var s1 := Consume(s, BotKey(bot));
    var s2 := Consume(s1, ChatKey(bot, chat));
    (s2, CountNow(s1, BotKey(bot)) <= BOT_LIMIT && CountNow(s2, ChatKey(bot, chat)) <= CHAT_LIMIT)
  }

  /** What Telegram does with a call and what the client learns. An error may hide an acceptance: a timeout after
      Telegram took the message is an error like any other. */
  datatype Answer = Accept(messageId: Option<int>) | Reject(reason: string) | AcceptUnreported(reason: string)

  /** Where an execution can be cut short: before it did anything, after the throttle let it pass, after the call,
      and after the commit of SENT. Cut after its last effect it is a whole execution of a redelivered job. */
  datatype Point = AtOnce | BeforeCall | AfterCall | AfterCommit

  /** The worker dies or an exception nobody catches ends the execution; the broker keeps the job for redelivery,
      or counts it as done. */
  datatype Fate = Whole | Cut(point: Point, kept: bool)

  datatype Outcome =
    | WasSkipped | WasFailed | WasThrottled | WasSent | WasRejected(reason: string) | WasLost | WasCut(kept: bool)

  function PutLog(s: Platform, l: LogKey, row: DeliveryLog): Platform {
    s.(msgs := s.msgs.(logs := s.msgs.logs[l := row]))
  }

  function Record(s: Platform, l: LogKey, marks: multiset<Mark>): Platform {
    s.(history := Note(s.history, l, marks))
  }

  /** What a call comes to. */
  function CallMarks(answer: Answer, fate: Fate): multiset<Mark> {
    match answer
    case Reject(_) => multiset{Rejected}
    case AcceptUnreported(_) => multiset{Rejected, Accepted, Unreported}
    case Accept(_) =>
      if fate.Whole? then multiset{Accepted, EventOut}
      else if fate.point.AfterCommit? then multiset{Accepted, EventLost}
      else multiset{Accepted, Unrecorded}
  }

  /** The call itself. */
  function Call(s: Platform, l: LogKey, bot: BotId, chat: int, answer: Answer, fate: Fate): Platform {
    var second := FixedWindow.Seconds(s.now);
    Record(s, l, CallMarks(answer, fate)).(
      trace := s.trace + multiset{BotCalled(bot, second), ChatCalled(bot, chat, second)})
  }

  /** The commit of SENT, after the answer. */
  function RecordSent(s: Platform, l: LogKey, messageId: Option<int>, fate: Fate): (Platform, Outcome)
    requires l in s.msgs.logs
  {
    if fate.Cut? && !fate.point.AfterCommit? then (s, WasCut(fate.kept))
    else
      var s1 := PutLog(s, l, Messaging.MarkSent(s.msgs.logs[l], messageId, s.now));
      (s1, if fate.Whole? then WasSent else WasCut(fate.kept))
  }

  /** The Telegram call and what follows it. */
  function CallTelegram(s: Platform, l: LogKey, bot: BotId, chat: int, content: Payload.Content, answer: Answer,
                        fate: Fate): (Platform, Outcome)
    requires l in s.msgs.logs
  {
    if Payload.SendViaTelegram(content).Err? then (s, WasLost)
    else if fate.Cut? && (fate.point.AtOnce? || fate.point.BeforeCall?) then (s, WasCut(fate.kept))
    else
      var s1 := Call(s, l, bot, chat, answer, fate);
      if answer.Accept? then RecordSent(s1, l, answer.messageId, fate)
      else if fate.Whole? then (s1, WasRejected(answer.reason))
      else (s1, WasCut(fate.kept))
  }

  /** Why a delivery does not get as far as the throttle. */
  datatype Stop = Skip | Fail(reason: string)

  /** The checks of `_process_delivery`, in its order: the row, its status, message, bot and destination. */
  function Obstacle(s: Platform, l: LogKey): (r: Option<Stop>)
    ensures !(r == Some(Skip)) ==> l in s.msgs.logs && s.msgs.logs[l].status != Sent
    ensures r.None? ==> l.message in s.msgs.messages && l.destination in s.dests.destinations
  {
    if l !in s.msgs.logs then Some(Skip)
    else
      var log := s.msgs.logs[l];
      if log.status == Sent then Some(Skip)
      else if !Messaging.HasMessage(s.msgs, log.tenant, l.message) then
        Some(Fail("Message not found or has been deleted."))
      else if !Bots.HasBot(s.bots, log.tenant, s.msgs.messages[l.message].bot) then Some(Fail("Bot not found."))
      else if !Destinations.HasDestination(s.dests, log.tenant, l.destination) then
        Some(Fail("Destination not found."))
      else None
  }

  function ThrottledSend(s: Platform, l: LogKey, message: Message, chat: int, answer: Answer, fate: Fate):
    (Platform, Outcome)
    requires l in s.msgs.logs
  {
    var (s1, ok) := CheckThrottle(s, message.bot, chat);
    if ok then CallTelegram(s1, l, message.bot, chat, message.content, answer, fate)
    else if fate.Whole? then (Record(s1, l, multiset{Throttled}), WasThrottled)
    else (s1, WasCut(fate.kept))
  }

  /** `_process_delivery`. */
  function ProcessDelivery(s: Platform, l: LogKey, answer: Answer, fate: Fate): (Platform, Outcome) {
    var obstacle := Obstacle(s, l);
    if fate.Cut? && (fate.point.AtOnce? || obstacle.Some?) then (s, WasCut(fate.kept))
    else match obstacle
         case Some(Skip) => (s, WasSkipped)
         case Some(Fail(reason)) => (PutLog(s, l, Messaging.MarkFailed(s.msgs.logs[l], reason)), WasFailed)
         case None =>
           ThrottledSend(s, l, s.msgs.messages[l.message], s.dests.destinations[l.destination].chat, answer, fate)
  }

  /** `_mark_delivery_failed_permanently`. */
  function FailPermanently(s: Platform, l: LogKey, reason: string): Platform {
    if l !in s.msgs.logs then s else PutLog(s, l, Messaging.MarkFailed(s.msgs.logs[l], reason))
  }

  /** The fresh task of a throttled delivery: the count starts again, the countdown is one second. */
  function Postponed(now: nat): Ticket {
    Ticket(0, now + 1000)
  }

  /** The retry after a Telegram error, with exponential backoff. */
  function Retried(t: Ticket, now: nat): Ticket {
    Ticket(t.retries + 1, now + Pow2(t.retries) * 1000)
  }

  function CutMarks(kept: bool): multiset<Mark> {
    if kept then multiset{CutOff} else multiset{CutOff, JobLost}
  }

  /** The wrapper around a processed delivery. The job leaves the broker, except that a retry and a throttled
      requeue put one back, and that the broker may keep the job of an execution that was cut short. */
  function Settle(s: Platform, l: LogKey, t: Ticket, outcome: Outcome): Platform {
    var rest := Take(s.queue, l, t);
    match outcome
    case WasCut(kept) =>
      Record(if kept then s else s.(queue := rest), l, CutMarks(kept))
    case WasThrottled => s.(queue := Enqueue(rest, l, Postponed(s.now)))
    case WasRejected(reason) =>
      if t.retries >= MAX_SEND_RETRIES then FailPermanently(s, l, reason).(queue := rest)
      else s.(queue := Enqueue(rest, l, Retried(t, s.now)))
    case _ => s.(queue := rest)
  }

  /** `send_message_to_destination` on one queued task. */
  function RunTask(s: Platform, l: LogKey, t: Ticket, answer: Answer, fate: Fate): Platform {
    var (s1, outcome) := ProcessDelivery(s, l, answer, fate);
    Settle(s1, l, t, outcome)
  }

  /** What a task leaves alone. */
  ghost predicate OnlyDelivery(s: Platform, s': Platform) {
    && s'.orgs == s.orgs && s'.bots == s.bots && s'.dests == s.dests && s'.auth == s.auth && s'.now == s.now
    && s'.msgs.messages == s.msgs.messages
  }

  lemma TaskTouchesOnlyDelivery(s: Platform, l: LogKey, t: Ticket, answer: Answer, fate: Fate)
    ensures OnlyDelivery(s, RunTask(s, l, t, answer, fate))
  {
    ProcessTouchesOnlyDelivery(s, l, answer, fate);
    hide ProcessDelivery, Settle;
    var (s1, outcome) := ProcessDelivery(s, l, answer, fate);
    SettleTouchesOnlyDelivery(s1, l, t, outcome);
  }

  lemma SettleTouchesOnlyDelivery(s: Platform, l: LogKey, t: Ticket, outcome: Outcome)
    ensures OnlyDelivery(s, Settle(s, l, t, outcome))
  {
    hide Take, Enqueue, Postponed, Retried, Note, CutMarks;
  }

  lemma CallTouchesOnlyDelivery(s: Platform, l: LogKey, bot: BotId, chat: int, content: Payload.Content,
                                answer: Answer, fate: Fate)
    requires l in s.msgs.logs
    ensures var r := CallTelegram(s, l, bot, chat, content, answer, fate); OnlyDelivery(s, r.0) && r.0.queue == s.queue
  {
    hide CallMarks, Note, Payload.SendViaTelegram;
  }

  lemma SendTouchesOnlyDelivery(s: Platform, l: LogKey, message: Message, chat: int, answer: Answer, fate: Fate)
    requires l in s.msgs.logs
    ensures var r := ThrottledSend(s, l, message, chat, answer, fate); OnlyDelivery(s, r.0) && r.0.queue == s.queue
  {
    hide CallTelegram, CheckThrottle;
    var (s1, ok) := CheckThrottle(s, message.bot, chat);
    if ok {
      CallTouchesOnlyDelivery(s1, l, message.bot, chat, message.content, answer, fate);
    }
  }

  lemma ProcessTouchesOnlyDelivery(s: Platform, l: LogKey, answer: Answer, fate: Fate)
    ensures var r := ProcessDelivery(s, l, answer, fate); OnlyDelivery(s, r.0) && r.0.queue == s.queue
  {
    hide Obstacle, ThrottledSend;
    if Obstacle(s, l).None? {
      SendTouchesOnlyDelivery(s, l, s.msgs.messages[l.message], s.dests.destinations[l.destination].chat, answer, fate);
    }
  }

  /** A task can start when it is in the broker and its countdown is over. */
  predicate CanRun(s: Platform, l: LogKey, t: Ticket) {
    t in Tickets(s.queue, l) && t.eta <= s.now
  }

  // ----- The backoff of an unthrottled chain -----

  /** Total countdown, in seconds, before attempt n of a chain that only meets Telegram errors. */
  ghost function WaitBefore(n: nat): nat {
    if n == 0 then 0 else WaitBefore(n - 1) + Pow2(n - 1)
  }

  lemma {:induction false} WaitIsPow2Minus1(n: nat)
    ensures WaitBefore(n) == Pow2(n) - 1
  {
    if n > 0 {
      WaitIsPow2Minus1(n - 1);
    }
  }

  /** 1, 2, 4, 8 and 16 seconds: the sixth and last attempt comes 31 seconds after the first. */
  lemma BackoffTotal()
    ensures Pow2(0) == 1 && Pow2(1) == 2 && Pow2(2) == 4 && Pow2(3) == 8 && Pow2(4) == 16
    ensures WaitBefore(MAX_SEND_RETRIES) == 31
  {
    WaitIsPow2Minus1(5);
    assert Pow2(5) == 2 * Pow2(4);
  }
}
