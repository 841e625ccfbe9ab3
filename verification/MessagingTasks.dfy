/** The Celery tasks: sending one delivery, and dispatching scheduled messages. */
module MessagingTasks {
  import opened Wrappers
  import opened Rows
  import opened Tables
  import opened State
  import opened Platforms
  import opened Database
  import opened Celery
  import FixedWindow
  import Payload
  import Bots
  import Destinations
  import Messaging
  import MessagingService
  import Delivery

  type Counters = FixedWindow.Redis<ThrottleKey>

  /** The state of the system, put together from its parts. */
  ghost function View(session: Session, redis: Counters, celery: Celery, now: nat): Platform
    reads session, redis, celery
  {
    Platform(session.Orgs(), session.Bots(), session.Dests(), session.Msgs(), session.Auth(),
             celery.queue, redis.counters, now, celery.history, celery.trace, celery.calls)
  }

  method TryConsumeWindow(redis: Counters, celery: Celery, key: ThrottleKey, limit: nat, now: nat)
    returns (allowed: bool)
    modifies redis, celery`calls
    ensures redis.counters
            == FixedWindow.Increment(old(redis.counters),
                                     FixedWindow.Slot(key, FixedWindow.WindowOf(now, Delivery.WIDTH)), Delivery.TTL, now)
    ensures celery.calls == old(celery.calls) + [FixedWindow.Call(key, now)]
    ensures allowed <==> redis.counters[FixedWindow.Slot(key, FixedWindow.WindowOf(now, Delivery.WIDTH))].count <= limit
  {
    celery.calls := celery.calls + [FixedWindow.Call(key, now)];
    var retryAfter;
    allowed, retryAfter := redis.TryConsumeWindow(key, limit, Delivery.WIDTH, Delivery.TTL, now);
  }

  /** Both windows are consumed before either answer is looked at. */
  method CheckThrottle(session: Session, redis: Counters, celery: Celery, bot: BotId, chat: int, now: nat)
    returns (ok: bool)
    modifies redis, celery`calls
    ensures (View(session, redis, celery, now), ok)
            == Delivery.CheckThrottle(old(View(session, redis, celery, now)), bot, chat)
  {
    var botOk := TryConsumeWindow(redis, celery, BotKey(bot), Delivery.BOT_LIMIT, now);
    ghost var s1 := Delivery.Consume(old(View(session, redis, celery, now)), BotKey(bot));
    assert botOk <==> Delivery.CountNow(s1, BotKey(bot)) <= Delivery.BOT_LIMIT;
    var chatOk := TryConsumeWindow(redis, celery, ChatKey(bot, chat), Delivery.CHAT_LIMIT, now);
    ok := botOk && chatOk;
  }

  method MarkSent(session: Session, l: LogKey, telegramMessageId: Option<int>, now: nat)
    requires l in session.logs
    modifies session`logs
    ensures session.logs
            == old(session.logs)[l := Messaging.MarkSent(old(session.logs)[l], telegramMessageId, now)]
  {
    var row := session.logs[l];
    row := row.(status := Sent);
    row := row.(telegramMessageId := telegramMessageId);
    row := row.(errorReason := None);
    row := row.(sentAt := Some(now));
    session.logs := session.logs[l := row];
  }

  method MarkFailed(session: Session, l: LogKey, reason: string)
    requires l in session.logs
    modifies session`logs
    ensures session.logs == old(session.logs)[l := Messaging.MarkFailed(old(session.logs)[l], reason)]
  {
    var row := session.logs[l];
    row := row.(status := Failed);
    row := row.(errorReason := Some(if |reason| <= 2000 then reason else reason[..2000]));
    session.logs := session.logs[l := row];
  }

  /** The call to Telegram: only the proofs see it happen. */
  method CallTelegram(session: Session, redis: Counters, celery: Celery, l: LogKey, bot: BotId, chat: int,
                      answer: Delivery.Answer, fate: Delivery.Fate, now: nat)
    modifies celery`history, celery`trace
    ensures View(session, redis, celery, now)
            == Delivery.Call(old(View(session, redis, celery, now)), l, bot, chat, answer, fate)
  {
    hide Note, Delivery.CallMarks;
    celery.history := Note(celery.history, l, Delivery.CallMarks(answer, fate));
    ghost var second := FixedWindow.Seconds(now);
    celery.trace := celery.trace + multiset{BotCalled(bot, second), ChatCalled(bot, chat, second)};
  }

  method RecordSent(session: Session, redis: Counters, celery: Celery, l: LogKey, messageId: Option<int>,
                    fate: Delivery.Fate, now: nat) returns (outcome: Delivery.Outcome)
    requires l in session.logs && session.Clean()
    modifies session`logs, session`committed
    ensures session.Clean()
    ensures (View(session, redis, celery, now), outcome)
            == Delivery.RecordSent(old(View(session, redis, celery, now)), l, messageId, fate)
  {
    if fate.Cut? && !fate.point.AfterCommit? {
      return Delivery.WasCut(fate.kept);
    }
    MarkSent(session, l, messageId, now);
    session.Commit();
    return if fate.Whole? then Delivery.WasSent else Delivery.WasCut(fate.kept);
  }

  /** The Telegram call, whose answer is a parameter, and the bookkeeping after it. Where `fate` cuts the execution
      short the method returns: nothing after that point happens. */
  method Deliver(session: Session, redis: Counters, celery: Celery, l: LogKey, bot: BotId, chat: int,
                 content: Payload.Content, answer: Delivery.Answer, fate: Delivery.Fate, now: nat)
    returns (outcome: Delivery.Outcome)
    requires l in session.logs && session.Clean()
    modifies session`logs, session`committed, celery`history, celery`trace
    ensures session.Clean()
    ensures (View(session, redis, celery, now), outcome)
            == Delivery.CallTelegram(old(View(session, redis, celery, now)), l, bot, chat, content, answer, fate)
  {
    hide Delivery.Call, Delivery.RecordSent, Payload.SendViaTelegram;
    if Payload.SendViaTelegram(content).Err? {
      return Delivery.WasLost;
    }
    if fate.Cut? && (fate.point.AtOnce? || fate.point.BeforeCall?) {
      return Delivery.WasCut(fate.kept);
    }
    CallTelegram(session, redis, celery, l, bot, chat, answer, fate, now);
    if answer.Accept? {
      outcome := RecordSent(session, redis, celery, l, answer.messageId, fate, now);
    } else {
      return if fate.Whole? then Delivery.WasRejected(answer.reason) else Delivery.WasCut(fate.kept);
    }
  }

  method Fail(session: Session, l: LogKey, reason: string, fate: Delivery.Fate) returns (outcome: Delivery.Outcome)
    requires l in session.logs && session.Clean()
    modifies session`logs, session`committed
    ensures session.Clean()
    ensures session.logs == if fate.Cut? then old(session.logs)
                            else old(session.logs)[l := Messaging.MarkFailed(old(session.logs)[l], reason)]
    ensures outcome == if fate.Cut? then Delivery.WasCut(fate.kept) else Delivery.WasFailed
  {
    if fate.Cut? {
      return Delivery.WasCut(fate.kept);
    }
    MarkFailed(session, l, reason);
    session.Commit();
    return Delivery.WasFailed;
  }

  /** `_process_delivery`. An execution cut short before its first commit has changed no row. */
  method ProcessDelivery(session: Session, redis: Counters, celery: Celery, l: LogKey, answer: Delivery.Answer,
                         fate: Delivery.Fate, now: nat) returns (outcome: Delivery.Outcome)
    requires session.Clean()
    modifies session`logs, session`committed, redis, celery`history, celery`trace, celery`calls
    ensures session.Clean()
    ensures (View(session, redis, celery, now), outcome)
            == Delivery.ProcessDelivery(old(View(session, redis, celery, now)), l, answer, fate)
  {
    if fate.Cut? && fate.point.AtOnce? {
      return Delivery.WasCut(fate.kept);
    }
    if l !in session.logs {
      return if fate.Cut? then Delivery.WasCut(fate.kept) else Delivery.WasSkipped;
    }
    var log := session.logs[l];
    if log.status == Sent {
      return if fate.Cut? then Delivery.WasCut(fate.kept) else Delivery.WasSkipped;
    }
    if !Messaging.HasMessage(session.Msgs(), log.tenant, l.message) {
      outcome := Fail(session, l, "Message not found or has been deleted.", fate);
      return;
    }
    var message := session.messages[l.message];
    if !Bots.HasBot(session.Bots(), log.tenant, message.bot) {
      outcome := Fail(session, l, "Bot not found.", fate);
      return;
    }
    if !Destinations.HasDestination(session.Dests(), log.tenant, l.destination) {
      outcome := Fail(session, l, "Destination not found.", fate);
      return;
    }
    hide Delivery.ThrottledSend, Messaging.HasMessage, Bots.HasBot, Destinations.HasDestination;
    outcome := SendThrottled(session, redis, celery, l, message, session.destinations[l.destination].chat, answer, fate,
                             now);
  }

  method SendThrottled(session: Session, redis: Counters, celery: Celery, l: LogKey, message: Message, chat: int,
                       answer: Delivery.Answer, fate: Delivery.Fate, now: nat) returns (outcome: Delivery.Outcome)
    requires l in session.logs && session.Clean()
    modifies session`logs, session`committed, redis, celery`history, celery`trace, celery`calls
    ensures session.Clean()
    ensures (View(session, redis, celery, now), outcome)
            == Delivery.ThrottledSend(old(View(session, redis, celery, now)), l, message, chat, answer, fate)
  {
    hide Delivery.CheckThrottle, Delivery.CallTelegram, Note;
    var ok := CheckThrottle(session, redis, celery, message.bot, chat, now);
    if ok {
      outcome := Deliver(session, redis, celery, l, message.bot, chat, message.content, answer, fate, now);
    } else if fate.Cut? {
      return Delivery.WasCut(fate.kept);
    } else {
      celery.history := Note(celery.history, l, multiset{Throttled});
      return Delivery.WasThrottled;
    }
  }

  method MarkDeliveryFailedPermanently(session: Session, l: LogKey, reason: string)
    requires session.Clean()
    modifies session`logs, session`committed
    ensures session.Clean()
    ensures session.logs == if l in old(session.logs)
                            then old(session.logs)[l := Messaging.MarkFailed(old(session.logs)[l], reason)]
                            else old(session.logs)
  {
    if l in session.logs {
      MarkFailed(session, l, reason);
      session.Commit();
    }
  }

  /** The wrapper: what becomes of the job after its delivery was processed. */
  method Conclude(session: Session, redis: Counters, celery: Celery, l: LogKey, t: Ticket,
                  outcome: Delivery.Outcome, now: nat)
    requires session.Clean()
    modifies session`logs, session`committed, celery`queue, celery`history
    ensures session.Clean()
    ensures View(session, redis, celery, now)
            == Delivery.Settle(old(View(session, redis, celery, now)), l, t, outcome)
  {
    hide Take, Enqueue, Delivery.Retried, Delivery.Postponed, Note, Delivery.CutMarks;
    if outcome.WasCut? {
      if !outcome.kept {
        celery.Acknowledge(l, t);
      }
      celery.history := Note(celery.history, l, Delivery.CutMarks(outcome.kept));
      return;
    }
    celery.Acknowledge(l, t);
    match outcome
    case WasRejected(reason) =>
      if t.retries >= Delivery.MAX_SEND_RETRIES {
        MarkDeliveryFailedPermanently(session, l, reason);
      } else {
        celery.ApplyAsync(l, Delivery.Retried(t, now));
      }
    case WasThrottled => celery.ApplyAsync(l, Delivery.Postponed(now));
    case _ =>
  }

  /** One execution of a job the broker delivered; of one cut short the broker may keep the job. */
  method SendMessageToDestination(session: Session, redis: Counters, celery: Celery, l: LogKey, t: Ticket,
                                  answer: Delivery.Answer, fate: Delivery.Fate, now: nat)
    requires session.Clean()
    modifies session`logs, session`committed, redis, celery
    ensures session.Clean()
    ensures View(session, redis, celery, now)
            == Delivery.RunTask(old(View(session, redis, celery, now)), l, t, answer, fate)
  {
    hide View, Delivery.ProcessDelivery, Delivery.Settle;
    var outcome := ProcessDelivery(session, redis, celery, l, answer, fate, now);
    Conclude(session, redis, celery, l, t, outcome, now);
  }

  /** The enqueueing loops, message by message and log by log. */
  method EnqueueBatches(celery: Celery, dispatched: seq<MessagingService.Batch>, ghost ids: seq<MessageId>,
                        ghost m: MessageTables, lost: set<LogKey>, now: nat)
    requires Distinct(ids) && MessagingService.Covers(dispatched, ids, m)
    modifies celery`queue, celery`history
    ensures Enqueued(old(celery.queue), old(celery.history), celery.queue, celery.history, LogsOfAll(m, ids), lost, now)
  {
    NoneEnqueued(celery.queue, celery.history, lost, now);
    assert LogsOfAll(m, ids[..0]) == {};
    var i := 0;
    while i < |dispatched|
      invariant 0 <= i <= |dispatched|
      invariant Enqueued(old(celery.queue), old(celery.history), celery.queue, celery.history, LogsOfAll(m, ids[..i]), lost, now)
    {
      hide Enqueued, LogsOfAll;
      ghost var q, h := celery.queue, celery.history;
      LogsOfNext(m, ids, i, dispatched);
      celery.DelayAll(dispatched[i].rows, lost, now);
      EnqueuedMore(old(celery.queue), old(celery.history), q, h, celery.queue, celery.history, LogsOfAll(m, ids[..i]),
                   KeySet(dispatched[i].rows), lost, now);
      i := i + 1;
    }
    assert ids[..i] == ids;
  }

  /** Celery beat: mark and commit first, enqueue afterwards. */
  method DispatchScheduledMessages(session: Session, celery: Celery, lost: set<LogKey>, now: nat)
    requires session.Clean()
    modifies session`messages, session`committed, celery`queue, celery`history
    ensures session.Clean() && session.Msgs() == Messaging.MarkDispatched(old(session.Msgs()), now)
    ensures Enqueued(old(celery.queue), old(celery.history), celery.queue, celery.history,
                     Messaging.DueLogs(old(session.Msgs()), now), lost, now)
  {
    var ids, dispatched := MessagingService.DispatchDueScheduledMessages(session, now);
    session.Commit();
    EnqueueBatches(celery, dispatched, ids, old(session.Msgs()), lost, now);
    assert LogsOfAll(old(session.Msgs()), ids) == Messaging.DueLogs(old(session.Msgs()), now);
    hide Enqueued, MessagingService.Covers;
  }

  /** The logs of several messages. */
  ghost function LogsOfAll(m: MessageTables, ids: seq<MessageId>): set<LogKey> {
    set l | l in m.logs && l.message in ids && l.message in m.messages
            && m.logs[l].tenant == m.messages[l.message].tenant
  }

  lemma LogsOfNext(m: MessageTables, ids: seq<MessageId>, i: nat, dispatched: seq<MessagingService.Batch>)
    requires i < |ids| && Distinct(ids) && MessagingService.Covers(dispatched, ids, m)
    ensures KeySet(dispatched[i].rows) !! LogsOfAll(m, ids[..i])
    ensures LogsOfAll(m, ids[..i + 1]) == LogsOfAll(m, ids[..i]) + KeySet(dispatched[i].rows)
  {
    assert ids[..i + 1] == ids[..i] + [ids[i]] && ids[i] !in ids[..i];
    assert dispatched[i].message == ids[i];
    assert forall l :: l in dispatched[i].rows <==> l in Messaging.LogsOf(m, ids[i]);
  }
}
