/** Messages and delivery logs: the service and repository methods. */
module MessagingService {
  import opened Wrappers
  import opened Rows
  import opened Tables
  import opened Database
  import Payload
  import Organizations
  import Bots
  import Destinations
  import Messaging
  import opened State
  import opened Platforms
  import opened Celery

  method SoftDeleteMessage(session: Session, id: MessageId, now: nat)
    requires id in session.messages
    modifies session`messages
    ensures session.messages == old(session.messages)[id := old(session.messages)[id].(deletedAt := Some(now))]
  {
    session.messages := session.messages[id := session.messages[id].(deletedAt := Some(now))];
  }

  method CascadeDeletePendingMessages(session: Session, tenant: TenantId, now: nat)
    modifies session`messages
    ensures session.Msgs() == Messaging.CancelPending(old(session.Msgs()), tenant, now)
  {
    var rows := Select(set id | id in session.messages && Messaging.IsPending(session.messages[id], tenant));
    var i := 0;
    while i < |rows|
      invariant 0 <= i <= |rows|
      invariant session.messages.Keys == old(session.messages).Keys
      invariant forall k | k in session.messages ::
                  session.messages[k] == if k in rows[..i] then old(session.messages)[k].(deletedAt := Some(now))
                                         else old(session.messages)[k]
    {
      assert rows[i] in rows;
      SoftDeleteMessage(session, rows[i], now);
      i := i + 1;
    }
    assert rows[..i] == rows;
    assert session.messages == Messaging.CancelPending(old(session.Msgs()), tenant, now).messages;
  }

  method AssertBotAccess(session: Session, tenant: TenantId, bot: BotId, sender: Messaging.Sender)
    returns (denied: Option<AppError>)
    ensures denied == Messaging.AssertBotAccess(session.Orgs(), session.Bots(), tenant, bot, sender)
  {
    if sender.restrictTo.Some? && sender.restrictTo.value != bot {
      return Some(BotNotAssigned);
    }
    if sender.user.None? {
      return None;
    }
    var seat := Seat(tenant, sender.user.value);
    if seat in session.members && session.members[seat] in {Owner, Admin} {
      return None;
    }
    match Bots.IsAssigned(session.Bots(), tenant, bot, sender.user.value)
    case Err(e) => return Some(e);
    case Ok(has) => return if has then None else Some(BotNotAssigned);
  }

  /** The loop over the requested destinations stops at the first refusal. */
  method CheckDestinations(session: Session, tenant: TenantId, bot: BotId, ids: seq<DestinationId>)
    returns (refused: Option<AppError>)
    ensures refused == Messaging.FirstRefusal(session.Dests(), tenant, bot, ids)
  {
    var i := 0;
    while i < |ids|
      invariant 0 <= i <= |ids|
      invariant Messaging.FirstRefusal(session.Dests(), tenant, bot, ids)
                == Messaging.FirstRefusal(session.Dests(), tenant, bot, ids[i..])
    {
      assert ids[i..][1..] == ids[i + 1..];
      if !Destinations.HasDestination(session.Dests(), tenant, ids[i]) {
        return Some(DestinationNotFound);
      }
      if !Destinations.IsActivelySubscribed(session.Dests(), tenant, bot, ids[i]) {
        return Some(DestinationNotSubscribed);
      }
      i := i + 1;
    }
    return None;
  }

  /** One QUEUED row per destination; the unique constraint refuses a second row for the same pair. */
  method BulkCreateQueued(session: Session, tenant: TenantId, id: MessageId, ids: seq<DestinationId>, now: nat)
    returns (error: Option<AppError>, rows: seq<LogKey>)
    modifies session`logs
    ensures if Payload.Distinct(ids) && Messaging.LogKeys(id, ids) !! old(session.logs).Keys then
              && error.None? && Distinct(rows) && (forall k :: k in rows <==> k in Messaging.LogKeys(id, ids))
              && session.logs == old(session.logs) + map k | k in Messaging.LogKeys(id, ids) ::
                                                       Messaging.QueuedLog(tenant, now)
            else error == Some(IntegrityError)
  {
    rows := [];
    var i := 0;
    while i < |ids|
      invariant 0 <= i <= |ids|
      invariant Payload.Distinct(ids[..i]) && Messaging.LogKeys(id, ids[..i]) !! old(session.logs).Keys
      invariant Distinct(rows) && forall k :: k in rows <==> k in Messaging.LogKeys(id, ids[..i])
      invariant session.logs == old(session.logs) + map k | k in Messaging.LogKeys(id, ids[..i]) ::
                                                      Messaging.QueuedLog(tenant, now)
    {
      var key := LogKey(id, ids[i]);
      KeysGrow(id, ids, i);
      if key in session.logs {
        return Some(IntegrityError), rows;
      }
      session.logs := session.logs[key := Messaging.QueuedLog(tenant, now)];
      rows := rows + [key];
      i := i + 1;
      hide Payload.Distinct, Messaging.LogKeys;
    }
    assert ids[..i] == ids;
    error := None;
  }

  lemma KeysGrow(id: MessageId, ids: seq<DestinationId>, i: nat)
    requires i < |ids|
    ensures Messaging.LogKeys(id, ids[..i + 1]) == Messaging.LogKeys(id, ids[..i]) + {LogKey(id, ids[i])}
    ensures Messaging.LogKeys(id, ids[..i + 1]) <= Messaging.LogKeys(id, ids)
    ensures LogKey(id, ids[i]) in Messaging.LogKeys(id, ids[..i]) ==> !Payload.Distinct(ids)
    ensures LogKey(id, ids[i]) in Messaging.LogKeys(id, ids)
    ensures Payload.Distinct(ids[..i]) && LogKey(id, ids[i]) !in Messaging.LogKeys(id, ids[..i]) ==>
              Payload.Distinct(ids[..i + 1])
  {
    assert ids[..i + 1] == ids[..i] + [ids[i]];
  }

  method InsertMessage(session: Session, id: MessageId, row: Message, ids: seq<DestinationId>, now: nat)
    returns (error: Option<AppError>, rows: seq<LogKey>)
    modifies session`messages, session`logs
    ensures Agrees(error, Messaging.InsertMessage(old(session.Msgs()), id, row, ids, now), session.Msgs())
    ensures error.None? ==> Distinct(rows) && forall k :: k in rows <==> k in Messaging.LogKeys(id, ids)
  {
    if id in session.messages {
      return Some(IntegrityError), [];
    }
    session.messages := session.messages[id := row];
    error, rows := BulkCreateQueued(session, row.tenant, id, ids, now);
  }

  method CreateMessage(session: Session, tenant: TenantId, sender: Messaging.Sender, r: Messaging.Request,
                       id: MessageId, now: nat) returns (error: Option<AppError>, rows: seq<LogKey>)
    modifies session`messages, session`logs
    ensures Agrees(error, Messaging.CreateMessage(session.Orgs(), session.Bots(), session.Dests(), old(session.Msgs()),
                                                  tenant, sender, r, id, now), session.Msgs())
    ensures error.None? ==> Distinct(rows) && forall k :: k in rows <==> k in Messaging.LogKeys(id, r.payload.destinations)
  {
    if !Bots.HasBot(session.Bots(), tenant, r.bot) {
      return Some(BotNotFound), [];
    }
    error := AssertBotAccess(session, tenant, r.bot, sender);
    if error.Some? {
      return error, [];
    }
    error := CheckDestinations(session, tenant, r.bot, r.payload.destinations);
    if error.Some? {
      return error, [];
    }
    var text := Messaging.ResolveText(r.payload, r.template);
    if text.Err? {
      return Some(text.error), [];
    }
    if r.scheduledAt.Some? && r.scheduledAt.value <= now {
      return Some(ScheduledAtInPast), [];
    }
    error, rows := InsertMessage(
      session, id, Message(tenant, r.bot, Payload.Stored(r.payload, text.value), r.scheduledAt, None, None),
      r.payload.destinations, now);
  }

  /** Called after the commit; a scheduled message is left to the dispatcher. */
  method EnqueueImmediateDeliveries(celery: Celery, scheduledAt: Option<nat>, rows: seq<LogKey>, lost: set<LogKey>,
                                    now: nat)
    requires Distinct(rows)
    modifies celery`queue, celery`history
    ensures Enqueued(old(celery.queue), old(celery.history), celery.queue, celery.history,
                     if scheduledAt.Some? then {} else KeySet(rows), lost, now)
  {
    if scheduledAt.Some? {
      NoneEnqueued(celery.queue, celery.history, lost, now);
      return;
    }
    celery.DelayAll(rows, lost, now);
  }

  method MarkDispatched(session: Session, id: MessageId, now: nat)
    requires id in session.messages
    modifies session`messages
    ensures session.messages == old(session.messages)[id := old(session.messages)[id].(dispatchedAt := Some(now))]
  {
    session.messages := session.messages[id := session.messages[id].(dispatchedAt := Some(now))];
  }

  datatype Batch = Batch(message: MessageId, rows: seq<LogKey>)

  /** Every due message once, each with all its logs. */
  ghost predicate Covers(dispatched: seq<Batch>, ids: seq<MessageId>, m: MessageTables) {
    && |dispatched| == |ids|
    && forall i | 0 <= i < |ids| ::
         && dispatched[i].message == ids[i] && ids[i] in m.messages && Distinct(dispatched[i].rows)
         && forall l :: l in dispatched[i].rows <==> l in Messaging.LogsOf(m, ids[i])
  }

  method DispatchDueScheduledMessages(session: Session, now: nat) returns (ids: seq<MessageId>, dispatched: seq<Batch>)
    modifies session`messages
    ensures session.Msgs() == Messaging.MarkDispatched(old(session.Msgs()), now)
    ensures Distinct(ids) && forall id :: id in ids <==> id in Messaging.DueMessages(old(session.Msgs()), now)
    ensures Covers(dispatched, ids, old(session.Msgs()))
  {
    ids := Select(Messaging.DueMessages(session.Msgs(), now));
    dispatched := [];
    var i := 0;
    while i < |ids|
      invariant 0 <= i <= |ids|
      invariant session.messages.Keys == old(session.messages).Keys
      invariant forall k | k in session.messages ::
                  session.messages[k] == if k in ids[..i] then old(session.messages)[k].(dispatchedAt := Some(now))
                                         else old(session.messages)[k]
      invariant Covers(dispatched, ids[..i], old(session.Msgs()))
    {
      assert ids[i] in ids && ids[i] in session.messages;
      var rows := Select(Messaging.LogsOf(session.Msgs(), ids[i]));
      assert Messaging.LogsOf(session.Msgs(), ids[i]) == Messaging.LogsOf(old(session.Msgs()), ids[i]);
      MarkDispatched(session, ids[i], now);
      dispatched := dispatched + [Batch(ids[i], rows)];
      i := i + 1;
    }
    assert ids[..i] == ids;
    assert session.messages == Messaging.MarkDispatched(old(session.Msgs()), now).messages;
  }
}
