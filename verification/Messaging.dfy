/** Messages and their delivery logs: creation, scheduled dispatch, the delete cascade and the overall status. */
module Messaging {
  import opened Wrappers
  import opened Rows
  import opened Tables
  import Payload
  import Template
  import Organizations
  import Bots
  import Destinations

  /** `get_active`: live, and of this tenant. */
  predicate HasMessage(m: MessageTables, tenant: TenantId, id: MessageId) {
    id in m.messages && m.messages[id].tenant == tenant && IsLive(m.messages[id].deletedAt)
  }

  /** Who sends: a dashboard user, or an external application holding a bot's API key. */
  datatype Sender = Sender(user: Option<UserId>, restrictTo: Option<BotId>)

  /** MEMBER may use assigned bots only; an API key its own bot only. */
  function AssertBotAccess(o: OrgTables, b: BotTables, tenant: TenantId, bot: BotId, sender: Sender):
    Option<AppError>
  {
    if sender.restrictTo.Some? && sender.restrictTo.value != bot then Some(BotNotAssigned)
    else if sender.user.None? then None
    else
      var seat := Seat(tenant, sender.user.value);
      if seat in o.members && o.members[seat] in {Owner, Admin} then None
      else match Bots.IsAssigned(b, tenant, bot, sender.user.value)
           case Err(e) => Some(e)
           case Ok(has) => if has then None else Some(BotNotAssigned)
  }

  /** The validation loop over the requested destinations: the first refusal. */
  function FirstRefusal(d: DestinationTables, tenant: TenantId, bot: BotId, ids: seq<DestinationId>): Option<AppError> {
    if ids == [] then None
    else if !Destinations.HasDestination(d, tenant, ids[0]) then Some(DestinationNotFound)
    else if !Destinations.IsActivelySubscribed(d, tenant, bot, ids[0]) then Some(DestinationNotSubscribed)
    else FirstRefusal(d, tenant, bot, ids[1..])
  }

  /** The stored template a request names, if it names one; None when the lookup finds no row. */
  datatype TemplateUse = TemplateUse(body: Option<string>, variables: Option<map<string, string>>)

  function ResolveText(p: Payload.MessageCreate, template: TemplateUse): Result<Option<string>, AppError> {
    if !p.usesTemplate then Ok(p.text)
    else if template.body.None? then Err(MessageTemplateNotFound)
    else match Template.RenderTemplateText(template.body.value, template.variables)
         case Err(_) => Err(TemplateVariableMissing)
         case Ok(text) => Ok(Some(text))
  }

  function LogKeys(id: MessageId, destinations: seq<DestinationId>): set<LogKey> {
    set d | d in destinations :: LogKey(id, d)
  }

  function QueuedLog(tenant: TenantId, now: nat): DeliveryLog {
    DeliveryLog(tenant, Queued, None, None, None, now)
  }

  /** The two inserts, with the primary key of messages and the unique constraint of delivery logs. */
  function InsertMessage(m: MessageTables, id: MessageId, row: Message, destinations: seq<DestinationId>, now: nat):
    Result<MessageTables, AppError>
  {
    var keys := LogKeys(id, destinations);
    if id in m.messages || !Payload.Distinct(destinations) || !(keys !! m.logs.Keys) then Err(IntegrityError)
    else Ok(MessageTables(m.messages[id := row],
                          m.logs + map k | k in keys :: QueuedLog(row.tenant, now)))
  }

  /** A message request, as far as the database part of `create_message` goes. */
  datatype Request = Request(
    bot: BotId, payload: Payload.MessageCreate, template: TemplateUse, scheduledAt: Option<nat>)

  function CreateMessage(o: OrgTables, b: BotTables, d: DestinationTables, m: MessageTables,
                         tenant: TenantId, sender: Sender, r: Request, id: MessageId, now: nat):
    Result<MessageTables, AppError>
  {
    if !Bots.HasBot(b, tenant, r.bot) then Err(BotNotFound)
    else
      var denied := AssertBotAccess(o, b, tenant, r.bot, sender);
      if denied.Some? then Err(denied.value)
      else
        var refused := FirstRefusal(d, tenant, r.bot, r.payload.destinations);
        if refused.Some? then Err(refused.value)
        else match ResolveText(r.payload, r.template)
             case Err(e) => Err(e)
             case Ok(text) =>
               if r.scheduledAt.Some? && r.scheduledAt.value <= now then Err(ScheduledAtInPast)
               else InsertMessage(m, id,
                                  Message(tenant, r.bot, Payload.Stored(r.payload, text), r.scheduledAt, None, None),
                                  r.payload.destinations, now)
  }

  /** `list_due_for_dispatch`, over all tenants. */
  predicate IsDue(row: Message, now: nat) {
    row.scheduledAt.Some? && row.scheduledAt.value <= now && row.dispatchedAt.None? && IsLive(row.deletedAt)
  }

  function DueMessages(m: MessageTables, now: nat): set<MessageId> {
    set id | id in m.messages && IsDue(m.messages[id], now)
  }

  /** `list_for_message` with the message's own tenant. */
  function LogsOf(m: MessageTables, id: MessageId): set<LogKey>
    requires id in m.messages
  {
    set k | k in m.logs && k.message == id && m.logs[k].tenant == m.messages[id].tenant
  }

  function DueLogs(m: MessageTables, now: nat): set<LogKey> {
    set k | k in m.logs && k.message in DueMessages(m, now) && m.logs[k].tenant == m.messages[k.message].tenant
  }

  function Dispatched(row: Message, now: nat): Message {
    if IsDue(row, now) then row.(dispatchedAt := Some(now)) else row
  }

  function MarkDispatched(m: MessageTables, now: nat): MessageTables {
    m.(messages := map id | id in m.messages :: Dispatched(m.messages[id], now))
  }

  /** `list_pending_for_tenant`. */
  predicate IsPending(row: Message, tenant: TenantId) {
    row.tenant == tenant && row.dispatchedAt.None? && IsLive(row.deletedAt)
  }

  function MessageCancelled(row: Message, tenant: TenantId, now: nat): Message {
    if IsPending(row, tenant) then row.(deletedAt := Some(now)) else row
  }

  /** The delete cascade: messages without a dispatch time, immediate ones among them. */
  function CancelPending(m: MessageTables, tenant: TenantId, now: nat): MessageTables {
    m.(messages := map id | id in m.messages :: MessageCancelled(m.messages[id], tenant, now))
  }

  function MarkSent(row: DeliveryLog, telegramMessageId: Option<int>, now: nat): DeliveryLog {
    row.(status := Sent, telegramMessageId := telegramMessageId, errorReason := None, sentAt := Some(now))
  }

  function MarkFailed(row: DeliveryLog, reason: string): DeliveryLog {
    row.(status := Failed, errorReason := Some(if |reason| <= 2000 then reason else reason[..2000]))
  }

  // ----- Creation is all or nothing -----

  lemma {:induction false} NoRefusalMeansActive(d: DestinationTables, tenant: TenantId, bot: BotId,
                                                ids: seq<DestinationId>)
    ensures FirstRefusal(d, tenant, bot, ids).None? <==>
            forall id | id in ids ::
              Destinations.HasDestination(d, tenant, id) && Destinations.IsActivelySubscribed(d, tenant, bot, id)
  {
    if ids != [] {
      NoRefusalMeansActive(d, tenant, bot, ids[1..]);
      assert forall id :: id in ids <==> id == ids[0] || id in ids[1..];
    }
  }

  /** A successful request adds one message and exactly one queued log per requested destination, every one of
      them actively subscribed to the bot at that moment; rows already there stay as they are. */
  lemma CreateIsExact(o: OrgTables, b: BotTables, d: DestinationTables, m: MessageTables,
                      tenant: TenantId, sender: Sender, r: Request, id: MessageId, now: nat)
    requires CreateMessage(o, b, d, m, tenant, sender, r, id, now).Ok?
    ensures var m' := CreateMessage(o, b, d, m, tenant, sender, r, id, now).value;
            && id !in m.messages && m'.messages.Keys == m.messages.Keys + {id}
            && (forall k | k in m.messages :: m'.messages[k] == m.messages[k])
            && m'.messages[id].tenant == tenant && m'.messages[id].bot == r.bot
            && m'.messages[id].dispatchedAt.None? && IsLive(m'.messages[id].deletedAt)
            && m'.messages[id].scheduledAt == r.scheduledAt
            && (forall k :: k in m'.logs <==> k in m.logs || (k.message == id && k.destination in r.payload.destinations))
            && (forall k | k in m.logs :: m'.logs[k] == m.logs[k] && k !in LogKeys(id, r.payload.destinations))
            && (forall k | k in LogKeys(id, r.payload.destinations) :: m'.logs[k] == QueuedLog(tenant, now))
    ensures |LogKeys(id, r.payload.destinations)| == |r.payload.destinations|
    ensures forall x | x in r.payload.destinations ::
              && Destinations.HasDestination(d, tenant, x)
              && Destinations.IsActivelySubscribed(d, tenant, r.bot, x)
    ensures Bots.HasBot(b, tenant, r.bot)
  {
    NoRefusalMeansActive(d, tenant, r.bot, r.payload.destinations);
    OneKeyEach(id, r.payload.destinations);
    assert forall k :: k in LogKeys(id, r.payload.destinations)
                       <==> k.message == id && k.destination in r.payload.destinations;
  }

  lemma {:induction false} OneKeyEach(id: MessageId, ids: seq<DestinationId>)
    requires Payload.Distinct(ids)
    ensures |LogKeys(id, ids)| == |ids|
  {
    if ids != [] {
      var rest := ids[1..];
      OneKeyEach(id, rest);
      assert LogKeys(id, ids) == LogKeys(id, rest) + {LogKey(id, ids[0])};
      assert LogKey(id, ids[0]) !in LogKeys(id, rest);
    }
  }

  // ----- The overall status -----

  datatype OverallStatus = StatusScheduled | StatusQueued | InProgress | AllSent | PartiallyFailed | AllFailed

  function CountStatus(logs: seq<DeliveryLog>, status: DeliveryStatus): nat {
    if logs == [] then 0 else CountStatus(logs[1..], status) + (if logs[0].status == status then 1 else 0)
  }

  function ComputeOverallStatus(message: Message, logs: seq<DeliveryLog>): OverallStatus {
    if message.scheduledAt.Some? && message.dispatchedAt.None? then StatusScheduled
    else if |logs| == 0 then AllSent
    else
      var queued := CountStatus(logs, Queued);
      if queued == |logs| then StatusQueued
      else if queued > 0 then InProgress
      else if CountStatus(logs, Failed) == 0 then AllSent
      else if CountStatus(logs, Sent) == 0 then AllFailed
      else PartiallyFailed
  }

  /** The three counts of the status response always add up to the number of logs. */
  lemma {:induction false} CountsAddUp(logs: seq<DeliveryLog>)
    ensures CountStatus(logs, Queued) + CountStatus(logs, Sent) + CountStatus(logs, Failed) == |logs|
  {
    if logs != [] {
      CountsAddUp(logs[1..]);
    }
  }

  lemma {:induction false} CountMeaning(logs: seq<DeliveryLog>, status: DeliveryStatus)
    ensures CountStatus(logs, status) <= |logs|
    ensures CountStatus(logs, status) == 0 <==> forall i | 0 <= i < |logs| :: logs[i].status != status
    ensures CountStatus(logs, status) == |logs| <==> forall i | 0 <= i < |logs| :: logs[i].status == status
  {
    if logs != [] {
      CountMeaning(logs[1..], status);
      assert forall i | 0 <= i < |logs| - 1 :: logs[1..][i] == logs[i + 1];
      assert forall i | 1 <= i < |logs| :: logs[i] == logs[1..][i - 1];
    }
  }

  ghost predicate Occurs(logs: seq<DeliveryLog>, status: DeliveryStatus) {
    exists i | 0 <= i < |logs| :: logs[i].status == status
  }

  /** The rows of a list with a status, by position. */
  ghost function Positions(logs: seq<DeliveryLog>, status: DeliveryStatus): set<int> {
    set i | 0 <= i < |logs| && logs[i].status == status
  }

  lemma {:induction false} CountOfFront(logs: seq<DeliveryLog>, row: DeliveryLog, status: DeliveryStatus)
    ensures CountStatus(logs + [row], status) == CountStatus(logs, status) + (if row.status == status then 1 else 0)
  {
    if logs == [] {
      assert logs + [row] == [row];
    } else {
      assert (logs + [row])[1..] == logs[1..] + [row];
      CountOfFront(logs[1..], row, status);
    }
  }

  /** A count is the number of rows with that status. */
  lemma {:induction false} CountIsNumber(logs: seq<DeliveryLog>, status: DeliveryStatus)
    ensures CountStatus(logs, status) == |Positions(logs, status)|
  {
    if logs == [] {
      assert Positions(logs, status) == {};
    } else {
      var n := |logs| - 1;
      assert logs == logs[..n] + [logs[n]];
      CountOfFront(logs[..n], logs[n], status);
      CountIsNumber(logs[..n], status);
      hide CountStatus;
      var before, after := Positions(logs[..n], status), Positions(logs, status);
      if logs[n].status == status {
        assert after == before + {n};
      } else {
        assert after == before;
      }
    }
  }

  /** Each verdict on the rows themselves. */
  lemma OverallStatusMeans(message: Message, logs: seq<DeliveryLog>)
    ensures var status := ComputeOverallStatus(message, logs);
            var held := message.scheduledAt.Some? && message.dispatchedAt.None?;
            && (status == StatusScheduled <==> held)
            && (status == StatusQueued <==>
                  !held && Occurs(logs, Queued) && !Occurs(logs, Sent) && !Occurs(logs, Failed))
            && (status == InProgress <==> !held && Occurs(logs, Queued) && (Occurs(logs, Sent) || Occurs(logs, Failed)))
            && (status == AllSent <==> !held && forall i | 0 <= i < |logs| :: logs[i].status == Sent)
            && (status == AllFailed <==> !held && logs != [] && forall i | 0 <= i < |logs| :: logs[i].status == Failed)
            && (status == PartiallyFailed <==>
                  !held && !Occurs(logs, Queued) && Occurs(logs, Sent) && Occurs(logs, Failed))
  {
    CountMeaning(logs, Queued);
    CountMeaning(logs, Sent);
    CountMeaning(logs, Failed);
    CountsAddUp(logs);
    hide CountStatus;
    if logs != [] {
      assert logs[0].status == Queued || logs[0].status == Sent || logs[0].status == Failed;
      assert Occurs(logs, logs[0].status);
    }
  }

  function Progress(status: OverallStatus): nat {
    match status
    case StatusScheduled => 0
    case StatusQueued => 1
    case InProgress => 2
    case _ => 3
  }

  /** When logs only leave QUEUED, and never leave SENT or FAILED, the overall status only moves forward
      through scheduled, queued, in progress and final, and a final one stays what it is. */
  lemma StatusMovesForward(before: Message, logs: seq<DeliveryLog>, after: Message, logs': seq<DeliveryLog>)
    requires |logs'| == |logs| > 0
    requires before.scheduledAt == after.scheduledAt && (before.dispatchedAt.Some? ==> after.dispatchedAt.Some?)
    requires forall i | 0 <= i < |logs| :: logs[i].status != Queued ==> logs'[i].status == logs[i].status
    ensures Progress(ComputeOverallStatus(before, logs)) <= Progress(ComputeOverallStatus(after, logs'))
    ensures Progress(ComputeOverallStatus(before, logs)) == 3 ==>
              ComputeOverallStatus(after, logs') == ComputeOverallStatus(before, logs)
  {
    CountMeaning(logs, Queued);
    CountMeaning(logs', Queued);
    CountMeaning(logs, Failed);
    CountMeaning(logs', Failed);
    CountMeaning(logs, Sent);
    CountMeaning(logs', Sent);
    if CountStatus(logs, Queued) == 0 {
      assert forall i | 0 <= i < |logs| :: logs'[i].status == logs[i].status;
    }
    if CountStatus(logs', Queued) == |logs'| {
      assert forall i | 0 <= i < |logs| :: logs[i].status == Queued;
    }
  }
}
