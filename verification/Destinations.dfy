/** Destinations and their bot subscriptions: two soft-deleted tables, and the one-cell status machine
    they implement. */
module Destinations {
  import opened Wrappers
  import opened Query
  import opened Rows
  import opened Tables

  /** What identifies a chat (or a topic of a forum group) inside an organization. */
  datatype ChatKey = ChatKey(tenant: TenantId, chat: int, thread: Option<int>)

  function KeyOf(row: Destination): ChatKey {
    ChatKey(row.tenant, row.chat, row.thread)
  }

  /** `get_destination`: live, and of this tenant. */
  predicate HasDestination(d: DestinationTables, tenant: TenantId, id: DestinationId) {
    id in d.destinations && d.destinations[id].tenant == tenant && IsLive(d.destinations[id].deletedAt)
  }

  function LiveAtChat(d: DestinationTables, key: ChatKey): set<DestinationId> {
    set id | id in d.destinations && IsLive(d.destinations[id].deletedAt) && KeyOf(d.destinations[id]) == key
  }

  function LiveSubscription(d: DestinationTables, tenant: TenantId, bot: BotId, id: DestinationId):
    Option<SubscriptionStatus>
  {
    var key := SubscriptionKey(bot, id);
    if key in d.subscriptions && d.subscriptions[key].tenant == tenant && IsLive(d.subscriptions[key].deletedAt)
    then Some(d.subscriptions[key].status) else None
  }

  /** The insert, with its primary key and the partial unique indexes on live chats. */
  function InsertDestination(d: DestinationTables, id: DestinationId, key: ChatKey):
    Result<DestinationTables, AppError>
  {
    if id in d.destinations || LiveAtChat(d, key) != {} then Err(IntegrityError)
    else Ok(d.(destinations := d.destinations[id := Destination(key.tenant, key.chat, key.thread, None)]))
  }

  /** The insert, with the unique constraint over all rows. */
  function InsertSubscription(d: DestinationTables, tenant: TenantId, bot: BotId, id: DestinationId):
    Result<DestinationTables, AppError>
  {
    var key := SubscriptionKey(bot, id);
    if key in d.subscriptions then Err(IntegrityError)
    else Ok(d.(subscriptions := d.subscriptions[key := Subscription(tenant, Active, None)]))
  }

  function SetStatus(d: DestinationTables, bot: BotId, id: DestinationId, status: SubscriptionStatus): DestinationTables
    requires SubscriptionKey(bot, id) in d.subscriptions
  {
    var key := SubscriptionKey(bot, id);
    d.(subscriptions := d.subscriptions[key := d.subscriptions[key].(status := status)])
  }

  /** Manual registration from the dashboard; `hasBot` is the answer of `get_bot`. */
  function CreateDestination(d: DestinationTables, hasBot: bool, bot: BotId, key: ChatKey, id: DestinationId):
    Result<DestinationTables, AppError>
  {
    if !hasBot then Err(BotNotFound)
    else match ScalarOneOrNone(LiveAtChat(d, key))
         case MultipleRows => Err(MultipleResultsFound)
         case OneRow(_) => Err(DestinationAlreadyExists)
         case NoRow =>
           match InsertDestination(d, id, key)
           case Err(e) => Err(e)
           case Ok(d1) => InsertSubscription(d1, key.tenant, bot, id)
  }

  function SubscriptionRetired(key: SubscriptionKey, row: Subscription, tenant: TenantId, id: DestinationId, now: nat):
    Subscription
  {
    if key.destination == id && row.tenant == tenant && IsLive(row.deletedAt) then row.(deletedAt := Some(now)) else row
  }

  /** Soft delete with the cascade over the destination's live subscriptions. */
  function DeleteDestination(d: DestinationTables, tenant: TenantId, id: DestinationId, now: nat):
    Result<DestinationTables, AppError>
  {
    if !HasDestination(d, tenant, id) then Err(DestinationNotFound)
    else Ok(DestinationTables(
              d.destinations[id := d.destinations[id].(deletedAt := Some(now))],
              map k | k in d.subscriptions :: SubscriptionRetired(k, d.subscriptions[k], tenant, id, now)))
  }

  /** Status change from the dashboard. */
  function UpdateSubscriptionStatus(d: DestinationTables, hasBot: bool, tenant: TenantId, id: DestinationId,
                                    bot: BotId, status: SubscriptionStatus): Result<DestinationTables, AppError>
  {
    if !HasDestination(d, tenant, id) then Err(DestinationNotFound)
    else if !hasBot then Err(BotNotFound)
    else if LiveSubscription(d, tenant, bot, id).None? then Err(SubscriptionNotFound)
    else Ok(SetStatus(d, bot, id, status))
  }

  datatype Found = Found(tables: DestinationTables, id: DestinationId)

  function GetOrCreateDestination(d: DestinationTables, key: ChatKey, id: DestinationId): Result<Found, AppError> {
    match ScalarOneOrNone(LiveAtChat(d, key))
    case MultipleRows => Err(MultipleResultsFound)
    case OneRow(existing) => Ok(Found(d, existing))
    case NoRow =>
      match InsertDestination(d, id, key)
      case Err(e) => Err(e)
      case Ok(d1) => Ok(Found(d1, id))
  }

  function ActivateSubscription(d: DestinationTables, tenant: TenantId, bot: BotId, id: DestinationId):
    Result<DestinationTables, AppError>
  {
    match LiveSubscription(d, tenant, bot, id)
    case None => InsertSubscription(d, tenant, bot, id)
    case Some(status) => if status == Unsubscribed then Ok(SetStatus(d, bot, id, Active)) else Ok(d)
  }

  /** `/start` while the bot's subscription policy is open. */
  function SubscribeViaStart(d: DestinationTables, bot: BotId, key: ChatKey, id: DestinationId):
    Result<DestinationTables, AppError>
  {
    match GetOrCreateDestination(d, key, id)
    case Err(e) => Err(e)
    case Ok(found) => ActivateSubscription(found.tables, key.tenant, bot, found.id)
  }

  /** `/stop`; a chat that never subscribed is not an error. */
  function UnsubscribeViaStop(d: DestinationTables, bot: BotId, key: ChatKey): Result<DestinationTables, AppError> {
    match ScalarOneOrNone(LiveAtChat(d, key))
    case MultipleRows => Err(MultipleResultsFound)
    case NoRow => Ok(d)
    case OneRow(id) =>
      if LiveSubscription(d, key.tenant, bot, id).None? then Ok(d) else Ok(SetStatus(d, bot, id, Unsubscribed))
  }

  function IsActivelySubscribed(d: DestinationTables, tenant: TenantId, bot: BotId, id: DestinationId): bool {
    LiveSubscription(d, tenant, bot, id) == Some(Active)
  }

  function GetSubscriptionStatus(d: DestinationTables, bot: BotId, key: ChatKey):
    Result<Option<SubscriptionStatus>, AppError>
  {
    match ScalarOneOrNone(LiveAtChat(d, key))
    case MultipleRows => Err(MultipleResultsFound)
    case NoRow => Ok(None)
    case OneRow(id) => Ok(LiveSubscription(d, key.tenant, bot, id))
  }

  // ----- The row invariant -----

  /** One live destination per chat; a subscription has its destination's tenant and is live exactly as long
      as its destination is; a live destination has a subscription. */
  ghost predicate Sound(d: DestinationTables) {
    && (forall i, j | i in d.destinations && j in d.destinations && i != j
                      && IsLive(d.destinations[i].deletedAt) && IsLive(d.destinations[j].deletedAt) ::
          KeyOf(d.destinations[i]) != KeyOf(d.destinations[j]))
    && (forall k | k in d.subscriptions ::
          && k.destination in d.destinations
          && d.subscriptions[k].tenant == d.destinations[k.destination].tenant
          && (IsLive(d.subscriptions[k].deletedAt) <==> IsLive(d.destinations[k.destination].deletedAt)))
    && (forall i | i in d.destinations && IsLive(d.destinations[i].deletedAt) :: HasSubscriber(d, i))
  }

  ghost predicate HasSubscriber(d: DestinationTables, id: DestinationId) {
    exists bot :: SubscriptionKey(bot, id) in d.subscriptions
  }

  lemma ChatNamesOne(d: DestinationTables, id: DestinationId)
    requires Sound(d) && id in d.destinations && IsLive(d.destinations[id].deletedAt)
    ensures ScalarOneOrNone(LiveAtChat(d, KeyOf(d.destinations[id]))) == OneRow(id)
  {
    assert LiveAtChat(d, KeyOf(d.destinations[id])) == {id};
  }

  lemma NeverMultiple(d: DestinationTables, key: ChatKey)
    requires Sound(d)
    ensures !ScalarOneOrNone(LiveAtChat(d, key)).MultipleRows?
  {
  }

  ghost predicate NotRefused(r: Result<DestinationTables, AppError>) {
    r != Err(IntegrityError) && r != Err(MultipleResultsFound)
  }

  // ----- The simple machine: one optional status per bot and chat -----

  datatype Cell = Cell(bot: BotId, key: ChatKey)

  type Board = map<Cell, SubscriptionStatus>

  datatype BoardOp =
    | Start(cell: Cell)
    | Stop(cell: Cell)
    | Put(cell: Cell, status: SubscriptionStatus)
    | Register(cell: Cell)
    | Forget(key: ChatKey)
    | Stay

  ghost predicate Known(board: Board, key: ChatKey) {
    exists bot :: Cell(bot, key) in board
  }

  ghost function BoardStep(board: Board, op: BoardOp): Board {
    match op
    case Start(c) => if c !in board || board[c] == Unsubscribed then board[c := Active] else board
    case Stop(c) => if c in board then board[c := Unsubscribed] else board
    case Put(c, status) => if c in board then board[c := status] else board
    case Register(c) => if Known(board, c.key) then board else board[c := Active]
    case Forget(key) => map c | c in board && c.key != key :: board[c]
    case Stay => board
  }

  ghost function Lookup(board: Board, c: Cell): Option<SubscriptionStatus> {
    if c in board then Some(board[c]) else None
  }

  /** Every status query gets the board's answer. */
  ghost predicate Refines(d: DestinationTables, board: Board) {
    forall c: Cell :: GetSubscriptionStatus(d, c.bot, c.key) == Ok(Lookup(board, c))
  }

  lemma StatusAt(d: DestinationTables, id: DestinationId, bot: BotId)
    requires Sound(d) && id in d.destinations && IsLive(d.destinations[id].deletedAt)
    ensures GetSubscriptionStatus(d, bot, KeyOf(d.destinations[id])) ==
            Ok(if SubscriptionKey(bot, id) in d.subscriptions
               then Some(d.subscriptions[SubscriptionKey(bot, id)].status) else None)
  {
    ChatNamesOne(d, id);
  }

  lemma KnownIsRegistered(d: DestinationTables, board: Board, key: ChatKey)
    requires Sound(d) && Refines(d, board)
    ensures Known(board, key) <==> LiveAtChat(d, key) != {}
  {
    if id :| id in LiveAtChat(d, key) {
      assert HasSubscriber(d, id);
      var bot :| SubscriptionKey(bot, id) in d.subscriptions;
      StatusAt(d, id, bot);
      assert GetSubscriptionStatus(d, Cell(bot, key).bot, Cell(bot, key).key).value.Some?;
      assert Cell(bot, key) in board;
    }
    if Known(board, key) {
      var bot :| Cell(bot, key) in board;
      assert GetSubscriptionStatus(d, Cell(bot, key).bot, Cell(bot, key).key) == Ok(Some(board[Cell(bot, key)]));
    }
  }

  /** Two table states give the same answers about a chat when they agree on its live destinations
      and on the subscriptions of those. */
  lemma SameAnswers(d: DestinationTables, d': DestinationTables, c: Cell)
    requires LiveAtChat(d', c.key) == LiveAtChat(d, c.key)
    requires forall id | id in LiveAtChat(d, c.key) ::
               LiveSubscription(d', c.key.tenant, c.bot, id) == LiveSubscription(d, c.key.tenant, c.bot, id)
    ensures GetSubscriptionStatus(d', c.bot, c.key) == GetSubscriptionStatus(d, c.bot, c.key)
  {
  }

  lemma SubscribersStay(d: DestinationTables, d': DestinationTables)
    requires d.subscriptions.Keys <= d'.subscriptions.Keys
    ensures forall i | HasSubscriber(d, i) :: HasSubscriber(d', i)
  {
    forall i | HasSubscriber(d, i)
      ensures HasSubscriber(d', i)
    {
      var b :| SubscriptionKey(b, i) in d.subscriptions;
      assert SubscriptionKey(b, i) in d'.subscriptions;
    }
  }

  lemma SetStatusSound(d: DestinationTables, bot: BotId, id: DestinationId, status: SubscriptionStatus)
    requires Sound(d) && SubscriptionKey(bot, id) in d.subscriptions
    ensures Sound(SetStatus(d, bot, id, status))
  {
    SubscribersStay(d, SetStatus(d, bot, id, status));
  }

  lemma SetStatusRefines(d: DestinationTables, board: Board, bot: BotId, id: DestinationId, status: SubscriptionStatus)
    requires Sound(d) && Refines(d, board)
    requires id in d.destinations && IsLive(d.destinations[id].deletedAt) && SubscriptionKey(bot, id) in d.subscriptions
    ensures Sound(SetStatus(d, bot, id, status))
    ensures Cell(bot, KeyOf(d.destinations[id])) in board
    ensures Refines(SetStatus(d, bot, id, status), board[Cell(bot, KeyOf(d.destinations[id])) := status])
  {
    var d' := SetStatus(d, bot, id, status);
    var cell := Cell(bot, KeyOf(d.destinations[id]));
    var board' := board[cell := status];
    SetStatusSound(d, bot, id, status);
    StatusAt(d, id, bot);
    assert GetSubscriptionStatus(d, cell.bot, cell.key) == Ok(Lookup(board, cell));
    forall c: Cell
      ensures GetSubscriptionStatus(d', c.bot, c.key) == Ok(Lookup(board', c))
    {
      assert GetSubscriptionStatus(d, c.bot, c.key) == Ok(Lookup(board, c));
      assert LiveAtChat(d', c.key) == LiveAtChat(d, c.key);
      if c == cell {
        StatusAt(d', id, bot);
      } else {
        ChatNamesOne(d, id);
        SameAnswers(d, d', c);
      }
    }
  }

  lemma InsertSubscriptionSound(d: DestinationTables, bot: BotId, id: DestinationId)
    requires Sound(d)
    requires id in d.destinations && IsLive(d.destinations[id].deletedAt) && SubscriptionKey(bot, id) !in d.subscriptions
    ensures var r := InsertSubscription(d, d.destinations[id].tenant, bot, id); r.Ok? && Sound(r.value)
  {
    SubscribersStay(d, InsertSubscription(d, d.destinations[id].tenant, bot, id).value);
  }

  /** A new subscription of a live destination. */
  lemma InsertSubscriptionRefines(d: DestinationTables, board: Board, bot: BotId, id: DestinationId)
    requires Sound(d) && Refines(d, board)
    requires id in d.destinations && IsLive(d.destinations[id].deletedAt) && SubscriptionKey(bot, id) !in d.subscriptions
    ensures var r := InsertSubscription(d, d.destinations[id].tenant, bot, id);
            && r.Ok? && Sound(r.value)
            && Cell(bot, KeyOf(d.destinations[id])) !in board
            && Refines(r.value, board[Cell(bot, KeyOf(d.destinations[id])) := Active])
  {
    InsertSubscriptionSound(d, bot, id);
    var d' := InsertSubscription(d, d.destinations[id].tenant, bot, id).value;
    var cell := Cell(bot, KeyOf(d.destinations[id]));
    StatusAt(d, id, bot);
    assert GetSubscriptionStatus(d, cell.bot, cell.key) == Ok(Lookup(board, cell));
    forall c: Cell
      ensures GetSubscriptionStatus(d', c.bot, c.key) == Ok(Lookup(board[cell := Active], c))
    {
      assert GetSubscriptionStatus(d, c.bot, c.key) == Ok(Lookup(board, c));
      assert LiveAtChat(d', c.key) == LiveAtChat(d, c.key);
      if c == cell {
        StatusAt(d', id, bot);
      } else {
        ChatNamesOne(d, id);
        SameAnswers(d, d', c);
      }
    }
  }

  lemma FirstSubscriptionSound(d: DestinationTables, bot: BotId, key: ChatKey, id: DestinationId)
    requires Sound(d) && id !in d.destinations && LiveAtChat(d, key) == {}
    ensures var d1 := InsertDestination(d, id, key);
            && d1.Ok?
            && var r := InsertSubscription(d1.value, key.tenant, bot, id); r.Ok? && Sound(r.value)
  {
    forall b
      ensures SubscriptionKey(b, id) !in d.subscriptions
    {
    }
    var d' := InsertSubscription(InsertDestination(d, id, key).value, key.tenant, bot, id).value;
    SubscribersStay(d, d');
    assert SubscriptionKey(bot, id) in d'.subscriptions;
    forall i | i in d.destinations && IsLive(d.destinations[i].deletedAt)
      ensures HasSubscriber(d', i) && KeyOf(d.destinations[i]) != key
    {
      assert i !in LiveAtChat(d, key);
    }
  }

  /** A new destination together with its first subscription. */
  lemma FirstSubscriptionRefines(d: DestinationTables, board: Board, bot: BotId, key: ChatKey, id: DestinationId)
    requires Sound(d) && Refines(d, board) && id !in d.destinations && LiveAtChat(d, key) == {}
    ensures var d1 := InsertDestination(d, id, key);
            && d1.Ok?
            && var r := InsertSubscription(d1.value, key.tenant, bot, id);
            && r.Ok? && Sound(r.value) && Refines(r.value, board[Cell(bot, key) := Active])
            && LiveSubscription(d1.value, key.tenant, bot, id).None?
            && Cell(bot, key) !in board
  {
    FirstSubscriptionSound(d, bot, key, id);
    var cell := Cell(bot, key);
    var d' := InsertSubscription(InsertDestination(d, id, key).value, key.tenant, bot, id).value;
    forall c: Cell
      ensures GetSubscriptionStatus(d', c.bot, c.key) == Ok(Lookup(board[cell := Active], c))
      ensures c == cell ==> c !in board
    {
      assert GetSubscriptionStatus(d, c.bot, c.key) == Ok(Lookup(board, c));
      if c.key == key {
        StatusAt(d', id, c.bot);
      } else {
        assert LiveAtChat(d', c.key) == LiveAtChat(d, c.key);
        SameAnswers(d, d', c);
      }
    }
  }

  // ----- Each operation refines its step, keeps the invariant, and is refused by no index -----

  lemma CreateRefines(d: DestinationTables, board: Board, hasBot: bool, bot: BotId, key: ChatKey, id: DestinationId)
    requires Sound(d) && Refines(d, board)
    ensures var r := CreateDestination(d, hasBot, bot, key, id);
            && (r.Ok? ==> Sound(r.value) && Refines(r.value, BoardStep(board, Register(Cell(bot, key)))))
            && (r.Ok? <==> hasBot && !Known(board, key) && id !in d.destinations)
            && (id !in d.destinations ==> NotRefused(r))
  {
    NeverMultiple(d, key);
    KnownIsRegistered(d, board, key);
    if hasBot && id !in d.destinations && LiveAtChat(d, key) == {} {
      FirstSubscriptionRefines(d, board, bot, key, id);
    }
  }

  lemma UpdateRefines(d: DestinationTables, board: Board, hasBot: bool, tenant: TenantId, id: DestinationId,
                      bot: BotId, status: SubscriptionStatus)
    requires Sound(d) && Refines(d, board)
    ensures var r := UpdateSubscriptionStatus(d, hasBot, tenant, id, bot, status);
            && NotRefused(r)
            && (r.Ok? <==> && HasDestination(d, tenant, id) && hasBot
                           && Cell(bot, KeyOf(d.destinations[id])) in board)
            && (r.Ok? ==>
                  && Sound(r.value)
                  && Refines(r.value, BoardStep(board, Put(Cell(bot, KeyOf(d.destinations[id])), status))))
  {
    if HasDestination(d, tenant, id) {
      var cell := Cell(bot, KeyOf(d.destinations[id]));
      StatusAt(d, id, bot);
      assert GetSubscriptionStatus(d, cell.bot, cell.key) == Ok(Lookup(board, cell));
    }
    if UpdateSubscriptionStatus(d, hasBot, tenant, id, bot, status).Ok? {
      SetStatusRefines(d, board, bot, id, status);
    }
  }

  lemma StartRefines(d: DestinationTables, board: Board, bot: BotId, key: ChatKey, id: DestinationId)
    requires Sound(d) && Refines(d, board)
    ensures var r := SubscribeViaStart(d, bot, key, id);
            && (r.Ok? ==> Sound(r.value) && Refines(r.value, BoardStep(board, Start(Cell(bot, key)))))
            && (r.Ok? <==> Known(board, key) || id !in d.destinations)
  {
    NeverMultiple(d, key);
    KnownIsRegistered(d, board, key);
    var cell := Cell(bot, key);
    assert GetSubscriptionStatus(d, cell.bot, cell.key) == Ok(Lookup(board, cell));
    match ScalarOneOrNone(LiveAtChat(d, key)) {
      case MultipleRows =>
      case NoRow =>
        if id !in d.destinations {
          FirstSubscriptionRefines(d, board, bot, key, id);
        }
      case OneRow(known) =>
        assert known in LiveAtChat(d, key);
        StatusAt(d, known, bot);
        if SubscriptionKey(bot, known) in d.subscriptions {
          SetStatusRefines(d, board, bot, known, Active);
        } else {
          InsertSubscriptionRefines(d, board, bot, known);
        }
    }
  }

  lemma StopRefines(d: DestinationTables, board: Board, bot: BotId, key: ChatKey)
    requires Sound(d) && Refines(d, board)
    ensures var r := UnsubscribeViaStop(d, bot, key);
            r.Ok? && Sound(r.value) && Refines(r.value, BoardStep(board, Stop(Cell(bot, key))))
  {
    NeverMultiple(d, key);
    var cell := Cell(bot, key);
    assert GetSubscriptionStatus(d, cell.bot, cell.key) == Ok(Lookup(board, cell));
    if ScalarOneOrNone(LiveAtChat(d, key)).OneRow? {
      var id := ScalarOneOrNone(LiveAtChat(d, key)).key;
      assert id in LiveAtChat(d, key);
      StatusAt(d, id, bot);
      if SubscriptionKey(bot, id) in d.subscriptions {
        SetStatusRefines(d, board, bot, id, Unsubscribed);
      }
    }
  }

  lemma DeleteSound(d: DestinationTables, tenant: TenantId, id: DestinationId, now: nat)
    requires Sound(d) && HasDestination(d, tenant, id)
    ensures Sound(DeleteDestination(d, tenant, id, now).value)
  {
    SubscribersStay(d, DeleteDestination(d, tenant, id, now).value);
  }

  lemma DeleteAnswers(d: DestinationTables, tenant: TenantId, id: DestinationId, now: nat, c: Cell)
    requires Sound(d) && HasDestination(d, tenant, id)
    ensures var d' := DeleteDestination(d, tenant, id, now).value;
            GetSubscriptionStatus(d', c.bot, c.key) ==
            if c.key == KeyOf(d.destinations[id]) then Ok(None) else GetSubscriptionStatus(d, c.bot, c.key)
  {
    var d', key := DeleteDestination(d, tenant, id, now).value, KeyOf(d.destinations[id]);
    if c.key == key {
      ChatNamesOne(d, id);
      assert LiveAtChat(d', key) <= LiveAtChat(d, key) - {id};
    } else {
      assert LiveAtChat(d', c.key) == LiveAtChat(d, c.key);
      SameAnswers(d, d', c);
    }
  }

  lemma DeleteRefines(d: DestinationTables, board: Board, tenant: TenantId, id: DestinationId, now: nat)
    requires Sound(d) && Refines(d, board)
    ensures var r := DeleteDestination(d, tenant, id, now);
            && NotRefused(r)
            && (r.Ok? <==> HasDestination(d, tenant, id))
            && (r.Ok? ==>
                  && Sound(r.value)
                  && Refines(r.value, BoardStep(board, Forget(KeyOf(d.destinations[id])))))
  {
    if HasDestination(d, tenant, id) {
      var d' := DeleteDestination(d, tenant, id, now).value;
      DeleteSound(d, tenant, id, now);
      forall c: Cell
        ensures GetSubscriptionStatus(d', c.bot, c.key)
                == Ok(Lookup(BoardStep(board, Forget(KeyOf(d.destinations[id]))), c))
      {
        assert GetSubscriptionStatus(d, c.bot, c.key) == Ok(Lookup(board, c));
        DeleteAnswers(d, tenant, id, now, c);
      }
    }
  }

  // ----- Idempotence and blocks, on the tables -----

  /** A second `/start` changes nothing, whatever id it was given for a new destination. */
  lemma StartTwice(d: DestinationTables, bot: BotId, key: ChatKey, id: DestinationId, other: DestinationId)
    requires Sound(d) && SubscribeViaStart(d, bot, key, id).Ok?
    ensures var d' := SubscribeViaStart(d, bot, key, id).value;
            && SubscribeViaStart(d', bot, key, other) == Ok(d')
            && GetSubscriptionStatus(d', bot, key) in {Ok(Some(Active)), Ok(Some(BlockedByAdmin))}
  {
    NeverMultiple(d, key);
    var d' := SubscribeViaStart(d, bot, key, id).value;
    if LiveAtChat(d, key) == {} {
      FirstSubscriptionSound(d, bot, key, id);
      assert id in LiveAtChat(d', key);
      ChatNamesOne(d', id);
    } else {
      var known := ScalarOneOrNone(LiveAtChat(d, key)).key;
      assert LiveAtChat(d', key) == LiveAtChat(d, key) == {known};
    }
  }

  /** `/start` leaves a blocked subscription, and everything else, as it is. */
  lemma StartKeepsBlock(d: DestinationTables, bot: BotId, key: ChatKey, id: DestinationId)
    requires GetSubscriptionStatus(d, bot, key) == Ok(Some(BlockedByAdmin))
    ensures SubscribeViaStart(d, bot, key, id) == Ok(d)
  {
  }

  /** Exactly three board steps end a block: `/stop`, the delete, and a change to another status. */
  ghost predicate EndsBlock(op: BoardOp, c: Cell) {
    op == Stop(c) || op == Forget(c.key) || (op.Put? && op.cell == c && op.status != BlockedByAdmin)
  }

  lemma BlockEnds(board: Board, op: BoardOp, c: Cell)
    requires Lookup(board, c) == Some(BlockedByAdmin)
    ensures Lookup(BoardStep(board, op), c) != Some(BlockedByAdmin) <==> EndsBlock(op, c)
  {
    if op.Register? && op.cell.key == c.key {
      assert Known(board, c.key) by {
        assert Cell(c.bot, c.key) in board;
      }
    }
  }

  // ----- The listing of a bot's destinations -----

  /** `list_destinations_for_bot`: the destinations of one page of live subscriptions that are live. */
  function ListForBot(d: DestinationTables, tenant: TenantId, page: seq<SubscriptionKey>): seq<DestinationId> {
    if page == [] then []
    else (if HasDestination(d, tenant, page[0].destination) then [page[0].destination] else [])
         + ListForBot(d, tenant, page[1..])
  }

  /** The filter on live destinations drops no item of a page of live subscriptions. */
  lemma {:induction false} ListForBotDropsNothing(d: DestinationTables, tenant: TenantId, page: seq<SubscriptionKey>)
    requires Sound(d)
    requires forall k | k in page :: k in d.subscriptions && d.subscriptions[k].tenant == tenant
                                     && IsLive(d.subscriptions[k].deletedAt)
    ensures |ListForBot(d, tenant, page)| == |page|
    ensures forall i | 0 <= i < |page| :: ListForBot(d, tenant, page)[i] == page[i].destination
  {
    if page != [] {
      assert page[0] in page;
      ListForBotDropsNothing(d, tenant, page[1..]);
    }
  }
}
