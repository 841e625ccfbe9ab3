/** Destinations and subscriptions: the service and repository methods. */
module DestinationService {
  import opened Wrappers
  import opened Query
  import opened Rows
  import opened Tables
  import opened Database
  import Bots
  import Destinations

  method InsertDestination(session: Session, id: DestinationId, key: Destinations.ChatKey)
    returns (error: Option<AppError>)
    modifies session`destinations
    ensures Agrees(error, Destinations.InsertDestination(old(session.Dests()), id, key), session.Dests())
  {
    if id in session.destinations || Destinations.LiveAtChat(session.Dests(), key) != {} {
      return Some(IntegrityError);
    }
    session.destinations := session.destinations[id := Destination(key.tenant, key.chat, key.thread, None)];
    return None;
  }

  method InsertSubscription(session: Session, tenant: TenantId, bot: BotId, id: DestinationId)
    returns (error: Option<AppError>)
    modifies session`subscriptions
    ensures Agrees(error, Destinations.InsertSubscription(old(session.Dests()), tenant, bot, id), session.Dests())
  {
    if SubscriptionKey(bot, id) in session.subscriptions {
      return Some(IntegrityError);
    }
    session.subscriptions := session.subscriptions[SubscriptionKey(bot, id) := Subscription(tenant, Active, None)];
    return None;
  }

  method SetStatus(session: Session, bot: BotId, id: DestinationId, status: SubscriptionStatus)
    requires SubscriptionKey(bot, id) in session.subscriptions
    modifies session`subscriptions
    ensures session.Dests() == Destinations.SetStatus(old(session.Dests()), bot, id, status)
  {
    var key := SubscriptionKey(bot, id);
    session.subscriptions := session.subscriptions[key := session.subscriptions[key].(status := status)];
  }

  /** The subscription is inserted after the destination, in the same transaction. */
  method CreateDestination(session: Session, bot: BotId, key: Destinations.ChatKey, id: DestinationId)
    returns (error: Option<AppError>)
    modifies session`destinations, session`subscriptions
    ensures Agrees(error, Destinations.CreateDestination(old(session.Dests()),
                                                         Bots.HasBot(session.Bots(), key.tenant, bot), bot, key, id),
                   session.Dests())
  {
    if !Bots.HasBot(session.Bots(), key.tenant, bot) {
      return Some(BotNotFound);
    }
    match ScalarOneOrNone(Destinations.LiveAtChat(session.Dests(), key))
    case MultipleRows => return Some(MultipleResultsFound);
    case OneRow(_) => return Some(DestinationAlreadyExists);
    case NoRow =>
      error := InsertDestination(session, id, key);
      if error.None? {
        error := InsertSubscription(session, key.tenant, bot, id);
      }
  }

  method SoftDeleteSubscription(session: Session, key: SubscriptionKey, now: nat)
    requires key in session.subscriptions
    modifies session`subscriptions
    ensures session.subscriptions
            == old(session.subscriptions)[key := old(session.subscriptions)[key].(deletedAt := Some(now))]
  {
    session.subscriptions := session.subscriptions[key := session.subscriptions[key].(deletedAt := Some(now))];
  }

  method SoftDeleteSubscriptions(session: Session, tenant: TenantId, id: DestinationId, now: nat)
    modifies session`subscriptions
    ensures session.subscriptions ==
            map k | k in old(session.subscriptions) ::
              Destinations.SubscriptionRetired(k, old(session.subscriptions)[k], tenant, id, now)
  {
    var rows := Select(set k | k in session.subscriptions && k.destination == id
                              && session.subscriptions[k].tenant == tenant
                              && IsLive(session.subscriptions[k].deletedAt));
    var i := 0;
    while i < |rows|
      invariant 0 <= i <= |rows|
      invariant session.subscriptions.Keys == old(session.subscriptions).Keys
      invariant forall k | k in session.subscriptions ::
                  session.subscriptions[k] == if k in rows[..i] then old(session.subscriptions)[k].(deletedAt := Some(now))
                                              else old(session.subscriptions)[k]
    {
      assert rows[i] in rows;
      SoftDeleteSubscription(session, rows[i], now);
      i := i + 1;
    }
    assert rows[..i] == rows;
  }

  method DeleteDestination(session: Session, tenant: TenantId, id: DestinationId, now: nat)
    returns (error: Option<AppError>)
    modifies session`destinations, session`subscriptions
    ensures Agrees(error, Destinations.DeleteDestination(old(session.Dests()), tenant, id, now), session.Dests())
  {
    if !Destinations.HasDestination(session.Dests(), tenant, id) {
      return Some(DestinationNotFound);
    }
    SoftDeleteSubscriptions(session, tenant, id, now);
    session.destinations := session.destinations[id := session.destinations[id].(deletedAt := Some(now))];
    return None;
  }

  method UpdateSubscriptionStatus(session: Session, tenant: TenantId, id: DestinationId, bot: BotId,
                                  status: SubscriptionStatus) returns (error: Option<AppError>)
    modifies session`subscriptions
    ensures Agrees(error, Destinations.UpdateSubscriptionStatus(old(session.Dests()),
                                                                Bots.HasBot(session.Bots(), tenant, bot),
                                                                tenant, id, bot, status), session.Dests())
  {
    if !Destinations.HasDestination(session.Dests(), tenant, id) {
      return Some(DestinationNotFound);
    }
    if !Bots.HasBot(session.Bots(), tenant, bot) {
      return Some(BotNotFound);
    }
    if Destinations.LiveSubscription(session.Dests(), tenant, bot, id).None? {
      return Some(SubscriptionNotFound);
    }
    SetStatus(session, bot, id, status);
    return None;
  }

  method GetOrCreateDestination(session: Session, key: Destinations.ChatKey, id: DestinationId)
    returns (r: Result<DestinationId, AppError>)
    modifies session`destinations
    ensures match r
            case Ok(found) =>
              Destinations.GetOrCreateDestination(old(session.Dests()), key, id)
              == Ok(Destinations.Found(session.Dests(), found))
            case Err(e) => Destinations.GetOrCreateDestination(old(session.Dests()), key, id) == Err(e)
  {
    match ScalarOneOrNone(Destinations.LiveAtChat(session.Dests(), key))
    case MultipleRows => return Err(MultipleResultsFound);
    case OneRow(existing) => return Ok(existing);
    case NoRow =>
      var error := InsertDestination(session, id, key);
      return if error.Some? then Err(error.value) else Ok(id);
  }

  method ActivateSubscription(session: Session, tenant: TenantId, bot: BotId, id: DestinationId)
    returns (error: Option<AppError>)
    modifies session`subscriptions
    ensures Agrees(error, Destinations.ActivateSubscription(old(session.Dests()), tenant, bot, id), session.Dests())
  {
    match Destinations.LiveSubscription(session.Dests(), tenant, bot, id)
    case None => error := InsertSubscription(session, tenant, bot, id);
    case Some(status) =>
      if status == Unsubscribed {
        SetStatus(session, bot, id, Active);
      }
      return None;
  }

  method SubscribeViaStart(session: Session, bot: BotId, key: Destinations.ChatKey, id: DestinationId)
    returns (error: Option<AppError>)
    modifies session`destinations, session`subscriptions
    ensures Agrees(error, Destinations.SubscribeViaStart(old(session.Dests()), bot, key, id), session.Dests())
  {
    var found := GetOrCreateDestination(session, key, id);
    if found.Err? {
      return Some(found.error);
    }
    error := ActivateSubscription(session, key.tenant, bot, found.value);
  }

  method UnsubscribeViaStop(session: Session, bot: BotId, key: Destinations.ChatKey) returns (error: Option<AppError>)
    modifies session`subscriptions
    ensures Agrees(error, Destinations.UnsubscribeViaStop(old(session.Dests()), bot, key), session.Dests())
  {
    match ScalarOneOrNone(Destinations.LiveAtChat(session.Dests(), key))
    case MultipleRows => return Some(MultipleResultsFound);
    case NoRow => return None;
    case OneRow(id) =>
      if Destinations.LiveSubscription(session.Dests(), key.tenant, bot, id).Some? {
        SetStatus(session, bot, id, Unsubscribed);
      }
      return None;
  }

  /** The listing of a bot's destinations: a lookup per subscription, with a filter. */
  method ListDestinationsForBot(session: Session, tenant: TenantId, page: seq<SubscriptionKey>)
    returns (items: seq<DestinationId>)
    ensures items == Destinations.ListForBot(session.Dests(), tenant, page)
  {
    items := [];
    var i := 0;
    while i < |page|
      invariant 0 <= i <= |page|
      invariant items + Destinations.ListForBot(session.Dests(), tenant, page[i..])
                == Destinations.ListForBot(session.Dests(), tenant, page)
    {
      assert page[i..][1..] == page[i + 1..];
      if Destinations.HasDestination(session.Dests(), tenant, page[i].destination) {
        items := items + [page[i].destination];
      }
      i := i + 1;
    }
  }
}
