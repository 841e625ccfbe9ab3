/** Inbound Telegram updates: the service methods. */
module WebhookService {
  import opened Wrappers
  import opened Rows
  import opened Tables
  import opened Database
  import Bots
  import Destinations
  import DestinationService
  import Webhooks

  /** Policy open: subscribe. Policy closed: create nothing. */
  method HandleStart(session: Session, bot: BotId, chat: int, thread: Option<int>, id: DestinationId)
    returns (error: Option<AppError>)
    requires bot in session.bots
    modifies session`destinations, session`subscriptions
    ensures if !session.bots[bot].webhookEnabled then error.None? && session.Dests() == old(session.Dests())
            else Agrees(error, Destinations.SubscribeViaStart(
                                 old(session.Dests()), bot,
                                 Destinations.ChatKey(session.bots[bot].tenant, chat, thread), id), session.Dests())
  {
    if !session.bots[bot].webhookEnabled {
      return None;
    }
    error := DestinationService.SubscribeViaStart(
      session, bot, Destinations.ChatKey(session.bots[bot].tenant, chat, thread), id);
  }

  method HandleTelegramUpdate(session: Session, bot: BotId, secretMatches: bool, update: Option<Webhooks.Incoming>,
                              id: DestinationId) returns (error: Option<AppError>)
    modifies session`destinations, session`subscriptions
    ensures Agrees(error, Webhooks.HandleUpdate(session.Bots(), old(session.Dests()), bot, secretMatches, update, id),
                   session.Dests())
  {
    if !Bots.IsLiveBot(session.Bots(), bot) {
      return Some(BotNotFound);
    }
    if !secretMatches {
      return Some(WebhookSecretInvalid);
    }
    if update.None? || update.value.text.None? {
      return None;
    }
    var command := Webhooks.ExtractCommand(update.value.text.value);
    if command.None? {
      return None;
    }
    var context := Webhooks.ResolveContext(update.value);
    if context.None? {
      return None;
    }
    var (chat, thread) := context.value;
    match command.value
    case StartCommand => error := HandleStart(session, bot, chat, thread, id);
    case StopCommand =>
      error := DestinationService.UnsubscribeViaStop(
        session, bot, Destinations.ChatKey(session.bots[bot].tenant, chat, thread));
    case _ => return None;
  }
}
