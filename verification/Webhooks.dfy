/** Inbound Telegram updates: command parsing and the subscription commands. */
module Webhooks {
  import opened Wrappers
  import opened Rows
  import opened Tables
  import Bots
  import Destinations
  import Template

  datatype Command = StartCommand | StopCommand | StatusCommand | HelpCommand | AboutCommand

  datatype ChatKind = Private | Group | Supergroup | Channel

  datatype Incoming = Incoming(kind: ChatKind, chat: int, thread: Option<int>, text: Option<string>)

  function Lower(s: string): (r: string)
    ensures |r| == |s|
  {
    seq(|s|, i requires 0 <= i < |s| => if 'A' <= s[i] <= 'Z' then s[i] - 'A' + 'a' else s[i])
  }

  /** The text before the first white space, or before the first `@`. */
  function Until(s: string, stop: char -> bool): string {
    if s == "" || stop(s[0]) then "" else [s[0]] + Until(s[1..], stop)
  }

  function CommandNamed(name: string): Option<Command> {
    if name == "start" then Some(StartCommand)
    else if name == "stop" then Some(StopCommand)
    else if name == "status" then Some(StatusCommand)
    else if name == "help" then Some(HelpCommand)
    else if name == "about" then Some(AboutCommand)
    else None
  }

  function ExtractCommand(text: string): Option<Command> {
    if !("/" <= text) then None
    else
      var token := Until(text, Template.IsSpace);
      CommandNamed(Lower(Until(token[1..], c => c == '@')))
  }

  lemma {:induction false} UntilStops(word: string, tail: string, stop: char -> bool)
    requires forall c | c in word :: !stop(c)
    requires tail == "" || stop(tail[0])
    ensures Until(word + tail, stop) == word
  {
    if word == "" {
      assert word + tail == tail;
    } else {
      assert word[0] in word && (word + tail)[1..] == word[1..] + tail;
      UntilStops(word[1..], tail, stop);
    }
  }

  /** A command is recognized whatever its case, bot suffix and arguments. */
  lemma CommandIgnoresSuffix(name: string, suffix: string, arguments: string)
    requires forall c | c in name :: !Template.IsSpace(c) && c != '@'
    requires suffix == "" || (suffix[0] == '@' && forall c | c in suffix :: !Template.IsSpace(c))
    requires arguments == "" || Template.IsSpace(arguments[0])
    ensures ExtractCommand("/" + name + suffix + arguments) == CommandNamed(Lower(name))
  {
    var token := "/" + name + suffix;
    UntilStops(token, arguments, Template.IsSpace);
    assert token[1..] == name + suffix;
    UntilStops(name, suffix, c => c == '@');
  }

  /** Chat and thread of a command; channels have no command flow, private chats no topics. */
  function ResolveContext(m: Incoming): Option<(int, Option<int>)> {
    match m.kind
    case Private => Some((m.chat, None))
    case Group => Some((m.chat, m.thread))
    case Supergroup => Some((m.chat, m.thread))
    case Channel => None
  }

  /** The command an update amounts to, with its chat. */
  function Parsed(update: Option<Incoming>): Option<(Command, int, Option<int>)> {
    if update.None? || update.value.text.None? then None
    else
      var command := ExtractCommand(update.value.text.value);
      var context := ResolveContext(update.value);
      if command.None? || context.None? then None
      else Some((command.value, context.value.0, context.value.1))
  }

  function HandleUpdate(b: BotTables, d: DestinationTables, bot: BotId, secretMatches: bool,
                        update: Option<Incoming>, id: DestinationId): Result<DestinationTables, AppError>
  {
    if !Bots.IsLiveBot(b, bot) then Err(BotNotFound)
    else if !secretMatches then Err(WebhookSecretInvalid)
    else match Parsed(update)
         case Some((StartCommand, chat, thread)) =>
           if !b.bots[bot].webhookEnabled then Ok(d)
           else Destinations.SubscribeViaStart(d, bot, Destinations.ChatKey(b.bots[bot].tenant, chat, thread), id)
         case Some((StopCommand, chat, thread)) =>
           Destinations.UnsubscribeViaStop(d, bot, Destinations.ChatKey(b.bots[bot].tenant, chat, thread))
         case _ => Ok(d)
  }

  /** What the update means for the simple status machine. */
  ghost function Meaning(b: BotTables, bot: BotId, secretMatches: bool, update: Option<Incoming>):
    Destinations.BoardOp
  {
    if !Bots.IsLiveBot(b, bot) || !secretMatches then Destinations.Stay
    else match Parsed(update)
         case Some((StartCommand, chat, thread)) =>
           if !b.bots[bot].webhookEnabled then Destinations.Stay
           else Destinations.Start(Destinations.Cell(bot, Destinations.ChatKey(b.bots[bot].tenant, chat, thread)))
         case Some((StopCommand, chat, thread)) =>
           Destinations.Stop(Destinations.Cell(bot, Destinations.ChatKey(b.bots[bot].tenant, chat, thread)))
         case _ => Destinations.Stay
  }

  /** A `/start` of an unknown chat needs an id for the new destination, and the one generated is taken. */
  ghost predicate NeedsTakenId(d: DestinationTables, board: Destinations.Board, op: Destinations.BoardOp,
                               id: DestinationId)
  {
    op.Start? && !Destinations.Known(board, op.cell.key) && id in d.destinations
  }

  /** A webhook call does to the tables what its command does to the status machine. */
  lemma UpdateRefines(b: BotTables, d: DestinationTables, board: Destinations.Board, bot: BotId,
                      secretMatches: bool, update: Option<Incoming>, id: DestinationId)
    requires Destinations.Sound(d) && Destinations.Refines(d, board)
    ensures var r := HandleUpdate(b, d, bot, secretMatches, update, id);
            && (r.Ok? ==>
                  && Destinations.Sound(r.value)
                  && Destinations.Refines(r.value,
                       Destinations.BoardStep(board, Meaning(b, bot, secretMatches, update))))
            && (r.Ok? <==> Bots.IsLiveBot(b, bot) && secretMatches
                           && !NeedsTakenId(d, board, Meaning(b, bot, secretMatches, update), id))
            && (id !in d.destinations ==> Destinations.NotRefused(r))
  {
    hide Destinations.Sound, Destinations.Refines, Destinations.Known, Parsed;
    if Bots.IsLiveBot(b, bot) && secretMatches {
      match Parsed(update)
      case Some((StartCommand, chat, thread)) =>
        if b.bots[bot].webhookEnabled {
          Destinations.StartRefines(d, board, bot, Destinations.ChatKey(b.bots[bot].tenant, chat, thread), id);
        }
      case Some((StopCommand, chat, thread)) =>
        Destinations.StopRefines(d, board, bot, Destinations.ChatKey(b.bots[bot].tenant, chat, thread));
      case _ =>
    }
  }
}
