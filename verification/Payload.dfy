/** The message-create request body, the stored content, and the choice of Telegram sender. */
module Payload {
  import opened Wrappers

  datatype ContentType = Text | Media | Poll
  datatype MediaType = Photo | Document | Video
  datatype Keyboard = Keyboard(rows: seq<seq<string>>)

  /** A poll as the request schema accepts it: both required fields are present. */
  datatype PollInput = PollInput(question: string, options: seq<string>, anonymous: bool, multiple: bool)

  /** A poll as the JSON column gives it back: any key may be absent. */
  datatype PollDict = PollDict(question: Option<string>, options: Option<seq<string>>,
                               anonymous: Option<bool>, multiple: Option<bool>)

  datatype MessageCreate = MessageCreate(
    destinations: seq<nat>,
    contentType: ContentType,
    text: Option<string>,
    mediaType: Option<MediaType>,
    mediaUrl: Option<string>,
    keyboard: Option<Keyboard>,
    poll: Option<PollInput>,
    usesTemplate: bool)

  datatype ValidationError =
    | NoDestinations | TextTooLong | UrlTooLong
    | TemplateNeedsText | TextWithTemplate | TextRequired
    | MediaRequired | MediaNotAllowed
    | PollRequired | KeyboardWithPoll | PollNotAllowed
    | DuplicateDestinations

  const MAX_TEXT := 4096
  const MAX_URL := 2048

  predicate Filled(s: Option<string>) {
    s.Some? && s.value != ""
  }

  predicate Distinct(ids: seq<nat>) {
    forall i, j | 0 <= i < j < |ids| :: ids[i] != ids[j]
  }

  /** Field constraints first, then the cross-field validator in its own order. */
  function Validate(p: MessageCreate): Result<MessageCreate, ValidationError> {
    if p.destinations == [] then Err(NoDestinations)
    else if p.text.Some? && |p.text.value| > MAX_TEXT then Err(TextTooLong)
    else if p.mediaUrl.Some? && |p.mediaUrl.value| > MAX_URL then Err(UrlTooLong)
    else if p.usesTemplate && p.contentType != Text then Err(TemplateNeedsText)
    else if p.usesTemplate && p.text.Some? then Err(TextWithTemplate)
    else if !p.usesTemplate && p.contentType == Text && !Filled(p.text) then Err(TextRequired)
    else if p.contentType == Media && (p.mediaType.None? || !Filled(p.mediaUrl)) then Err(MediaRequired)
    else if p.contentType != Media && (p.mediaType.Some? || p.mediaUrl.Some?) then Err(MediaNotAllowed)
    else if p.contentType == Poll && p.poll.None? then Err(PollRequired)
    else if p.contentType == Poll && p.keyboard.Some? then Err(KeyboardWithPoll)
    else if p.contentType != Poll && p.poll.Some? then Err(PollNotAllowed)
    else if !Distinct(p.destinations) then Err(DuplicateDestinations)
    else Ok(p)
  }

  /** The content columns of a `messages` row. */
  datatype Content = Content(
    contentType: ContentType,
    text: Option<string>,
    mediaType: Option<MediaType>,
    mediaUrl: Option<string>,
    keyboard: Option<Keyboard>,
    poll: Option<PollDict>)

  function Dump(p: PollInput): PollDict {
    PollDict(Some(p.question), Some(p.options), Some(p.anonymous), Some(p.multiple))
  }

  /** What is stored; `text` is the request's own text or the rendered template. */
  function Stored(p: MessageCreate, text: Option<string>): Content {
    Content(p.contentType, text, p.mediaType, p.mediaUrl, p.keyboard,
            if p.poll.Some? then Some(Dump(p.poll.value)) else None)
  }

  datatype TelegramRequest =
    | SendMessage(text: string, keyboard: Option<Keyboard>)
    | SendMedia(kind: MediaType, url: string, caption: Option<string>, keyboard: Option<Keyboard>)
    | SendPoll(question: string, options: seq<string>, anonymous: bool, multiple: bool)

  datatype SendError = AssertionFailed | MissingPollKey

  /** Which Telegram call a stored message turns into. */
  function SendViaTelegram(c: Content): Result<TelegramRequest, SendError> {
    match c.contentType
    case Text => Ok(SendMessage(if c.text.Some? then c.text.value else "", c.keyboard))
    case Media =>
      if c.mediaType.None? || c.mediaUrl.None? then Err(AssertionFailed)
      else Ok(SendMedia(c.mediaType.value, c.mediaUrl.value, c.text, c.keyboard))
    case Poll =>
      var poll := if c.poll.Some? then c.poll.value else PollDict(None, None, None, None);
      if poll.question.None? || poll.options.None? then Err(MissingPollKey)
      else Ok(SendPoll(poll.question.value, poll.options.value,
                       if poll.anonymous.Some? then poll.anonymous.value else true,
                       if poll.multiple.Some? then poll.multiple.value else false))
  }

  /** The three shapes a request can have, one per content type. */
  ghost predicate TextShape(p: MessageCreate) {
    && p.contentType == Text && p.mediaType.None? && p.mediaUrl.None? && p.poll.None?
    && (if p.usesTemplate then p.text.None? else Filled(p.text))
  }

  ghost predicate MediaShape(p: MessageCreate) {
    p.contentType == Media && !p.usesTemplate && p.mediaType.Some? && Filled(p.mediaUrl) && p.poll.None?
  }

  ghost predicate PollShape(p: MessageCreate) {
    && p.contentType == Poll && !p.usesTemplate && p.poll.Some? && p.keyboard.None?
    && p.mediaType.None? && p.mediaUrl.None?
  }

  /** One of the three shapes, with distinct destinations, at least one, and texts within their limits. */
  ghost predicate WellFormed(p: MessageCreate) {
    && (TextShape(p) || MediaShape(p) || PollShape(p))
    && p.destinations != [] && (forall i, j | 0 <= i < j < |p.destinations| :: p.destinations[i] != p.destinations[j])
    && (p.text.Some? ==> |p.text.value| <= 4096)
    && (p.mediaUrl.Some? ==> |p.mediaUrl.value| <= 2048)
  }

  /** The validator accepts exactly the well-formed requests, and passes them on unchanged. */
  lemma ValidateAcceptsExactly(p: MessageCreate)
    ensures Validate(p).Ok? <==> WellFormed(p)
    ensures Validate(p).Ok? ==> Validate(p).value == p
  {
    match p.contentType
    case Text =>
    case Media =>
    case Poll =>
  }

  /** A validated request, once stored with any text, reaches the one sender of its content type
      with the request's own values: no assertion fails and no poll key is missing. */
  lemma ValidatedIsSendable(p: MessageCreate, text: Option<string>)
    requires Validate(p).Ok?
    ensures SendViaTelegram(Stored(p, text)) ==
            match p.contentType
            case Text => Ok(SendMessage(if text.Some? then text.value else "", p.keyboard))
            case Media => Ok(SendMedia(p.mediaType.value, p.mediaUrl.value, text, p.keyboard))
            case Poll => Ok(SendPoll(p.poll.value.question, p.poll.value.options,
                                     p.poll.value.anonymous, p.poll.value.multiple))
  {
    ValidateAcceptsExactly(p);
  }
}
