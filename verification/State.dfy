/** The whole state a run goes through: tables, broker, throttle counters, clock and history. */
module State {
  import opened Wrappers
  import opened Rows
  import opened Tables
  import FixedWindow

  /** A queued send task, apart from the log it names: failed attempts so far, and when it may start. */
  datatype Ticket = Ticket(retries: nat, eta: nat)

  /** The broker's messages, grouped by the delivery log they name. */
  type Broker = map<LogKey, multiset<Ticket>>

  function Tickets(q: Broker, l: LogKey): multiset<Ticket> {
    if l in q then q[l] else multiset{}
  }

  function Joined(q: Broker, l: LogKey, t: Ticket): multiset<Ticket> {
    Tickets(q, l) + multiset{t}
  }

  function Enqueue(q: Broker, l: LogKey, t: Ticket): Broker {
    q[l := Joined(q, l, t)]
  }

  function EnqueueAll(q: Broker, logs: set<LogKey>, t: Ticket): Broker {
    map l | l in q.Keys + logs :: if l in logs then Joined(q, l, t) else q[l]
  }

  function Take(q: Broker, l: LogKey, t: Ticket): Broker {
    q[l := Tickets(q, l) - multiset{t}]
  }

  datatype ThrottleKey = BotKey(bot: BotId) | ChatKey(bot: BotId, chat: int)

  /** What happens to one delivery log outside the tables, as seen by nobody but the proofs. */
  datatype Mark =
    /** Telegram accepted the message. */
    | Accepted
    /** The call ended in an error. */
    | Rejected
    /** The call ended in an error although Telegram accepted: the reply was lost, or came too late. */
    | Unreported
    /** Telegram accepted, and the execution was cut short before the commit. */
    | Unrecorded
    /** The throttle held the log back. */
    | Throttled
    /** A usage event was enqueued. */
    | EventOut
    /** The log was committed as SENT, and the execution was cut short before its usage event was enqueued. */
    | EventLost
    /** An execution was cut short. */
    | CutOff
    /** ... and the broker did not keep the job. */
    | JobLost
    /** The broker delivered one more copy of a job. */
    | Copied
    /** The process died after the commit and before the first job was enqueued. */
    | EnqueueLost

  type History = map<LogKey, multiset<Mark>>

  function MarksOf(h: History, l: LogKey): multiset<Mark> {
    if l in h then h[l] else multiset{}
  }

  function Note(h: History, l: LogKey, marks: multiset<Mark>): History {
    h[l := MarksOf(h, l) + marks]
  }

  function NoteAll(h: History, logs: set<LogKey>, marks: multiset<Mark>): History {
    map l | l in h.Keys + logs :: if l in logs then MarksOf(h, l) + marks else h[l]
  }

  datatype Event =
    /** A call to Telegram, by bot and second, and by chat and second. */
    | BotCalled(bot: BotId, second: nat)
    | ChatCalled(bot: BotId, chat: int, second: nat)
    /** A refresh token was exchanged. */
    | Exchanged(token: TokenId)

  datatype Platform = Platform(
    orgs: OrgTables,
    bots: BotTables,
    dests: DestinationTables,
    msgs: MessageTables,
    auth: AuthTables,
    queue: Broker,
    redis: FixedWindow.Store<ThrottleKey>,
    now: nat,
    history: History,
    trace: multiset<Event>,
    calls: seq<FixedWindow.Call<ThrottleKey>>)

  const EMPTY := Platform(
    OrgTables(map[], map[]), BotTables(map[], map[]), DestinationTables(map[], map[]),
    MessageTables(map[], map[]), AuthTables(map[]), map[], map[], 0, map[], multiset{}, [])
}
