/** The database session the services work on. */
module Database {
  import opened Wrappers
  import opened Rows
  import opened Tables

  /** All tables at one moment. */
  datatype Snapshot = Snapshot(orgs: OrgTables, bots: BotTables, dests: DestinationTables, msgs: MessageTables,
                               auth: AuthTables)

  /** One transaction's view of the tables, and the tables as last committed. */
  class Session {
    var organizations: map<TenantId, Organization>
    var members: map<Seat, Role>
    var bots: map<BotId, Bot>
    var assignments: map<AssignmentId, BotAssignment>
    var destinations: map<DestinationId, Destination>
    var subscriptions: map<SubscriptionKey, Subscription>
    var messages: map<MessageId, Message>
    var logs: map<LogKey, DeliveryLog>
    var tokens: map<TokenId, RefreshToken>
    var committed: Snapshot

    constructor ()
      ensures Current() == Snapshot(OrgTables(map[], map[]), BotTables(map[], map[]), DestinationTables(map[], map[]),
                                    MessageTables(map[], map[]), AuthTables(map[]))
      ensures Clean()
    {
      organizations, members, bots, assignments := map[], map[], map[], map[];
      destinations, subscriptions, messages, logs, tokens := map[], map[], map[], map[], map[];
      committed := Snapshot(OrgTables(map[], map[]), BotTables(map[], map[]), DestinationTables(map[], map[]),
                            MessageTables(map[], map[]), AuthTables(map[]));
    }

    function Orgs(): OrgTables
      reads this`organizations, this`members
    {
      OrgTables(organizations, members)
    }

    function Bots(): BotTables
      reads this`bots, this`assignments
    {
      BotTables(bots, assignments)
    }

    function Dests(): DestinationTables
      reads this`destinations, this`subscriptions
    {
      DestinationTables(destinations, subscriptions)
    }

    function Msgs(): MessageTables
      reads this`messages, this`logs
    {
      MessageTables(messages, logs)
    }

    function Auth(): AuthTables
      reads this`tokens
    {
      AuthTables(tokens)
    }

    function Current(): Snapshot
      reads this
    {
      Snapshot(Orgs(), Bots(), Dests(), Msgs(), Auth())
    }

    ghost predicate Clean()
      reads this
    {
      committed == Current()
    }

    method Commit()
      modifies this`committed
      ensures Clean()
    {
      committed := Current();
    }

    /** A session closed without a commit. */
    method Rollback()
      modifies this
      ensures Clean() && committed == old(committed)
    {
      organizations, members := committed.orgs.organizations, committed.orgs.members;
      bots, assignments := committed.bots.bots, committed.bots.assignments;
      destinations, subscriptions := committed.dests.destinations, committed.dests.subscriptions;
      messages, logs := committed.msgs.messages, committed.msgs.logs;
      tokens := committed.auth.tokens;
    }
  }

  ghost predicate Distinct<K>(rows: seq<K>) {
    forall i, j | 0 <= i < j < |rows| :: rows[i] != rows[j]
  }

  ghost function KeySet<K>(rows: seq<K>): set<K> {
    set k | k in rows
  }

  /** The rows a query selects, in whatever order the database returns them. */
  method Select<K(==)>(keys: set<K>) returns (rows: seq<K>)
    ensures Distinct(rows) && forall k :: k in rows <==> k in keys
  {
    rows := [];
    var rest := keys;
    while rest != {}
      invariant rest <= keys && Distinct(rows)
      invariant forall k :: k in rows <==> k in keys - rest
      decreases |rest|
    {
      var k :| k in rest;
      assert k !in rows;
      rows, rest := rows + [k], rest - {k};
    }
  }

  /** A service call ended as its specification says: the same error, or the same new tables. */
  ghost predicate Agrees<T>(error: Option<AppError>, spec: Result<T, AppError>, tables: T) {
    match error
    case None => spec == Ok(tables)
    case Some(e) => spec == Err(e)
  }
}
