/** Concrete runs from the empty system: the theorems about runs speak of something, and what they do not promise
    does happen. */
module Witness {
  import opened Wrappers
  import opened Rows
  import opened Tables
  import opened State
  import opened Platforms
  import Payload
  import Organizations
  import Bots
  import Destinations
  import Webhooks
  import Messaging
  import Delivery
  import Health
  import Frames

  const HELLO := Payload.MessageCreate([3], Payload.Text, Some("hello"), None, None, None, None, false)
  const REQUEST := Messaging.Request(2, HELLO, Messaging.TemplateUse(None, None), None)
  const LOG := LogKey(4, 3)
  const JOB := Ticket(0, 0)

  /** Found an organization, register a bot and a chat, send a message, deliver it. */
  const FOUND := OnOrgs(Found(7, 1))
  const REGISTER := OnBots(7, 1, RegisterBot(2, 99, 5))
  const CHAT := OnDestinations(7, 1, CreateDestination(2, 42, None, 3))
  const SEND := CreateMessage(Jwt(7, 1), REQUEST, 4, {})
  const DELIVER := RunTask(LOG, JOB, Delivery.Accept(Some(1)), Delivery.Whole)

  const ORGS := OrgTables(map[1 := Organization(None)], map[Seat(1, 7) := Owner])
  const BOTS := BotTables(map[2 := Bot(1, 99, 5, false, None)], map[])
  const DESTS := DestinationTables(map[3 := Destination(1, 42, None, None)],
                                   map[SubscriptionKey(2, 3) := Subscription(1, Active, None)])

  lemma OneMoreStep(ops: seq<Op>, op: Op)
    ensures Run(ops + [op]) == Step(Run(ops), op)
  {
    hide Step;
    assert (ops + [op])[..|ops + [op]| - 1] == ops;
  }

  lemma Founded()
    ensures Step(EMPTY, FOUND) == EMPTY.(orgs := ORGS)
  {
  }

  lemma Registered(s: Platform)
    requires s == EMPTY.(orgs := ORGS)
    ensures Step(s, REGISTER) == s.(bots := BOTS)
  {
  }

  lemma Connected(s: Platform)
    requires s.orgs == ORGS && s.dests == EMPTY.dests && s.now == 0
    requires 2 in s.bots.bots && s.bots.bots[2].tenant == 1 && s.bots.bots[2].deletedAt.None?
    ensures Step(s, CHAT) == s.(dests := DESTS)
  {
  }

  lemma Prepared()
    ensures Run([FOUND, REGISTER, CHAT]) == EMPTY.(orgs := ORGS, bots := BOTS, dests := DESTS)
  {
    hide Step, Run;
    Founded();
    Registered(EMPTY.(orgs := ORGS));
    Connected(EMPTY.(orgs := ORGS, bots := BOTS));
    StartsEmpty();
    OneMoreStep([], FOUND);
    OneMoreStep([FOUND], REGISTER);
    OneMoreStep([FOUND, REGISTER], CHAT);
    assert [] + [FOUND] == [FOUND] && [FOUND] + [REGISTER] == [FOUND, REGISTER];
    assert [FOUND, REGISTER] + [CHAT] == [FOUND, REGISTER, CHAT];
  }

  lemma StartsEmpty()
    ensures Run([]) == EMPTY
  {
  }

  const SENDER := Messaging.Sender(Some(7), None)
  const ROW := Message(1, 2, Payload.Stored(HELLO, Some("hello")), None, None, None)
  const QUEUED := MessageTables(map[4 := ROW], map[LOG := Messaging.QueuedLog(1, 0)])

  lemma Inserted()
    ensures Messaging.InsertMessage(MessageTables(map[], map[]), 4, ROW, [3], 0) == Ok(QUEUED)
    ensures Messaging.LogKeys(4, [3]) == {LOG}
  {
    assert Messaging.LogKeys(4, [3]) == {LOG};
    var r := Messaging.InsertMessage(MessageTables(map[], map[]), 4, ROW, [3], 0);
    assert r.Ok?;
    assert r.value.logs.Keys == {LOG} && r.value.logs[LOG] == Messaging.QueuedLog(1, 0);
    assert r.value.logs == QUEUED.logs && r.value.messages == QUEUED.messages;
  }

  lemma Created()
    ensures Messaging.CreateMessage(ORGS, BOTS, DESTS, EMPTY.msgs, 1, SENDER, REQUEST, 4, 0) == Ok(QUEUED)
    ensures Payload.Validate(HELLO).Ok?
  {
    Inserted();
    hide Messaging.InsertMessage, Messaging.LogKeys;
    assert Messaging.FirstRefusal(DESTS, 1, 2, [3]).None? by {
      assert [3][1..] == [];
    }
  }

  lemma Authenticated(s: Platform)
    requires s.orgs == ORGS
    ensures Authenticate(s, Jwt(7, 1)) == Ok((1, SENDER))
  {
  }

  /** The message is stored and its job enqueued. */
  lemma Queued(s: Platform)
    requires s == EMPTY.(orgs := ORGS, bots := BOTS, dests := DESTS)
    ensures var s' := Step(s, SEND);
            && s' == s.(msgs := QUEUED, queue := s'.queue, history := s'.history)
            && Tickets(s'.queue, LOG) == multiset{JOB}
  {
    Created();
    Authenticated(s);
    Inserted();
    assert Step(s, SEND) == CommitAndEnqueue(s, QUEUED, {LOG}, {}) by {
      hide CommitAndEnqueue, Messaging.CreateMessage, Messaging.LogKeys, Authenticate, Payload.Validate;
    }
    hide Step, Messaging.LogKeys;
    assert {LOG} - {} == {LOG} && {LOG} * {} == {};
    assert Tickets(EnqueueAll(map[], {LOG}, JOB), LOG) == multiset{} + multiset{JOB} == multiset{JOB};
  }

  lemma SentOff()
    ensures var s := Run([FOUND, REGISTER, CHAT, SEND]);
            && s == EMPTY.(orgs := ORGS, bots := BOTS, dests := DESTS, msgs := QUEUED, queue := s.queue,
                           history := s.history)
            && Tickets(s.queue, LOG) == multiset{JOB}
  {
    hide Step, Run, Tickets;
    Prepared();
    Queued(EMPTY.(orgs := ORGS, bots := BOTS, dests := DESTS));
    OneMoreStep([FOUND, REGISTER, CHAT], SEND);
    assert [FOUND, REGISTER, CHAT] + [SEND] == [FOUND, REGISTER, CHAT, SEND];
  }

  // ----- A delivery, and the delete that takes its message -----

  lemma NothingInTheWay(s: Platform)
    requires s.bots == BOTS && s.dests == DESTS && s.msgs == QUEUED && s.now == 0 && s.redis == map[]
    ensures Delivery.Obstacle(s, LOG).None? && Delivery.CheckThrottle(s, 2, 42).1
  {
  }

  lemma Delivered(s: Platform)
    requires s.bots == BOTS && s.dests == DESTS && s.msgs == QUEUED && s.now == 0 && s.redis == map[]
    requires JOB in Tickets(s.queue, LOG)
    ensures LOG in Step(s, DELIVER).msgs.logs && Step(s, DELIVER).msgs.logs[LOG].status == Sent
  {
    NothingInTheWay(s);
    Frames.TaskFrame(s, LOG, JOB, Delivery.Accept(Some(1)), Delivery.Whole);
    hide Step, Delivery.CheckThrottle, Delivery.Obstacle, Delivery.CallMarks, Take, Note;
    var r := Delivery.ThrottledSend(s, LOG, ROW, 42, Delivery.Accept(Some(1)), Delivery.Whole);
    assert r.1.WasSent? && LOG in r.0.msgs.logs && r.0.msgs.logs[LOG].status == Sent;
    assert Delivery.ProcessDelivery(s, LOG, Delivery.Accept(Some(1)), Delivery.Whole) == r;
    hide Delivery.ProcessDelivery, Delivery.ThrottledSend;
  }

  const DELIVERED := [FOUND, REGISTER, CHAT, SEND, DELIVER]

  /** Found an organization, register a bot and a chat, send a message, deliver it: the log ends SENT. */
  lemma ARunDelivers()
    ensures var s := Run(DELIVERED);
            && LOG in s.msgs.logs && s.msgs.logs[LOG].status == Sent
            && s.orgs == ORGS && s.msgs.messages == map[4 := ROW]
  {
    hide Step, Run, Tickets;
    SentOff();
    var s := Run([FOUND, REGISTER, CHAT, SEND]);
    Delivered(s);
    Frames.TaskFrame(s, LOG, JOB, Delivery.Accept(Some(1)), Delivery.Whole);
    OneMoreStep([FOUND, REGISTER, CHAT, SEND], DELIVER);
    assert [FOUND, REGISTER, CHAT, SEND] + [DELIVER] == DELIVERED;
  }

  const DELETE := DeleteOrganization(1, 7)

  lemma Deleted(s: Platform)
    requires s.orgs == ORGS && s.msgs.messages == map[4 := ROW]
    ensures Handle(s, DELETE).Ok?
    ensures var m := Step(s, DELETE).msgs; m.logs == s.msgs.logs && 4 in m.messages && !IsLive(m.messages[4].deletedAt)
  {
    hide Bots.Retired, Organizations.Dissolved;
  }

  /** ... and when the organization is deleted, the message goes although its log is SENT. */
  lemma TheCascadeTakesASentMessage()
    ensures var s := Run(DELIVERED + [DELETE]);
            && LOG in s.msgs.logs && s.msgs.logs[LOG].status == Sent
            && 4 in s.msgs.messages && !IsLive(s.msgs.messages[4].deletedAt)
  {
    hide Step, Run;
    ARunDelivers();
    Deleted(Run(DELIVERED));
    OneMoreStep(DELIVERED, DELETE);
  }

  // ----- A block that ends without the dashboard -----

  const OPEN := OnBots(7, 1, UpdatePolicy(2, true))
  const BLOCK := OnDestinations(7, 1, UpdateSubscription(3, 2, BlockedByAdmin))
  const STOP := Webhook(2, true, Some(Webhooks.Incoming(Webhooks.Private, 42, None, Some("/stop"))), 8)
  const START := Webhook(2, true, Some(Webhooks.Incoming(Webhooks.Private, 42, None, Some("/start"))), 9)
  const CELL := Destinations.Cell(2, Destinations.ChatKey(1, 42, None))

  function WithStatus(status: SubscriptionStatus): DestinationTables {
    DESTS.(subscriptions := map[SubscriptionKey(2, 3) := Subscription(1, status, None)])
  }

  ghost predicate Opened(s: Platform) {
    && s.orgs == ORGS && 2 in s.bots.bots && s.bots.bots[2].tenant == 1 && s.bots.bots[2].deletedAt.None?
    && s.bots.bots[2].webhookEnabled
  }

  lemma PolicyOpened(s: Platform)
    requires s.orgs == ORGS && s.bots == BOTS
    ensures Opened(Step(s, OPEN)) && Step(s, OPEN).dests == s.dests
  {
  }

  lemma Blocked(s: Platform)
    requires Opened(s) && s.dests == DESTS
    ensures Opened(Step(s, BLOCK)) && Step(s, BLOCK).dests == WithStatus(BlockedByAdmin)
  {
  }

  lemma Commands()
    ensures Webhooks.ExtractCommand("/stop") == Some(Webhooks.StopCommand)
    ensures Webhooks.ExtractCommand("/start") == Some(Webhooks.StartCommand)
  {
    Webhooks.CommandIgnoresSuffix("stop", "", "");
    Webhooks.CommandIgnoresSuffix("start", "", "");
    assert Webhooks.Lower("stop") == "stop" && Webhooks.Lower("start") == "start";
    assert "/" + "stop" + "" + "" == "/stop" && "/" + "start" + "" + "" == "/start";
  }

  lemma OnlyChat(status: SubscriptionStatus)
    ensures Destinations.LiveAtChat(WithStatus(status), CELL.key) == {3}
    ensures Destinations.GetSubscriptionStatus(WithStatus(status), CELL.bot, CELL.key) == Ok(Some(status))
  {
    assert Destinations.LiveAtChat(WithStatus(status), CELL.key) == {3};
  }

  lemma Stopped(s: Platform)
    requires Opened(s) && s.dests == WithStatus(BlockedByAdmin)
    ensures Opened(Step(s, STOP)) && Step(s, STOP).dests == WithStatus(Unsubscribed)
  {
    Commands();
    OnlyChat(BlockedByAdmin);
    hide Webhooks.ExtractCommand, Destinations.LiveAtChat;
  }

  lemma Started(s: Platform)
    requires Opened(s) && s.dests == WithStatus(Unsubscribed)
    ensures Step(s, START).dests == WithStatus(Active)
  {
    Commands();
    OnlyChat(Unsubscribed);
    hide Webhooks.ExtractCommand, Destinations.LiveAtChat;
  }

  const BLOCKED := [FOUND, REGISTER, CHAT, OPEN, BLOCK]

  /** An administrator blocks a chat; the chat sends `/stop` and `/start`, and is subscribed again. */
  lemma AChatLiftsItsOwnBlock()
    ensures Health.IsBlocked(Run(BLOCKED), CELL)
    ensures Destinations.GetSubscriptionStatus(Run(BLOCKED + [STOP] + [START]).dests, CELL.bot, CELL.key)
            == Ok(Some(Active))
  {
    hide Step, Run, Opened, WithStatus;
    Prepared();
    var s := Run([FOUND, REGISTER, CHAT]);
    PolicyOpened(s);
    OneMoreStep([FOUND, REGISTER, CHAT], OPEN);
    assert [FOUND, REGISTER, CHAT] + [OPEN] == [FOUND, REGISTER, CHAT, OPEN];
    Blocked(Run([FOUND, REGISTER, CHAT, OPEN]));
    OneMoreStep([FOUND, REGISTER, CHAT, OPEN], BLOCK);
    assert [FOUND, REGISTER, CHAT, OPEN] + [BLOCK] == BLOCKED;
    Stopped(Run(BLOCKED));
    OneMoreStep(BLOCKED, STOP);
    Started(Run(BLOCKED + [STOP]));
    OneMoreStep(BLOCKED + [STOP], START);
    OnlyChat(BlockedByAdmin);
    OnlyChat(Active);
    hide Destinations.GetSubscriptionStatus;
  }
}
