/** What every run keeps in the organization, bot, destination and token tables. */
module Health {
  import opened Wrappers
  import opened Rows
  import opened Tables
  import opened State
  import opened Platforms
  import Organizations
  import Bots
  import Destinations
  import Webhooks
  import Auth
  import Messaging
  import Delivery
  import Frames

  // ----- Organizations -----

  lemma OrgStepKeepsStaffed(s: Platform, op: Op)
    requires Organizations.Staffed(s.orgs)
    ensures Organizations.Staffed(Step(s, op).orgs)
  {
    hide Organizations.Staffed;
    match op
    case OnOrgs(Found(user, id)) =>
      if OrgStep(s.orgs, op.org).Ok? { Organizations.CreateKeepsStaffed(s.orgs, id, user); }
    case OnOrgs(AddMember(tenant, actor, invited, role)) =>
      if OrgStep(s.orgs, op.org).Ok? { Organizations.AddKeepsStaffed(s.orgs, tenant, actor, invited, role); }
    case OnOrgs(UpdateRole(tenant, actor, target, role)) =>
      if OrgStep(s.orgs, op.org).Ok? { Organizations.UpdateKeepsStaffed(s.orgs, tenant, actor, target, role); }
    case DeleteOrganization(tenant, actor) =>
      if DeleteTenant(s, tenant, actor).Ok? { Organizations.DissolveKeepsStaffed(s.orgs, tenant, s.now); }
    case _ => Frames.Elsewhere(s, op); hide Step;
  }

  // ----- Bots -----

  lemma BotStepKeepsSound(o: OrgTables, b: BotTables, tenant: TenantId, op: BotOp, now: nat)
    requires Bots.Sound(b)
    ensures var r := BotStep(o, b, tenant, op, now); r.Ok? ==> Bots.Sound(r.value)
  {
    hide Bots.Sound;
    match op
    case RegisterBot(id, telegramBotId, key) => Bots.RegisterKeepsSound(b, tenant, id, telegramBotId, key);
    case UpdatePolicy(bot, enabled) => Bots.BotUpdatesKeepSound(b, tenant, bot, enabled, now);
    case DeleteBot(bot) => Bots.BotUpdatesKeepSound(b, tenant, bot, false, now);
    case AssignBot(bot, user, id) => Bots.AssignKeepsSound(b, Seat(tenant, user) in o.members, tenant, bot, user, id);
    case UnassignBot(bot, user) => Bots.UnassignKeepsSound(b, tenant, bot, user, now);
  }

  lemma StepKeepsSoundBots(s: Platform, op: Op)
    requires Bots.Sound(s.bots)
    ensures Bots.Sound(Step(s, op).bots)
  {
    hide Bots.Sound;
    match op
    case OnBots(_, tenant, bot) => BotStepKeepsSound(s.orgs, s.bots, tenant, bot, s.now);
    case DeleteOrganization(tenant, _) => Bots.BotUpdatesKeepSound(s.bots, tenant, 0, false, s.now);
    case _ => Frames.Elsewhere(s, op); hide Step;
  }

  // ----- Destinations -----

  /** The request passes the guard of the dashboard's destination endpoints. */
  ghost predicate MayManage(s: Platform, user: UserId, tenant: TenantId) {
    Organizations.CheckPermission(s.orgs, user, tenant, Organizations.DestinationManage).None?
  }

  /** What a step means for the status machine. It depends on the permission, on the bot, on which live chat an id
      names and on the board, not on what the handler answers; an id collision is the only other refusal. */
  ghost function Meaning(s: Platform, board: Destinations.Board, op: Op): Destinations.BoardOp {
    match op
    case Webhook(bot, secretMatches, update, id) =>
      var command := Webhooks.Meaning(s.bots, bot, secretMatches, update);
      if Webhooks.NeedsTakenId(s.dests, board, command, id) then Destinations.Stay else command
    case OnDestinations(user, tenant, CreateDestination(bot, chat, thread, id)) =>
      if MayManage(s, user, tenant) && Bots.HasBot(s.bots, tenant, bot) && id !in s.dests.destinations
      then Destinations.Register(Destinations.Cell(bot, Destinations.ChatKey(tenant, chat, thread)))
      else Destinations.Stay
    case OnDestinations(user, tenant, DeleteDestination(id)) =>
      if MayManage(s, user, tenant) && Destinations.HasDestination(s.dests, tenant, id)
      then Destinations.Forget(Destinations.KeyOf(s.dests.destinations[id]))
      else Destinations.Stay
    case OnDestinations(user, tenant, UpdateSubscription(id, bot, status)) =>
      if MayManage(s, user, tenant) && Destinations.HasDestination(s.dests, tenant, id) && Bots.HasBot(s.bots, tenant, bot)
      then Destinations.Put(Destinations.Cell(bot, Destinations.KeyOf(s.dests.destinations[id])), status)
      else Destinations.Stay
    case _ => Destinations.Stay
  }

  /** The board after a run. */
  ghost function BoardAfter(ops: seq<Op>): Destinations.Board {
    if ops == [] then map[]
    else
      var before := ops[..|ops| - 1];
      Destinations.BoardStep(BoardAfter(before), Meaning(Run(before), BoardAfter(before), ops[|ops| - 1]))
  }

  /** A registration of a known chat, and a change of an unknown cell, leave the board alone. */
  lemma BoardStays(board: Destinations.Board, c: Destinations.Cell, status: SubscriptionStatus)
    ensures Destinations.Known(board, c.key) ==> Destinations.BoardStep(board, Destinations.Register(c)) == board
    ensures c !in board ==> Destinations.BoardStep(board, Destinations.Put(c, status)) == board
    ensures Destinations.BoardStep(board, Destinations.Stay) == board
  {
  }

  lemma CreateStepRefines(s: Platform, board: Destinations.Board, user: UserId, tenant: TenantId, bot: BotId, chat: int,
                          thread: Option<int>, id: DestinationId)
    requires Destinations.Sound(s.dests) && Destinations.Refines(s.dests, board)
    ensures var op := OnDestinations(user, tenant, CreateDestination(bot, chat, thread, id));
            && Destinations.Sound(Step(s, op).dests)
            && Destinations.Refines(Step(s, op).dests, Destinations.BoardStep(board, Meaning(s, board, op)))
  {
    hide Destinations.Sound, Destinations.Refines, Destinations.BoardStep, Destinations.CreateDestination,
         Destinations.Known, Organizations.CheckPermission;
    var key := Destinations.ChatKey(tenant, chat, thread);
    Destinations.CreateRefines(s.dests, board, Bots.HasBot(s.bots, tenant, bot), bot, key, id);
    BoardStays(board, Destinations.Cell(bot, key), Active);
  }

  lemma DeleteStepRefines(s: Platform, board: Destinations.Board, user: UserId, tenant: TenantId, id: DestinationId)
    requires Destinations.Sound(s.dests) && Destinations.Refines(s.dests, board)
    ensures var op := OnDestinations(user, tenant, DeleteDestination(id));
            && Destinations.Sound(Step(s, op).dests)
            && Destinations.Refines(Step(s, op).dests, Destinations.BoardStep(board, Meaning(s, board, op)))
  {
    hide Destinations.Sound, Destinations.Refines, Destinations.BoardStep, Destinations.DeleteDestination,
         Organizations.CheckPermission;
    Destinations.DeleteRefines(s.dests, board, tenant, id, s.now);
    BoardStays(board, Destinations.Cell(0, Destinations.ChatKey(tenant, 0, None)), Active);
  }

  lemma UpdateStepRefines(s: Platform, board: Destinations.Board, user: UserId, tenant: TenantId, id: DestinationId,
                          bot: BotId, status: SubscriptionStatus)
    requires Destinations.Sound(s.dests) && Destinations.Refines(s.dests, board)
    ensures var op := OnDestinations(user, tenant, UpdateSubscription(id, bot, status));
            && Destinations.Sound(Step(s, op).dests)
            && Destinations.Refines(Step(s, op).dests, Destinations.BoardStep(board, Meaning(s, board, op)))
  {
    hide Destinations.Sound, Destinations.Refines, Destinations.BoardStep, Destinations.UpdateSubscriptionStatus,
         Organizations.CheckPermission;
    Destinations.UpdateRefines(s.dests, board, Bots.HasBot(s.bots, tenant, bot), tenant, id, bot, status);
    var key := if Destinations.HasDestination(s.dests, tenant, id) then Destinations.KeyOf(s.dests.destinations[id])
               else Destinations.ChatKey(tenant, 0, None);
    BoardStays(board, Destinations.Cell(bot, key), status);
  }

  lemma WebhookStepRefines(s: Platform, board: Destinations.Board, bot: BotId, secretMatches: bool,
                           update: Option<Webhooks.Incoming>, id: DestinationId)
    requires Destinations.Sound(s.dests) && Destinations.Refines(s.dests, board)
    ensures var op := Webhook(bot, secretMatches, update, id);
            && Destinations.Sound(Step(s, op).dests)
            && Destinations.Refines(Step(s, op).dests, Destinations.BoardStep(board, Meaning(s, board, op)))
  {
    WebhookStays(s.bots, bot, secretMatches, update);
    hide Destinations.Sound, Destinations.Refines, Destinations.BoardStep, Webhooks.HandleUpdate, Webhooks.Meaning,
         Webhooks.NeedsTakenId;
    Webhooks.UpdateRefines(s.bots, s.dests, board, bot, secretMatches, update, id);
    BoardStays(board, Destinations.Cell(bot, Destinations.ChatKey(0, 0, None)), Active);
  }

  lemma WebhookStays(b: BotTables, bot: BotId, secretMatches: bool, update: Option<Webhooks.Incoming>)
    ensures !Bots.IsLiveBot(b, bot) || !secretMatches ==>
              Webhooks.Meaning(b, bot, secretMatches, update) == Destinations.Stay
  {
  }

  lemma StepRefines(s: Platform, board: Destinations.Board, op: Op)
    requires Destinations.Sound(s.dests) && Destinations.Refines(s.dests, board)
    ensures Destinations.Sound(Step(s, op).dests)
    ensures Destinations.Refines(Step(s, op).dests, Destinations.BoardStep(board, Meaning(s, board, op)))
  {
    match op
    case Webhook(bot, secretMatches, update, id) =>
      WebhookStepRefines(s, board, bot, secretMatches, update, id);
      hide *;
    case OnDestinations(user, tenant, CreateDestination(bot, chat, thread, id)) =>
      CreateStepRefines(s, board, user, tenant, bot, chat, thread, id);
      hide *;
    case OnDestinations(user, tenant, DeleteDestination(id)) =>
      DeleteStepRefines(s, board, user, tenant, id);
      hide *;
    case OnDestinations(user, tenant, UpdateSubscription(id, bot, status)) =>
      UpdateStepRefines(s, board, user, tenant, id, bot, status);
      hide *;
    case _ =>
      Frames.Elsewhere(s, op);
      BoardStays(board, Destinations.Cell(0, Destinations.ChatKey(0, 0, None)), Active);
      hide Step, Destinations.Sound, Destinations.Refines, Destinations.BoardStep;
  }

  // ----- Tokens -----

  lemma StepKeepsTokens(s: Platform, op: Op)
    requires Auth.Sound(s.auth)
    ensures Auth.Sound(Step(s, op).auth) && Auth.Grows(s.auth, Step(s, op).auth)
  {
    hide Auth.Sound;
    match op
    case OnAuth(Login(user, token, expiresAt)) => Auth.IssueKeepsSound(s.auth, token, user, None, expiresAt);
    case OnAuth(Switch(user, tenant, token, expiresAt)) =>
      Auth.IssueKeepsSound(s.auth, token, user, Some(tenant), expiresAt);
    case OnAuth(Refresh(token, next, userIsActive, expiresAt)) =>
      Auth.RefreshKeepsSound(s.auth, token, next, userIsActive, expiresAt, s.now);
    case DeleteOrganization(tenant, _) => Auth.RevokeAllKeepsSound(s.auth, tenant, s.now);
    case _ => Frames.Elsewhere(s, op); hide Step;
  }

  // ----- Whole runs -----

  ghost predicate Healthy(s: Platform) {
    Organizations.Staffed(s.orgs) && Bots.Sound(s.bots) && Destinations.Sound(s.dests) && Auth.Sound(s.auth)
  }

  /** In every run: active organizations have owners and only they have members, live bots and destinations are
      unique, a subscription lives as long as its destination, token families have one unrevoked token; and every
      status query gets the answer of the simple machine that saw the same commands. */
  lemma {:induction false} RunIsHealthy(ops: seq<Op>)
    ensures Healthy(Run(ops)) && Destinations.Refines(Run(ops).dests, BoardAfter(ops))
  {
    if ops == [] {
      EmptyIsHealthy();
    } else {
      hide Organizations.Staffed, Bots.Sound, Destinations.Sound, Auth.Sound, Auth.Grows, Destinations.Refines, Step,
           Destinations.BoardStep, Meaning;
      var before := ops[..|ops| - 1];
      RunIsHealthy(before);
      OrgStepKeepsStaffed(Run(before), ops[|ops| - 1]);
      StepKeepsSoundBots(Run(before), ops[|ops| - 1]);
      StepRefines(Run(before), BoardAfter(before), ops[|ops| - 1]);
      StepKeepsTokens(Run(before), ops[|ops| - 1]);
    }
  }

  lemma EmptyIsHealthy()
    ensures Healthy(EMPTY) && Destinations.Refines(EMPTY.dests, map[])
  {
  }

  lemma {:induction false} TokensGrow(s: Platform, ops: seq<Op>)
    requires Auth.Sound(s.auth)
    ensures Auth.Sound(RunFrom(s, ops).auth) && Auth.Grows(s.auth, RunFrom(s, ops).auth)
  {
    if ops != [] {
      hide Auth.Sound, Step;
      TokensGrow(s, ops[..|ops| - 1]);
      StepKeepsTokens(RunFrom(s, ops[..|ops| - 1]), ops[|ops| - 1]);
    }
  }

  // ----- Blocks, over runs -----

  ghost predicate IsBlocked(s: Platform, c: Destinations.Cell) {
    Destinations.GetSubscriptionStatus(s.dests, c.bot, c.key) == Ok(Some(BlockedByAdmin))
  }

  /** A step that ends the block of a bot and chat: `/stop` from that chat to that live bot, or a permitted
      dashboard request that deletes the chat's destination or gives the subscription another status. */
  ghost predicate Unblocks(s: Platform, op: Op, c: Destinations.Cell) {
    match op
    case Webhook(bot, secretMatches, update, _) =>
      Webhooks.Meaning(s.bots, bot, secretMatches, update) == Destinations.Stop(c)
    case OnDestinations(user, tenant, DeleteDestination(id)) =>
      && MayManage(s, user, tenant) && Destinations.HasDestination(s.dests, tenant, id)
      && Destinations.KeyOf(s.dests.destinations[id]) == c.key
    case OnDestinations(user, tenant, UpdateSubscription(id, bot, status)) =>
      && MayManage(s, user, tenant) && Destinations.HasDestination(s.dests, tenant, id) && Bots.HasBot(s.bots, tenant, bot)
      && Destinations.Cell(bot, Destinations.KeyOf(s.dests.destinations[id])) == c && status != BlockedByAdmin
    case _ => false
  }

  lemma UnblocksIsMeant(s: Platform, board: Destinations.Board, op: Op, c: Destinations.Cell)
    ensures Unblocks(s, op, c) <==> Destinations.EndsBlock(Meaning(s, board, op), c)
  {
    if op.Webhook? {
      NeverPutOrForget(s.bots, op.botId, op.secretMatches, op.update);
    }
    hide Webhooks.Meaning, MayManage, Bots.HasBot, Destinations.Known;
  }

  lemma NeverPutOrForget(b: BotTables, bot: BotId, secretMatches: bool, update: Option<Webhooks.Incoming>)
    ensures var op := Webhooks.Meaning(b, bot, secretMatches, update); op.Start? || op.Stop? || op.Stay?
  {
  }

  lemma StatusOnBoard(s: Platform, board: Destinations.Board, c: Destinations.Cell)
    requires Destinations.Refines(s.dests, board)
    ensures IsBlocked(s, c) <==> Destinations.Lookup(board, c) == Some(BlockedByAdmin)
  {
    assert Destinations.GetSubscriptionStatus(s.dests, c.bot, c.key) == Ok(Destinations.Lookup(board, c));
  }

  /** In every run a block ends with exactly those steps. In particular no `/start` ends it, and `/stop`, which the
      chat can send itself, does. */
  lemma BlockEndsExactlyBy(ops: seq<Op>, op: Op, c: Destinations.Cell)
    requires IsBlocked(Run(ops), c)
    ensures !IsBlocked(Step(Run(ops), op), c) <==> Unblocks(Run(ops), op, c)
  {
    hide *;
    RunIsHealthy(ops);
    BlockEndsIn(Run(ops), BoardAfter(ops), op, c);
  }

  lemma BlockEndsIn(s: Platform, board: Destinations.Board, op: Op, c: Destinations.Cell)
    requires Healthy(s) && Destinations.Refines(s.dests, board) && IsBlocked(s, c)
    ensures !IsBlocked(Step(s, op), c) <==> Unblocks(s, op, c)
  {
    assert Destinations.Sound(s.dests);
    hide *;
    StatusOnBoard(s, board, c);
    StepRefines(s, board, op);
    StatusOnBoard(Step(s, op), Destinations.BoardStep(board, Meaning(s, board, op)), c);
    Destinations.BlockEnds(board, Meaning(s, board, op), c);
    UnblocksIsMeant(s, board, op, c);
  }

  /** No step of the continuation is one of those. */
  ghost predicate NeverUnblocked(s: Platform, more: seq<Op>, c: Destinations.Cell) {
    forall i | 0 <= i < |more| :: !Unblocks(RunFrom(s, more[..i]), more[i], c)
  }

  lemma NeverUnblockedBefore(s: Platform, more: seq<Op>, c: Destinations.Cell)
    requires more != [] && NeverUnblocked(s, more, c)
    ensures var n := |more| - 1;
            NeverUnblocked(s, more[..n], c) && !Unblocks(RunFrom(s, more[..n]), more[n], c)
  {
    hide RunFrom, Unblocks;
    var n := |more| - 1;
    forall i | 0 <= i < n
      ensures !Unblocks(RunFrom(s, more[..n][..i]), more[..n][i], c)
    {
      assert more[..n][..i] == more[..i] && more[..n][i] == more[i];
    }
  }

  lemma LastStep(ops: seq<Op>, more: seq<Op>)
    requires more != []
    ensures var n := |more| - 1;
            && Run(ops + more) == Step(Run(ops + more[..n]), more[n])
            && Run(ops + more[..n]) == RunFrom(Run(ops), more[..n])
  {
    hide Step;
    var n, all := |more| - 1, ops + more;
    assert all[..|all| - 1] == ops + more[..n] && all[|all| - 1] == more[n];
    RunSplits(EMPTY, ops, more[..n]);
  }

  /** So a block lasts through every continuation without such a step. */
  lemma {:induction false} BlockLasts(ops: seq<Op>, more: seq<Op>, c: Destinations.Cell)
    requires IsBlocked(Run(ops), c) && NeverUnblocked(Run(ops), more, c)
    ensures IsBlocked(Run(ops + more), c)
    decreases |more|
  {
    hide *;
    if more == [] {
      assert ops + more == ops;
    } else {
      var n := |more| - 1;
      NeverUnblockedBefore(Run(ops), more, c);
      LastStep(ops, more);
      BlockLasts(ops, more[..n], c);
      BlockEndsExactlyBy(ops + more[..n], more[n], c);
    }
  }
}
