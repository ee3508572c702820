/** What the network's answers do: which callbacks the engine takes as the outcome of its
    subscribe call, and where a success, a failure and a cancellation lead. */
module SubscribeOutcomes {
  import opened Common
  import opened SubscribeTypes
  import opened SubscribeTransitions
  import opened SubscribeMachine
  import opened SubscribeInvariants
  import opened SubscribeMoves
  import opened SubscribeCalls
  import opened SubscribeAnswers
  import Runs = SubscribeRuns

  // ---------- which callbacks count ----------

  predicate Frees(transaction: CallbackTransaction) {
    transaction == HeartbeatDone || transaction == LeaveDone
  }

  predicate Direct(transaction: CallbackTransaction, result: CallbackResult) {
    !Frees(transaction) && result != ResultCancelled
  }

  predicate LeavesWait(m: Machine) {
    |m.leaveChannels| > 0 || |m.leaveGroups| > 0
  }

  /** The machine when the callback's own cancel has ended and its wire is free. */
  function Freed(m: Machine, transaction: CallbackTransaction): Machine {
    FinishCancel(m).(transaction := if Frees(transaction) then NoTransaction else m.transaction)
  }

  /** The engine takes the result for that of its call: always after a call of its own that
      was not cancelled, and otherwise when nothing else is left to do. */
  predicate Listens(m: Machine, transaction: CallbackTransaction, result: CallbackResult) {
    Direct(transaction, result) || (!LeavesWait(m) && Freed(m, transaction).queue == [])
  }

  function Heard(m: Machine, transaction: CallbackTransaction, result: CallbackResult): Machine {
    if Direct(transaction, result) then m else Freed(m, transaction)
  }

  lemma FinishCancelQuiet(m: Machine)
    ensures var r := FinishCancel(m);
      Unmoved(m, r) && m.log <= r.log && r.nextId == m.nextId && r.transaction == m.transaction &&
      r.leaveChannels == m.leaveChannels && r.leaveGroups == m.leaveGroups
  {
  }

  lemma HeardKeeps(m: Machine, transaction: CallbackTransaction, result: CallbackResult)
    requires Inv(m)
    ensures var heard := Heard(m, transaction, result);
      Inv(heard) && Inv(Freed(m, transaction)) && Unmoved(m, heard) && m.log <= heard.log && heard.nextId == m.nextId
  {
    hide Inv, FinishCancel;
    FinishCancelQuiet(m);
    Runs.FinishCancelKeeps(m);
    var free := Freed(m, transaction);
    Runs.WireKeeps(FinishCancel(m), free.transaction, free.leaveChannels, free.leaveGroups);
  }

  lemma CallbackIs(m: Machine, transaction: CallbackTransaction, result: CallbackResult, cursor: Cursor, world: World)
    ensures OnCallback(m, transaction, result, cursor, world) ==
      if Listens(m, transaction, result) then Outcome(Heard(m, transaction, result), result, cursor, world)
      else if !LeavesWait(m) then Drive(Freed(m, transaction), Next, world)
      else if Freed(m, transaction).transaction != NoTransaction then Freed(m, transaction)
      else Freed(m, transaction).(leaveChannels := [], leaveGroups := [], transaction := LeaveTransaction)
  {
    hide FinishCancel, Outcome, Drive;
    FinishCancelQuiet(m);
  }

  // ---------- the outcome ----------

  /** Pending since an earlier machine that only grew its log. */
  lemma EarlierPending(m: Machine, heard: Machine, r: Machine, task: Task)
    requires heard.nextId == m.nextId && m.log <= heard.log <= r.log && OnItsWay(heard, r, task)
    ensures OnItsWay(m, r, task)
  {
    hide Queued, DoneSince;
    var id: nat :| Pending(heard, r, id, task.kind, task.context);
    Carries(m.log, heard.log, r.log, id, task.kind, task.context);
    assert Pending(m, r, id, task.kind, task.context);
  }

  lemma EarlierEnds(m: Machine, heard: Machine, r: Machine, world: World, state: StateType, context: Option<Context>, status: SubscriptionStatus)
    requires m.log <= heard.log && Ends(heard, r, world, state, context, status)
    ensures Ends(m, r, world, state, context, status)
  {
    if !(r.state == state && r.context == context && r.status == status) {
      var reason :| FailedFrom(r, state, context, reason) && RefusedWithin(world, |heard.log|, |r.log|, reason);
      assert RefusedWithin(world, |m.log|, |r.log|, reason);
    }
  }

  lemma OutcomeIs(m: Machine, result: CallbackResult, cursor: Cursor, world: World, event: Event)
    requires m.state == Handshaking ==>
      event == match result {
        case ResultOk => HandshakeSuccess(cursor)
        case ResultCancelled => HandshakeFailure(15)
        case ResultFailed(reason) => HandshakeFailure(reason)
      }
    requires m.state == Receiving ==>
      event == match result {
        case ResultOk => ReceiveSuccess(cursor)
        case ResultCancelled => ReceiveFailure(15)
        case ResultFailed(reason) => ReceiveFailure(reason)
      }
    ensures Outcome(m, result, cursor, world) ==
      if m.state == Handshaking || m.state == Receiving then HandleEvent(m, event, world) else m
  {
    hide HandleEvent;
  }

  /** A successful handshake connects: the engine receives from the callback's cursor,
      the status and the long poll are on their way. */
  lemma SuccessConnects(m: Machine, transaction: CallbackTransaction, cursor: Cursor, world: World)
    requires Inv(m) && Listens(m, transaction, ResultOk) && m.state == Handshaking
    ensures var r := OnCallback(m, transaction, ResultOk, cursor, world);
      var context := Renewed(m).(cursor := cursor);
      Ends(m, r, world, Receiving, Some(context), Connected) &&
      OnItsWay(m, r, Task(EmitStatus, context)) && OnItsWay(m, r, Task(Receive, context))
  {
    hide Inv, HandleEvent, Leads, OnItsWay, Others, OnCallback, Outcome, Heard, Freed, Ends;
    CallbackIs(m, transaction, ResultOk, cursor, world);
    HeardKeeps(m, transaction, ResultOk);
    var heard := Heard(m, transaction, ResultOk);
    InvSound(heard);
    var context := Renewed(m).(cursor := cursor);
    OutcomeIs(heard, ResultOk, cursor, world, HandshakeSuccess(cursor));
    HandshakeEnds(heard, cursor, 0);
    var tasks := [Task(EmitStatus, context), Task(Cancel, m.context.value), Task(Receive, context)];
    EventEnds(heard, HandshakeSuccess(cursor), world, Receiving, Some(context), Connected, Others(heard.queue, Receive), tasks);
    var r := HandleEvent(heard, HandshakeSuccess(cursor), world);
    EarlierPending(m, heard, r, tasks[0]);
    EarlierPending(m, heard, r, tasks[2]);
    EarlierEnds(m, heard, r, world, Receiving, Some(context), Connected);
  }

  /** A successful long poll delivers: the messages and the next long poll, from the
      callback's cursor, are on their way. */
  lemma SuccessDelivers(m: Machine, transaction: CallbackTransaction, cursor: Cursor, world: World)
    requires Inv(m) && Listens(m, transaction, ResultOk) && m.state == Receiving
    ensures var r := OnCallback(m, transaction, ResultOk, cursor, world);
      var context := Renewed(m).(cursor := cursor);
      Ends(m, r, world, Receiving, Some(context), m.status) &&
      OnItsWay(m, r, Task(EmitMessage, context)) && OnItsWay(m, r, Task(Receive, context))
  {
    hide Inv, HandleEvent, Leads, OnItsWay, Others, OnCallback, Outcome, Heard, Freed, Ends;
    CallbackIs(m, transaction, ResultOk, cursor, world);
    HeardKeeps(m, transaction, ResultOk);
    var heard := Heard(m, transaction, ResultOk);
    InvSound(heard);
    var context := Renewed(m).(cursor := cursor);
    OutcomeIs(heard, ResultOk, cursor, world, ReceiveSuccess(cursor));
    ReceiveEnds(heard, cursor, 0);
    var tasks := [Task(EmitMessage, context), Task(Cancel, m.context.value), Task(Receive, context)];
    EventEnds(heard, ReceiveSuccess(cursor), world, Receiving, Some(context), m.status, Others(heard.queue, Receive), tasks);
    var r := HandleEvent(heard, ReceiveSuccess(cursor), world);
    EarlierPending(m, heard, r, tasks[0]);
    EarlierPending(m, heard, r, tasks[2]);
    EarlierEnds(m, heard, r, world, Receiving, Some(context), m.status);
  }

  /** A failed call fails its state: lists and cursor stay, the reason is the result, 15
      for a cancelled call, and the status is on its way. */
  lemma FailureFails(m: Machine, transaction: CallbackTransaction, result: CallbackResult, cursor: Cursor, world: World)
    requires Inv(m) && Listens(m, transaction, result) && result != ResultOk
    requires m.state == Handshaking || m.state == Receiving
    ensures var r := OnCallback(m, transaction, result, cursor, world);
      var context := Renewed(m).(reason := if result == ResultCancelled then 15 else result.reason);
      r.context == Some(context) && OnItsWay(m, r, Task(EmitStatus, context)) &&
      if m.state == Handshaking then r.state == HandshakeFailed && r.status == ConnectionError
      else r.state == ReceiveFailed && r.status == DisconnectedUnexpectedly
  {
    hide Inv, HandleEvent, Leads, OnItsWay, OnCallback, Outcome, Heard, Freed;
    CallbackIs(m, transaction, result, cursor, world);
    HeardKeeps(m, transaction, result);
    var heard := Heard(m, transaction, result);
    InvSound(heard);
    var reason := if result == ResultCancelled then 15 else result.reason;
    var context := Renewed(m).(reason := reason);
    HandshakeEnds(heard, cursor, reason);
    ReceiveEnds(heard, cursor, reason);
    var tasks := [Task(EmitStatus, context), Task(Cancel, m.context.value)];
    if m.state == Handshaking {
      OutcomeIs(heard, result, cursor, world, HandshakeFailure(reason));
      EventEnds(heard, HandshakeFailure(reason), world, HandshakeFailed, Some(context), ConnectionError, heard.queue, tasks);
      EarlierPending(m, heard, HandleEvent(heard, HandshakeFailure(reason), world), tasks[0]);
    } else {
      OutcomeIs(heard, result, cursor, world, ReceiveFailure(reason));
      EventEnds(heard, ReceiveFailure(reason), world, ReceiveFailed, Some(context), DisconnectedUnexpectedly, heard.queue, tasks);
      EarlierPending(m, heard, HandleEvent(heard, ReceiveFailure(reason), world), tasks[0]);
    }
  }

  /** A result for no call of the engine's changes nothing but what the callback itself
      ends: a waiting cancel and the transaction on the wire. */
  lemma ElsewhereNothing(m: Machine, transaction: CallbackTransaction, result: CallbackResult, cursor: Cursor, world: World)
    requires Inv(m) && Listens(m, transaction, result) && m.state != Handshaking && m.state != Receiving
    ensures var r := OnCallback(m, transaction, result, cursor, world);
      r == if Direct(transaction, result) then m else Freed(m, transaction)
    ensures Unmoved(m, OnCallback(m, transaction, result, cursor, world))
  {
    hide Inv, HandleEvent, OnCallback, FinishCancel;
    CallbackIs(m, transaction, result, cursor, world);
    HeardKeeps(m, transaction, result);
  }

  // ---------- callbacks that bring the queue on ----------

  /** With leaves remembered, a free wire takes all of them at once and nothing else runs;
      otherwise the queue goes on until nothing more can run, in the state it was. */
  lemma CallbackGoesOn(m: Machine, transaction: CallbackTransaction, result: CallbackResult, cursor: Cursor, world: World)
    requires Inv(m) && !Listens(m, transaction, result)
    ensures var r, free := OnCallback(m, transaction, result, cursor, world), Freed(m, transaction);
      if LeavesWait(m) then
        r == if free.transaction == NoTransaction then free.(leaveChannels := [], leaveGroups := [], transaction := LeaveTransaction) else free
      else
        AtRest(r) && (Unmoved(m, r) || exists reason :: Broke(m, r, reason))
  {
    hide Inv, OnCallback, FinishCancel, Freed, AtRest, Broke, Drive, Outcome;
    CallbackIs(m, transaction, result, cursor, world);
    HeardKeeps(m, transaction, result);
    FreedUnmoved(m, transaction);
    var free := Freed(m, transaction);
    if !LeavesWait(m) {
      NextIsFair(free);
      DriveRests(free, Next, world);
      DriveMoves(free, Next, world);
      forall reason | Broke(free, Drive(free, Next, world), reason) ensures Broke(m, Drive(free, Next, world), reason) {
        SameStart(m, free, Drive(free, Next, world), reason);
      }
    }
  }

  lemma FreedUnmoved(m: Machine, transaction: CallbackTransaction)
    ensures Unmoved(m, Freed(m, transaction))
  {
    hide FinishCancel;
    FinishCancelQuiet(m);
  }

  lemma SameStart(m: Machine, free: Machine, r: Machine, reason: int)
    requires Unmoved(m, free) && Broke(free, r, reason)
    ensures Broke(m, r, reason)
  {
  }

  // ---------- asking for nothing ----------

  /** A change to no lists at all is meant to end in UNSUBSCRIBED. It does exactly from
      HANDSHAKING, HANDSHAKE_FAILED and RECEIVING. */
  lemma NothingUnsubscribes(m: Machine, channels: Option<string>, groups: Option<string>, sentByEngine: bool, world: World)
    requires Inv(m) && !Given(channels) && !Given(groups)
    ensures HandleEvent(m, SubscriptionChanged(channels, groups, sentByEngine), world).state == Unsubscribed <==>
      m.state == Handshaking || m.state == HandshakeFailed || m.state == Receiving
  {
    hide Inv, HandleEvent, OnItsWay, RefusedWithin;
    InvSound(m);
    ChangeEnds(m, channels, groups, None, sentByEngine, world);
  }

  ghost predicate NeverRefused(world: World) {
    forall n: nat :: !world(n).request.Refused?
  }

  lemma EndsThere(m: Machine, r: Machine, world: World, state: StateType, context: Option<Context>, status: SubscriptionStatus)
    requires NeverRefused(world) && Ends(m, r, world, state, context, status)
    ensures r.state == state && r.context == context
  {
  }

  lemma ExecuteFour(m: Machine, a: Call, b: Call, c: Call, d: Call, world: World)
    ensures Execute(m, [a, b, c, d], world) == Apply(Apply(Apply(Apply(m, a, world), b, world), c, world), d, world)
  {
    hide Apply;
    assert [a][..0] == [] && [a, b][..1] == [a] && [a, b, c][..2] == [a, b] && [a, b, c, d][..3] == [a, b, c];
    assert Execute(m, [a], world) == Apply(m, a, world);
    assert Execute(m, [a, b], world) == Apply(Execute(m, [a], world), b, world);
    assert Execute(m, [a, b, c], world) == Apply(Execute(m, [a, b], world), c, world);
  }

  const LAST_CHANNEL_GONE: seq<Call> :=
    [Subscribe(Some("a"), None, None),
     Callback(SubscribeDone, ResultOk, DEFAULT_CURSOR),
     Callback(SubscribeDone, ResultFailed(5), DEFAULT_CURSOR),
     Unsubscribe("a", "", false, None, None)]

  /** Subscribed to one channel, a long poll times out and the channel is unsubscribed
      from: the engine is left with a handshake for nothing. */
  lemma LastChannelGone(world: World)
    requires NeverRefused(world)
    ensures var m := Execute(INITIAL, LAST_CHANNEL_GONE, world);
      m.state == Handshaking && m.context.Some? && m.context.value.channels == None && m.context.value.groups == None
  {
    hide Inv, Apply, Execute, NeverRefused;
    var calls := LAST_CHANNEL_GONE;
    SubscribedToOne(world);
    var one := Apply(INITIAL, calls[0], world);
    AnsweredOnce(one, calls[1], world);
    var two := Apply(one, calls[1], world);
    FailedOnce(two, calls[2], world);
    UnsubscribedFromOne(Apply(two, calls[2], world), world);
    ExecuteFour(INITIAL, calls[0], calls[1], calls[2], calls[3], world);
  }

  lemma SubscribedToOne(world: World)
    requires NeverRefused(world)
    ensures var r := Apply(INITIAL, Subscribe(Some("a"), None, None), world);
      Inv(r) && r.state == Handshaking
  {
    hide Inv, Apply, HandleEvent, OnItsWay, Ends, NeverRefused;
    InitialInv();
    Runs.ApplyKeeps(INITIAL, Subscribe(Some("a"), None, None), world);
    SubscribeChanges(INITIAL, Some("a"), None, None, world);
    ChangeEnds(INITIAL, Some("a"), None, None, false, world);
    EndsThere(INITIAL, HandleEvent(INITIAL, Change(Some("a"), None, None, false), world), world,
              Handshaking, Some(Asked(INITIAL, Some("a"), None, None, false)), Disconnected);
  }

  lemma AnsweredOnce(m: Machine, call: Call, world: World)
    requires NeverRefused(world) && Inv(m) && m.state == Handshaking
    requires call.Callback? && call.transaction == SubscribeDone && call.result == ResultOk
    ensures Inv(Apply(m, call, world)) && Apply(m, call, world).state == Receiving
  {
    hide Inv, HandleEvent, OnCallback, OnItsWay, Ends, NeverRefused;
    InvSound(m);
    Runs.ApplyKeeps(m, call, world);
    SuccessConnects(m, SubscribeDone, call.cursor, world);
    EndsThere(m, Apply(m, call, world), world, Receiving, Some(Renewed(m).(cursor := call.cursor)), Connected);
  }

  lemma FailedOnce(m: Machine, call: Call, world: World)
    requires Inv(m) && m.state == Receiving
    requires call.Callback? && call.transaction == SubscribeDone && call.result.ResultFailed?
    ensures Inv(Apply(m, call, world)) && Apply(m, call, world).state == ReceiveFailed
  {
    hide Inv, HandleEvent, OnCallback, OnItsWay;
    InvSound(m);
    Runs.ApplyKeeps(m, call, world);
    FailureFails(m, SubscribeDone, call.result, call.cursor, world);
  }

  lemma UnsubscribedFromOne(m: Machine, world: World)
    requires NeverRefused(world) && Inv(m) && m.state == ReceiveFailed
    ensures var r := Apply(m, Unsubscribe("a", "", false, None, None), world);
      r.state == Handshaking && r.context.Some? && r.context.value.channels == None && r.context.value.groups == None
  {
    hide Inv, Apply, HandleEvent, OnItsWay, Ends, NeverRefused;
    UnsubscribeChanges(m, "a", "", false, None, None, world);
    var left := Left(m, "a", "", false);
    LeavesLeft(m, "a", "", false);
    Runs.LeaveKeeps(m, "a", "", false);
    InvSound(left);
    ChangeEnds(left, None, None, None, true, world);
    EndsThere(left, HandleEvent(left, Change(None, None, None, true), world), world,
              Handshaking, Some(Asked(left, None, None, None, true)), m.status);
  }
}
