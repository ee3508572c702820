/** What holds after any calls, in any order, against any environment. */
module SubscribeRuns {
  import opened Common
  import opened SubscribeTypes
  import opened SubscribeTransitions
  import opened SubscribeMachine
  import opened SubscribeLog
  import opened SubscribeInvariants
  import Lifecycle = SubscribeLifecycle
  import Order = SubscribeOrder
  import opened Facts = SubscribeFacts

  // ---------- every call keeps the invariant ----------

  ghost predicate Shaped(m: Machine) {
    QueueOrdered(m) && Tracked(m) && InOrder(m)
  }

  lemma EnqueueSomeShaped(m: Machine, kind: Option<InvocationType>, context: Context)
    requires Shaped(m)
    ensures Shaped(EnqueueSome(m, kind, context))
  {
    if kind.Some? {
      Lifecycle.EnqueueKeeps(m, kind.value, context);
      Order.EnqueueOrder(m, kind.value, context);
    }
  }

  lemma DropShaped(m: Machine, target: StateType)
    requires Shaped(m)
    ensures Shaped(DropOutdated(m, target))
  {
    var request := OnEnter(target);
    if request.Some? {
      Lifecycle.RemoveKeeps(m, request.value);
      Order.RemoveOrder(m, request.value);
    }
  }

  lemma AppendShaped(m: Machine, emission: Option<InvocationType>, target: StateType, context: Context)
    requires Shaped(m)
    ensures Shaped(Append(m, emission, target, context))
  {
    var leaving := if m.context.Some? then m.context.value else context;
    var a := EnqueueSome(m, emission, context);
    var b := EnqueueSome(a, OnExit(m.state), leaving);
    EnqueueSomeShaped(m, emission, context);
    EnqueueSomeShaped(a, OnExit(m.state), leaving);
    EnqueueSomeShaped(b, OnEnter(target), context);
  }

  lemma StatusShaped(m: Machine, status: SubscriptionStatus)
    requires Shaped(m)
    ensures Shaped(m.(status := status))
  {
    var r := m.(status := status);
    assert forall id: nat :: Expected(r, id) == Expected(m, id);
  }

  lemma HandleShaped(m: Machine, event: Event)
    requires Shaped(m) && Accepted(m, event)
    ensures Shaped(Handle(m, event).0)
  {
    var context := EventContext(m.context, event);
    var decision := Decide(m.state, event, context);
    var target := decision.target.value;
    if decision.status.Some? {
      StatusShaped(m, decision.status.value);
      DropShaped(m.(status := decision.status.value), target);
    } else {
      DropShaped(m, target);
    }
    var dropped := Dropped(m, event);
    AppendShaped(dropped, decision.emission, target, context);
    var appended := Append(dropped, decision.emission, target, context);
    Lifecycle.MoveKeeps(appended, event, m.state, target, if target == Unsubscribed then None else Some(context));
    Order.QuietOrder(appended, Moved(event, m.state, target));
  }

  lemma HandleKeeps(m: Machine, event: Event)
    requires Inv(m)
    ensures Inv(Handle(m, event).0)
  {
    if Accepted(m, event) {
      HandleShaped(m, event);
      HandleSingle(m, event);
      HandleServed(m, event);
      HandleInformed(m, event);
      HandleCancels(m, event);
    }
  }

  lemma PauseKeeps(m: Machine, i: nat)
    requires Inv(m) && i < |m.queue| && m.queue[i].status == Created
    ensures Inv(Pause(m, i))
  {
    Lifecycle.PauseKeeps(m, i);
    Order.PauseOrder(m, i);
    PauseFacts(m, i);
  }

  lemma FinishKeeps(m: Machine, i: nat, done: Option<Entry>)
    requires Inv(m) && i < |m.queue| && m.queue[i].status == Created
    requires m.queue[i].kind == Cancel || i == 0
    requires done.Some? ==> done == Some(Reported(m.status)) || done == Some(Requested(m.queue[i].kind, m.queue[i].context))
    requires m.queue[i].kind == EmitStatus ==> done == Some(Reported(m.status))
    ensures Inv(Finish(m, i, done))
  {
    Lifecycle.FinishKeeps(m, i, done);
    Order.FinishOrder(m, i, done);
    FinishFacts(m, i, done);
  }

  lemma CancelEffectKeeps(m: Machine, i: nat, answer: Answer)
    requires Inv(m) && i < |m.queue| && m.queue[i].status == Created && m.queue[i].kind == Cancel
    ensures Inv(CancelEffect(m, i, answer).0)
  {
    if m.transaction != NoTransaction {
      PauseKeeps(m, i);
    } else if answer.cancelFinished {
      FinishKeeps(m, i, None);
    } else {
      Lifecycle.WaitKeeps(m, i);
      Order.WaitOrder(m, i);
      WaitFacts(m, i);
    }
  }

  lemma SubscribeEffectKeeps(m: Machine, answer: Answer)
    requires Inv(m) && |m.queue| > 0 && m.queue[0].status == Created
    requires m.queue[0].kind == Handshake || m.queue[0].kind == Receive
    ensures Inv(SubscribeEffect(m, 0, answer).0)
  {
    var head := m.queue[0];
    if m.transaction == NoTransaction && head.context.sendHeartbeat && answer.canStart {
      var sent := head.(context := head.context.(sendHeartbeat := false));
      Lifecycle.FlagKeeps(m, 0, sent.context, HeartbeatTransaction);
      Order.UpdateOrder(m, 0, sent);
      FlagFacts(m, 0, HeartbeatTransaction);
      PauseKeeps(m.(queue := m.queue[0 := sent], transaction := HeartbeatTransaction), 0);
    } else {
      PauseKeeps(m, 0);
      FinishKeeps(m, 0, Some(Requested(head.kind, head.context)));
    }
  }

  lemma AttemptKeeps(m: Machine, i: nat, answer: Answer)
    requires Inv(m) && i < |m.queue| && m.queue[i].status == Created
    requires m.queue[i].kind == Cancel || i == 0
    ensures Inv(Attempt(m, i, answer).0)
  {
    match m.queue[i].kind
    case EmitStatus => FinishKeeps(m, i, Some(Reported(m.status)));
    case EmitMessage => FinishKeeps(m, i, None);
    case Cancel => CancelEffectKeeps(m, i, answer);
    case Handshake => SubscribeEffectKeeps(m, answer);
    case Receive => SubscribeEffectKeeps(m, answer);
  }

  /** Only a cancel may be run ahead of the queue. */
  predicate FairTrigger(m: Machine, trigger: Trigger) {
    trigger.Run? ==>
      var i := Position(m.queue, trigger.id);
      i < |m.queue| ==> i == 0 || m.queue[i].kind == Cancel
  }

  lemma HandleFair(m: Machine, event: Event)
    requires Inv(m)
    ensures FairTrigger(Handle(m, event).0, Handle(m, event).1)
  {
    if Accepted(m, event) && Handle(m, event).1.Run? {
      HandleShaped(m, event);
      HandleShape(m, event);
      var decision := Decide(m.state, event, EventContext(m.context, event));
      var n := |Dropped(m, event).queue|;
      var r := Handle(m, event).0;
      AppendShape(Dropped(m, event), decision.emission, decision.target.value, EventContext(m.context, event));
      assert r.queue[n].kind == Cancel && r.queue[n].id == Handle(m, event).1.id;
    }
  }

  lemma {:induction false} DriveKeeps(m: Machine, trigger: Trigger, world: World)
    requires Inv(m) && FairTrigger(m, trigger)
    ensures Inv(Drive(m, trigger, world))
    decreases Live(m.state), |m.queue|, if trigger.Next? then 1 else 0
  {
    hide Inv, Handle, Attempt;
    match trigger
    case Nothing =>
    case Next =>
      if |m.queue| > 0 {
        DriveKeeps(m, Run(m.queue[0].id), world);
      }
    case Run(id) =>
      var i := Position(m.queue, id);
      if i < |m.queue| && m.queue[i].status == Created {
        AttemptStays(m, i, world(|m.log|));
        AttemptKeeps(m, i, world(|m.log|));
        var (ran, progress) := Attempt(m, i, world(|m.log|));
        if !progress.Stop? {
          DriveKeeps(ran, Next, world);
          var behind := Drive(ran, Next, world);
          if progress.ContinueThenFail? && Live(behind.state) == 1 {
            FailureEnds(behind, progress.reason);
            var failure := FailureOf(behind.state, progress.reason);
            HandleKeeps(behind, failure);
            HandleFair(behind, failure);
            DriveKeeps(Handle(behind, failure).0, Handle(behind, failure).1, world);
          }
        }
      }
  }

  lemma EventKeeps(m: Machine, event: Event, world: World)
    requires Inv(m)
    ensures Inv(HandleEvent(m, event, world))
  {
    HandleKeeps(m, event);
    HandleFair(m, event);
    DriveKeeps(Handle(m, event).0, Handle(m, event).1, world);
  }

  /** The wire and the lists still to be left are not part of the invariant. */
  lemma WireKeeps(m: Machine, transaction: Transaction, channels: seq<string>, groups: seq<string>)
    requires Inv(m)
    ensures Inv(m.(transaction := transaction, leaveChannels := channels, leaveGroups := groups))
  {
    var r := m.(transaction := transaction, leaveChannels := channels, leaveGroups := groups);
    assert forall id: nat :: Expected(r, id) == Expected(m, id);
    SameRunning(m, r);
  }

  lemma LeaveKeeps(m: Machine, channels: string, groups: string, canStart: bool)
    requires Inv(m)
    ensures Inv(Leave(m, channels, groups, canStart))
  {
    var r := Leave(m, channels, groups, canStart);
    WireKeeps(m, r.transaction, r.leaveChannels, r.leaveGroups);
  }

  lemma OutcomeKeeps(m: Machine, result: CallbackResult, cursor: Cursor, world: World)
    requires Inv(m)
    ensures Inv(Outcome(m, result, cursor, world))
  {
    var event := OutcomeEvent(m, result, cursor);
    if event.Some? {
      EventKeeps(m, event.value, world);
    }
  }

  lemma FinishCancelKeeps(m: Machine)
    requires Inv(m)
    ensures Inv(FinishCancel(m))
  {
    Lifecycle.FinishCancelKeeps(m);
    Order.FinishCancelOrder(m);
    FinishCancelFacts(m);
  }

  lemma CallbackKeeps(m: Machine, transaction: CallbackTransaction, result: CallbackResult, cursor: Cursor, world: World)
    requires Inv(m)
    ensures Inv(OnCallback(m, transaction, result, cursor, world))
  {
    hide Inv, Drive, HandleEvent, FinishCancel;
    var freed := transaction.HeartbeatDone? || transaction.LeaveDone?;
    if !freed && !result.ResultCancelled? {
      OutcomeKeeps(m, result, cursor, world);
    } else {
      FinishCancelKeeps(m);
      var completed := FinishCancel(m);
      var idle := if freed then completed.(transaction := NoTransaction) else completed;
      WireKeeps(completed, idle.transaction, idle.leaveChannels, idle.leaveGroups);
      WireKeeps(idle, LeaveTransaction, [], []);
      if idle.leaveChannels == [] && idle.leaveGroups == [] {
        if idle.queue != [] {
          DriveKeeps(idle, Next, world);
        } else {
          OutcomeKeeps(idle, result, cursor, world);
        }
      }
    }
  }

  lemma ApplyKeeps(m: Machine, call: Call, world: World)
    requires Inv(m)
    ensures Inv(Apply(m, call, world))
  {
    hide Inv, HandleEvent, OnCallback, Leave;
    match call
    case Subscribe(channels, groups, from) =>
      EventKeeps(m, SubscribeEvent(channels, groups, from), world);
    case Unsubscribe(leaveChannels, leaveGroups, canStart, channels, groups) =>
      LeaveKeeps(m, leaveChannels, leaveGroups, canStart);
      EventKeeps(Leave(m, leaveChannels, leaveGroups, canStart), SubscriptionChanged(channels, groups, true), world);
    case UnsubscribeEverything(channels, groups, canStart) =>
      LeaveKeeps(m, channels, groups, canStart);
      EventKeeps(Leave(m, channels, groups, canStart), UnsubscribeAll(Some(channels), Some(groups)), world);
    case DisconnectCall => EventKeeps(m, Disconnect, world);
    case ReconnectCall(cursor) => EventKeeps(m, Reconnect(cursor), world);
    case Callback(transaction, result, cursor) => CallbackKeeps(m, transaction, result, cursor, world);
  }

  lemma {:induction false} ExecuteKeeps(m: Machine, calls: seq<Call>, world: World)
    requires Inv(m)
    ensures Inv(Execute(m, calls, world))
  {
    if calls != [] {
      ExecuteKeeps(m, calls[..|calls| - 1], world);
      ApplyKeeps(Execute(m, calls[..|calls| - 1], world), calls[|calls| - 1], world);
    }
  }
}
