/** The engine as the source runs it: one object whose fields change step by step,
    effects that call back into the engine, and nested processing of the queue.
    Every method is proved to compute the corresponding function of
    SubscribeMachine, so the run theorems hold of it. */
module SubscribeEngine {
  import opened Common
  import Lists = LeaveLists
  import opened SubscribeTypes
  import opened SubscribeTransitions
  import opened SubscribeMachine

  /** What is left to do once an effect has returned. */
  ghost function After(ran: Machine, progress: Progress, world: World): Machine {
    match progress
    case Stop => ran
    case Continue => Drive(ran, Next, world)
    case ContinueThenFail(reason) =>
      var behind := Drive(ran, Next, world);
      if Live(behind.state) == 0 then behind
      else HandleEvent(behind, FailureOf(behind.state, reason), world)
  }

  /** The machine while the i-th invocation's effect runs. */
  ghost function Begun(m: Machine, i: nat): Machine
    requires i < |m.queue|
  {
    m.(queue := m.queue[i := m.queue[i].(status := Running)], log := m.log + [Started(m.queue[i].id)])
  }

  class Engine {
    var state: StateType
    var context: Option<Context>
    var queue: seq<Invocation>
    var nextId: nat
    var status: SubscriptionStatus
    var transaction: Transaction
    var cancelInvocation: Option<nat>
    var leaveChannels: seq<string>
    var leaveGroups: seq<string>
    var log: seq<Entry>

    function Model(): Machine
      reads this
    {
      Machine(state, context, queue, nextId, status, transaction, cancelInvocation, leaveChannels, leaveGroups, log)
    }

    constructor ()
      ensures Model() == INITIAL
    {
      state := Unsubscribed;
      context := None;
      queue := [];
      nextId := 0;
      status := Disconnected;
      transaction := NoTransaction;
      cancelInvocation := None;
      leaveChannels, leaveGroups := [], [];
      log := [];
    }

    method CancelByType(kind: InvocationType)
      modifies this
      ensures Model() == SubscribeMachine.CancelByType(old(Model()), kind)
    {
      var count := |queue|;
      for i := 0 to count
        invariant Model() == old(Model())
        invariant forall k :: 0 <= k < i ==> queue[k].status == Running || queue[k].kind != kind
      {
        if queue[i].status == Running { continue; }
        if kind == queue[i].kind {
          log := log + [Removed(queue[i].id)];
          queue := RemoveAt(queue, i);
          return;
        }
      }
    }

    /** The transition's invocations in the order the source gathers them. */
    method Gather(emission: Option<InvocationType>, target: StateType, carried: Context)
      modifies this
      ensures Model() == Append(old(Model()), emission, target, carried)
    {
      if emission.Some? {
        Add(emission.value, carried);
      }
      if OnExit(state).Some? {
        Add(OnExit(state).value, if context.Some? then context.value else carried);
      }
      if OnEnter(target).Some? {
        Add(OnEnter(target).value, carried);
      }
    }

    method Add(kind: InvocationType, carried: Context)
      modifies this
      ensures Model() == Enqueue(old(Model()), kind, carried)
    {
      queue := queue + [Invocation(nextId, kind, Created, carried)];
      log := log + [Enqueued(nextId, kind)];
      nextId := nextId + 1;
    }

    /** Storing the status and allocating the state to enter. */
    method Prepare(newStatus: Option<SubscriptionStatus>, target: StateType)
      modifies this
      ensures Model() == DropOutdated(
        if newStatus.Some? then old(Model()).(status := newStatus.value) else old(Model()), target)
    {
      if newStatus.Some? { status := newStatus.value; }
      if OnEnter(target).Some? { CancelByType(OnEnter(target).value); }
    }

    method Enter(event: Event, target: StateType, carried: Context)
      modifies this
      ensures Model() == old(Model()).(
        state := target,
        context := if target == Unsubscribed then None else Some(carried),
        log := old(log) + [Moved(event, old(state), target)])
    {
      log := log + [Moved(event, state, target)];
      state := target;
      context := if target == Unsubscribed then None else Some(carried);
    }

    /** The transition itself; the trigger says what to run once it is done. */
    method Transit(event: Event) returns (trigger: Trigger)
      modifies this
      ensures (Model(), trigger) == Handle(old(Model()), event)
    {
      var carried := EventContext(context, event);
      var decision := Decide(state, event, carried);
      if decision.target.None? { return Nothing; }
      var target := decision.target.value;
      ghost var origin := state;
      Prepare(decision.status, target);
      ghost var dropped := Model();
      assert dropped.state == origin;
      var first, firstId := |queue|, nextId;
      Gather(decision.emission, target, carried);
      ghost var appended := Model();
      assert appended.state == origin;
      Enter(event, target, carried);
      trigger := if |queue| == first then Nothing
                 else if queue[first].Immediate() then Run(firstId)
                 else Next;
    }

    method HandleEvent(event: Event, world: World)
      modifies this
      ensures Model() == SubscribeMachine.HandleEvent(old(Model()), event, world)
    {
      var trigger := Transit(event);
      RunTrigger(trigger, world);
    }

    method RunTrigger(trigger: Trigger, world: World)
      modifies this
      ensures Model() == Drive(old(Model()), trigger, world)
      decreases Live(state), |queue|, 6
    {
      match trigger
      case Nothing =>
      case Next => ProcessNextInvocation(world);
      case Run(id) => InvocationExec(id, world);
    }

    method ProcessNextInvocation(world: World)
      modifies this
      ensures Model() == Drive(old(Model()), Next, world)
      decreases Live(state), |queue|, 5
    {
      if |queue| > 0 {
        InvocationExec(queue[0].id, world);
      }
    }

    method InvocationExec(id: nat, world: World)
      modifies this
      ensures Model() == Drive(old(Model()), Run(id), world)
      decreases Live(state), |queue|, 4
    {
      var i := Position(queue, id);
      if i == |queue| || queue[i].status != Created { return; }
      var answer := world(|log|);
      ghost var before := Model();
      queue := queue[i := queue[i].(status := Running)];
      log := log + [Started(id)];
      match queue[i].kind
      case EmitStatus => EmitStatusEffect(i, world, before);
      case EmitMessage => EmitMessagesEffect(i, world, before);
      case Cancel => CancelEffect(i, answer, world, before);
      case Handshake => MakeSubscribeRequest(i, answer, world, before);
      case Receive => MakeSubscribeRequest(i, answer, world, before);
    }

    method EmitStatusEffect(i: nat, world: World, ghost before: Machine)
      requires i < |before.queue| && before.queue[i].status == Created && Model() == Begun(before, i)
      modifies this
      ensures Model() == After(Finish(before, i, Some(Reported(before.status))), Continue, world)
      decreases Live(state), |queue|, 3
    {
      log := log + [Reported(status)];
      EffectCompletion(i, false, world, before, Some(Reported(before.status)));
    }

    method EmitMessagesEffect(i: nat, world: World, ghost before: Machine)
      requires i < |before.queue| && before.queue[i].status == Created && Model() == Begun(before, i)
      modifies this
      ensures Model() == After(Finish(before, i, None), Continue, world)
      decreases Live(state), |queue|, 3
    {
      EffectCompletion(i, false, world, before, None);
    }

    method CancelEffect(i: nat, answer: Answer, world: World, ghost before: Machine)
      requires i < |before.queue| && before.queue[i].status == Created && Model() == Begun(before, i)
      modifies this
      ensures var (ran, progress) := SubscribeMachine.CancelEffect(before, i, answer);
        Model() == After(ran, progress, world)
      decreases Live(state), |queue|, 3
    {
      if transaction != NoTransaction {
        EffectCompletion(i, true, world, before, None);
        return;
      }
      if answer.cancelFinished {
        EffectCompletion(i, false, world, before, None);
      } else {
        log := log + [Waiting(queue[i].id)];
        cancelInvocation := Some(queue[i].id);
      }
    }

    method MakeSubscribeRequest(i: nat, answer: Answer, world: World, ghost before: Machine)
      requires i < |before.queue| && before.queue[i].status == Created && Model() == Begun(before, i)
      modifies this
      ensures var (ran, progress) := SubscribeEffect(before, i, answer);
        Model() == After(ran, progress, world)
      decreases Live(state), |queue|, 3
    {
      var carried := queue[i].context;
      if transaction != NoTransaction {
        EffectCompletion(i, true, world, before, None);
        return;
      }
      if carried.sendHeartbeat {
        if answer.canStart {
          var sent := carried.(sendHeartbeat := false);
          queue := queue[i := queue[i].(context := sent)];
          transaction := HeartbeatTransaction;
          EffectCompletion(i, true, world,
            before.(queue := before.queue[i := before.queue[i].(context := sent)], transaction := HeartbeatTransaction), None);
        } else {
          EffectCompletion(i, true, world, before, None);
        }
        return;
      }
      if answer.request == InProgress {
        EffectCompletion(i, true, world, before, None);
        return;
      }
      ghost var requested := Requested(queue[i].kind, carried);
      log := log + [Requested(queue[i].kind, carried)];
      EffectCompletion(i, false, world, before, Some(requested));
      if answer.request.Refused? {
        HandleSubscribeError(answer.request.reason, world);
      }
    }

    method HandleSubscribeError(reason: int, world: World)
      modifies this
      ensures var m := old(Model());
        Model() == if Live(m.state) == 0 then m else SubscribeMachine.HandleEvent(m, FailureOf(m.state, reason), world)
      decreases Live(state), 0, 0
    {
      if Live(state) == 1 {
        FailureEnds(Model(), reason);
        var trigger := Transit(FailureOf(state, reason));
        RunTrigger(trigger, world);
      }
    }

    /** The completion callback an effect calls: a paused invocation becomes
        runnable again, any other leaves the queue and the next one is run. */
    method EffectCompletion(i: nat, paused: bool, world: World, ghost before: Machine, ghost done: Option<Entry>)
      requires i < |before.queue| && before.queue[i].status == Created
      requires paused ==> done == None
      requires Model() == (if done.Some? then Begun(before, i).(log := Begun(before, i).log + [done.value]) else Begun(before, i))
      modifies this
      ensures Model() == if paused then Pause(before, i) else Drive(Finish(before, i, done), Next, world)
      decreases Live(state), |queue|, 2
    {
      var id := queue[i].id;
      if paused {
        queue := queue[i := queue[i].(status := Created)];
        log := log + [Paused(id)];
        assert queue == before.queue;
        return;
      }
      HandleEffectCompletion(i);
      assert queue == RemoveAt(before.queue, i);
      assert Model() == Finish(before, i, done);
      ProcessNextInvocation(world);
    }

    method HandleEffectCompletion(i: nat)
      requires i < |queue|
      modifies this`queue, this`log
      ensures old(queue[i].status) != Running ==> Model() == old(Model())
      ensures old(queue[i].status) == Running ==>
        queue == RemoveAt(old(queue), i) && log == old(log) + [Finished(old(queue[i].id), old(queue[i].kind))]
    {
      if queue[i].status != Running { return; }
      queue := queue[i := queue[i].(status := Completed)];
      log := log + [Finished(queue[i].id, queue[i].kind)];
      queue := RemoveAt(queue, i);
    }

    /** The end of a cancel that was left waiting. */
    method CompleteCancel()
      modifies this
      ensures Model() == FinishCancel(old(Model()))
    {
      if cancelInvocation.Some? {
        var i := Position(queue, cancelInvocation.value);
        if i < |queue| { HandleEffectCompletion(i); }
        cancelInvocation := None;
      }
    }

    method HandleOutcome(result: CallbackResult, cursor: Cursor, world: World)
      modifies this
      ensures Model() == Outcome(old(Model()), result, cursor, world)
    {
      var event := OutcomeEvent(Model(), result, cursor);
      if event.Some? { HandleEvent(event.value, world); }
    }

    method SubscribeCallback(trans: CallbackTransaction, result: CallbackResult, cursor: Cursor, world: World)
      modifies this
      ensures Model() == OnCallback(old(Model()), trans, result, cursor, world)
    {
      var freed := trans.HeartbeatDone? || trans.LeaveDone?;
      if freed || result.ResultCancelled? {
        CompleteCancel();
        if freed { transaction := NoTransaction; }
        var leaving, _, _ := PostponedUnsubscribe();
        if leaving { return; }
        if |queue| != 0 {
          ProcessNextInvocation(world);
          return;
        }
      }
      HandleOutcome(result, cursor, world);
    }

    /** Sends what is still to be left, unless something else is on the wire. */
    method PostponedUnsubscribe() returns (leaving: bool, channels: string, groups: string)
      modifies this`leaveChannels, this`leaveGroups, this`transaction
      ensures leaving <==> old(leaveChannels) != [] || old(leaveGroups) != []
      ensures !leaving || old(transaction) != NoTransaction ==> Model() == old(Model()) && channels == "" && groups == ""
      ensures leaving && old(transaction) == NoTransaction ==>
        leaveChannels == [] && leaveGroups == [] && transaction == LeaveTransaction &&
        channels == Lists.Joined(old(leaveChannels)) && groups == Lists.Joined(old(leaveGroups))
    {
      if leaveChannels == [] && leaveGroups == [] { return false, "", ""; }
      if transaction != NoTransaction { return true, "", ""; }
      channels := JoinedElements(leaveChannels);
      groups := JoinedElements(leaveGroups);
      leaveChannels, leaveGroups := [], [];
      transaction := LeaveTransaction;
      leaving := true;
    }

    method JoinedElements(elements: seq<string>) returns (joined: string)
      ensures joined == Lists.Joined(elements)
    {
      joined := "";
      for i := 0 to |elements|
        invariant joined == Lists.Joined(elements[..i])
      {
        assert elements[..i + 1][..i] == elements[..i];
        joined := joined + (if joined != "" then "," else "") + elements[i];
      }
      assert elements[..|elements|] == elements;
    }

    method SendOrPostponeLeave(channels: string, groups: string, canStart: bool)
      modifies this
      ensures Model() == Leave(old(Model()), channels, groups, canStart)
    {
      if channels == "" && groups == "" { return; }
      if canStart {
        transaction := LeaveTransaction;
      } else {
        if channels != "" { leaveChannels := leaveChannels + [channels]; }
        if groups != "" { leaveGroups := leaveGroups + [groups]; }
      }
    }

    method Call(call: Call, world: World)
      modifies this
      ensures Model() == Apply(old(Model()), call, world)
    {
      match call
      case Subscribe(channels, groups, from) =>
        HandleEvent(SubscribeEvent(channels, groups, from), world);
      case Unsubscribe(leaveChannels, leaveGroups, canStart, channels, groups) =>
        SendOrPostponeLeave(leaveChannels, leaveGroups, canStart);
        HandleEvent(SubscriptionChanged(channels, groups, true), world);
      case UnsubscribeEverything(channels, groups, canStart) =>
        if channels != "" || groups != "" {
          SendOrPostponeLeave(channels, groups, canStart);
          HandleEvent(UnsubscribeAll(Some(channels), Some(groups)), world);
        }
      case DisconnectCall =>
        if Live(state) == 1 { HandleEvent(Disconnect, world); }
      case ReconnectCall(cursor) =>
        if state != Unsubscribed && Live(state) == 0 { HandleEvent(Reconnect(cursor), world); }
      case Callback(trans, result, cursor) =>
        SubscribeCallback(trans, result, cursor, world);
    }
  }
}
