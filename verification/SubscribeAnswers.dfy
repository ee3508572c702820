/** What each call of a client does: from every state, where the engine ends and what is
    then on its way. */
module SubscribeAnswers {
  import opened Common
  import opened SubscribeTypes
  import opened SubscribeTransitions
  import opened SubscribeMachine
  import opened SubscribeInvariants
  import opened SubscribeMoves
  import opened SubscribeCalls
  import Runs = SubscribeRuns

  // ---------- an event with everything it triggers ----------

  /** The state with this context failed with the reason of a refused call. */
  predicate FailedFrom(r: Machine, state: StateType, context: Option<Context>, reason: int) {
    context.Some? && r.context == Some(context.value.(reason := reason, sendHeartbeat := false)) &&
    ((state == Handshaking && r.state == HandshakeFailed && r.status == ConnectionError) ||
     (state == Receiving && r.state == ReceiveFailed && r.status == DisconnectedUnexpectedly))
  }

  /** In `state` with `context` and `status`, unless the network refused a call made from
      there. */
  ghost predicate Ends(m: Machine, r: Machine, world: World, state: StateType, context: Option<Context>, status: SubscriptionStatus) {
    (r.state == state && r.context == context && r.status == status) ||
    exists reason :: FailedFrom(r, state, context, reason) && RefusedWithin(world, |m.log|, |r.log|, reason)
  }

  /** An invocation queued by this step has run or is still to run. */
  predicate Pending(m: Machine, r: Machine, id: nat, kind: InvocationType, context: Context) {
    id >= m.nextId && (Queued(r.queue, id, kind, context) || DoneSince(r.log, |m.log|, id, kind, context))
  }

  ghost predicate OnItsWay(m: Machine, r: Machine, task: Task) {
    exists id: nat :: Pending(m, r, id, task.kind, task.context)
  }

  lemma {:induction false} FreshAt(id: nat, tasks: seq<Task>, k: nat)
    requires k < |tasks|
    ensures |Fresh(id, tasks)| == |tasks|
    ensures Fresh(id, tasks)[k] == Invocation(id + k, tasks[k].kind, Created, tasks[k].context)
    decreases tasks
  {
    FreshAppend(id, tasks, []);
    if k > 0 {
      FreshAt(id + 1, tasks[1..], k - 1);
    }
  }

  lemma TaskQueued(kept: seq<Invocation>, id: nat, tasks: seq<Task>, k: nat)
    requires k < |tasks|
    ensures Queued(kept + Fresh(id, tasks), id + k, tasks[k].kind, tasks[k].context)
  {
    FreshAt(id, tasks, k);
    assert (kept + Fresh(id, tasks))[|kept| + k] == Fresh(id, tasks)[k];
  }

  lemma TaskServed(m: Machine, event: Event, world: World, state: StateType, context: Option<Context>,
                   status: SubscriptionStatus, kept: seq<Invocation>, tasks: seq<Task>, k: nat)
    requires Inv(m) && Leads(m, event, state, context, status, kept, tasks)
    requires k < |tasks| && tasks[k].kind != Cancel
    ensures OnItsWay(m, HandleEvent(m, event, world), tasks[k])
  {
    hide Inv, Handle, Drive, Queued, DoneSince, Fresh, Runs.FairTrigger;
    var (entered, trigger) := Handle(m, event);
    Runs.HandleKeeps(m, event);
    Runs.HandleFair(m, event);
    HandleLog(m, event);
    TaskQueued(kept, m.nextId, tasks, k);
    var id, kind, asked := m.nextId + k, tasks[k].kind, tasks[k].context;
    DriveServes(entered, trigger, world, id, kind, asked);
    DriveMoves(entered, trigger, world);
    Carries(m.log, entered.log, Drive(entered, trigger, world).log, id, kind, asked);
    assert Pending(m, HandleEvent(m, event, world), id, kind, asked);
  }

  lemma Settled(m: Machine, entered: Machine, r: Machine, world: World)
    requires m.log <= entered.log
    requires Unmoved(entered, r) || exists reason :: Broke(entered, r, reason) && RefusedWithin(world, |entered.log|, |r.log|, reason)
    ensures Ends(m, r, world, entered.state, entered.context, entered.status)
  {
    if !Unmoved(entered, r) {
      var reason :| Broke(entered, r, reason) && RefusedWithin(world, |entered.log|, |r.log|, reason);
      assert FailedFrom(r, entered.state, entered.context, reason);
      assert RefusedWithin(world, |m.log|, |r.log|, reason);
    }
  }

  /** The state an event leads to is where its step ends, and everything it queued apart
      from cancels runs or is still to run. */
  lemma EventEnds(m: Machine, event: Event, world: World, state: StateType, context: Option<Context>,
                  status: SubscriptionStatus, kept: seq<Invocation>, tasks: seq<Task>)
    requires Inv(m) && Leads(m, event, state, context, status, kept, tasks)
    ensures var r := HandleEvent(m, event, world);
      Ends(m, r, world, state, context, status) && m.log <= r.log &&
      forall k :: 0 <= k < |tasks| && tasks[k].kind != Cancel ==> OnItsWay(m, r, tasks[k])
  {
    hide Inv, Handle, Drive, OnItsWay, Fresh, Runs.FairTrigger, Broke, Renewed, Ends, RefusedWithin;
    var (entered, trigger) := Handle(m, event);
    Runs.HandleKeeps(m, event);
    Runs.HandleFair(m, event);
    HandleLog(m, event);
    DriveMoves(entered, trigger, world);
    Settled(m, entered, Drive(entered, trigger, world), world);
    forall k | 0 <= k < |tasks| && tasks[k].kind != Cancel ensures OnItsWay(m, HandleEvent(m, event, world), tasks[k]) {
      TaskServed(m, event, world, state, context, status, kept, tasks, k);
    }
  }

  lemma IgnoredEnds(m: Machine, event: Event, world: World)
    requires Ignores(m, event)
    ensures HandleEvent(m, event, world) == m
  {
  }

  lemma QuietEnds(m: Machine, event: Event, world: World, state: StateType, context: Option<Context>, status: SubscriptionStatus)
    requires Leads(m, event, state, context, status, m.queue, [])
    ensures var r := HandleEvent(m, event, world);
      r == m.(state := state, context := context, status := status, log := r.log)
  {
    assert m.queue + [] == m.queue;
  }

  // ---------- reconnect and disconnect ----------

  /** A paused subscription resumes with its lists from the given cursor: the handshake
      is on its way. A live one and none at all are left alone. */
  lemma ReconnectCallResumes(m: Machine, cursor: Cursor, world: World)
    requires Inv(m)
    ensures var r := Apply(m, ReconnectCall(cursor), world);
      if Failed(m.state) || Stopped(m.state) then
        var context := Renewed(m).(cursor := cursor);
        Ends(m, r, world, Handshaking, Some(context), m.status) && OnItsWay(m, r, Task(Handshake, context))
      else r == m
  {
    hide Inv, HandleEvent, Leads, OnItsWay, Ends, Others;
    InvSound(m);
    if Failed(m.state) || Stopped(m.state) {
      var context := Renewed(m).(cursor := cursor);
      var tasks := [Task(Handshake, context)];
      ReconnectResumes(m, cursor);
      EventEnds(m, Reconnect(cursor), world, Handshaking, Some(context), m.status, Others(m.queue, Handshake), tasks);
      assert OnItsWay(m, HandleEvent(m, Reconnect(cursor), world), tasks[0]);
    }
  }

  /** A live subscription stops and keeps its lists and its cursor; an established one is
      reported as disconnected. Everything else is left alone. */
  lemma DisconnectCallStops(m: Machine, world: World)
    requires Inv(m)
    ensures var r := Apply(m, DisconnectCall, world);
      if m.state == Handshaking then
        r.state == HandshakeStopped && r.context == Some(Renewed(m)) && r.status == m.status
      else if m.state == Receiving then
        r.state == ReceiveStopped && r.context == Some(Renewed(m)) && r.status == Disconnected &&
        OnItsWay(m, r, Task(EmitStatus, Renewed(m)))
      else r == m
  {
    hide Inv, HandleEvent, Leads, OnItsWay;
    InvSound(m);
    DisconnectStops(m);
    if m.state == Handshaking {
      EventEnds(m, Disconnect, world, HandshakeStopped, Some(Renewed(m)), m.status, m.queue, [Task(Cancel, m.context.value)]);
    } else if m.state == Receiving {
      var tasks := [Task(EmitStatus, Renewed(m)), Task(Cancel, m.context.value)];
      EventEnds(m, Disconnect, world, ReceiveStopped, Some(Renewed(m)), Disconnected, m.queue, tasks);
      assert OnItsWay(m, HandleEvent(m, Disconnect, world), tasks[0]);
    }
  }

  // ---------- subscribe and unsubscribe ----------

  /** The state in which a change of the lists asks the network again. */
  function AsksIn(m: Machine, asking: bool, restored: bool): Option<StateType> {
    if m.state == Receiving then if asking then Some(Receiving) else None
    else if m.state == Unsubscribed || m.state == ReceiveFailed then Some(Handshaking)
    else if m.state == Handshaking then if asking || restored then Some(Handshaking) else None
    else if m.state == HandshakeFailed then if asking then Some(Handshaking) else None
    else None
  }

  /** New lists: a stopped subscription remembers them and asks nothing, asking for
      nothing ends one, and in every other case a request for exactly them is on its
      way, from the cursor where the subscription stood or the one given. */
  lemma ChangeEnds(m: Machine, channels: Option<string>, groups: Option<string>, cursor: Option<Cursor>,
                   sentByEngine: bool, world: World)
    requires Inv(m)
    ensures var r := HandleEvent(m, Change(channels, groups, cursor, sentByEngine), world);
      var context := Asked(m, channels, groups, cursor, sentByEngine);
      var asks := AsksIn(m, Given(channels) || Given(groups), cursor.Some?);
      if Stopped(m.state) then
        r == m.(context := Some(context), log := r.log)
      else if asks.None? then
        r.state == Unsubscribed && r.context == None && r.status == if m.state == Receiving then Disconnected else m.status
      else
        Ends(m, r, world, asks.value, Some(context), if m.state == Receiving then SubscriptionChangedStatus else m.status) &&
        OnItsWay(m, r, Task(if asks.value == Receiving then Receive else Handshake, context))
  {
    hide Inv, HandleEvent, Leads, OnItsWay, Others, Asked, Given;
    InvSound(m);
    var event, context := Change(channels, groups, cursor, sentByEngine), Asked(m, channels, groups, cursor, sentByEngine);
    var asking := Given(channels) || Given(groups);
    var asks := AsksIn(m, asking, cursor.Some?);
    if Stopped(m.state) {
      ChangeWhileStopped(m, channels, groups, cursor, sentByEngine);
      QuietEnds(m, event, world, m.state, Some(context), m.status);
    } else if asks.None? {
      ChangeToNothing(m, channels, groups, cursor, sentByEngine);
      NothingEnds(m, event, world, context);
    } else if m.state == Handshaking || m.state == Receiving {
      ChangeWhileLive(m, channels, groups, cursor, sentByEngine);
      if m.state == Handshaking {
        var tasks := [Task(Cancel, m.context.value), Task(Handshake, context)];
        EventEnds(m, event, world, Handshaking, Some(context), m.status, Others(m.queue, Handshake), tasks);
        assert OnItsWay(m, HandleEvent(m, event, world), tasks[1]);
      } else {
        var tasks := [Task(EmitStatus, context), Task(Cancel, m.context.value), Task(Receive, context)];
        EventEnds(m, event, world, Receiving, Some(context), SubscriptionChangedStatus, Others(m.queue, Receive), tasks);
        assert OnItsWay(m, HandleEvent(m, event, world), tasks[2]);
      }
    } else {
      ChangeStarts(m, channels, groups, cursor, sentByEngine);
      var tasks := [Task(Handshake, context)];
      EventEnds(m, event, world, Handshaking, Some(context), m.status, Others(m.queue, Handshake), tasks);
      assert OnItsWay(m, HandleEvent(m, event, world), tasks[0]);
    }
  }

  lemma NothingEnds(m: Machine, event: Event, world: World, context: Context)
    requires Inv(m) && Sound(m) && (m.state == Handshaking || m.state == HandshakeFailed || m.state == Receiving)
    requires m.state == Handshaking ==> Leads(m, event, Unsubscribed, None, m.status, m.queue, [Task(Cancel, m.context.value)])
    requires m.state == HandshakeFailed ==> Leads(m, event, Unsubscribed, None, m.status, m.queue, [])
    requires m.state == Receiving ==>
      Leads(m, event, Unsubscribed, None, Disconnected, m.queue, [Task(EmitStatus, context), Task(Cancel, m.context.value)])
    ensures var r := HandleEvent(m, event, world);
      r.state == Unsubscribed && r.context == None && r.status == if m.state == Receiving then Disconnected else m.status
  {
    hide Inv, HandleEvent, Leads, OnItsWay;
    if m.state == Handshaking {
      EventEnds(m, event, world, Unsubscribed, None, m.status, m.queue, [Task(Cancel, m.context.value)]);
    } else if m.state == HandshakeFailed {
      EventEnds(m, event, world, Unsubscribed, None, m.status, m.queue, []);
    } else {
      EventEnds(m, event, world, Unsubscribed, None, Disconnected, m.queue,
                [Task(EmitStatus, context), Task(Cancel, m.context.value)]);
    }
  }

  /** Subscribing is a change of the lists. The cursor counts unless its timetoken begins
      with a zero. */
  lemma SubscribeChanges(m: Machine, channels: Option<string>, groups: Option<string>, from: Option<Cursor>, world: World)
    ensures var cursor := if from.Some? && !("0" <= from.value.timetoken) then from else None;
      Apply(m, Subscribe(channels, groups, from), world) == HandleEvent(m, Change(channels, groups, cursor, false), world)
  {
    hide HandleEvent;
    if from.Some? {
      var text := from.value.timetoken;
      assert "0" <= text <==> text != "" && text[0] == '0';
    }
  }

  /** What is left is told now when a transaction can start and remembered otherwise; the
      rest of the lists is a change that needs no heartbeat. */
  lemma UnsubscribeChanges(m: Machine, leaveChannels: string, leaveGroups: string, canStart: bool,
                           channels: Option<string>, groups: Option<string>, world: World)
    ensures var left := if leaveChannels == "" && leaveGroups == "" then m else Left(m, leaveChannels, leaveGroups, canStart);
      Apply(m, Unsubscribe(leaveChannels, leaveGroups, canStart, channels, groups), world) ==
      HandleEvent(left, Change(channels, groups, None, true), world)
    ensures var r := Apply(m, Unsubscribe(leaveChannels, leaveGroups, canStart, channels, groups), world);
      var told := canStart && (leaveChannels != "" || leaveGroups != "");
      (told ==> r.transaction == LeaveTransaction) &&
      r.leaveChannels == (if told then m.leaveChannels else m.leaveChannels + Listed(leaveChannels)) &&
      r.leaveGroups == (if told then m.leaveGroups else m.leaveGroups + Listed(leaveGroups))
  {
    hide Handle, Drive;
    LeavesLeft(m, leaveChannels, leaveGroups, canStart);
    var left := Leave(m, leaveChannels, leaveGroups, canStart);
    var event := SubscriptionChanged(channels, groups, true);
    HandleWire(left, event);
    DriveWire(Handle(left, event).0, Handle(left, event).1, world);
    assert m.leaveChannels + [] == m.leaveChannels && m.leaveGroups + [] == m.leaveGroups;
  }

  function Listed(text: string): seq<string> {
    if |text| == 0 then [] else [text]
  }

  function Left(m: Machine, channels: string, groups: string, canStart: bool): Machine {
    if canStart then m.(transaction := LeaveTransaction)
    else m.(leaveChannels := m.leaveChannels + Listed(channels), leaveGroups := m.leaveGroups + Listed(groups))
  }

  lemma LeavesLeft(m: Machine, channels: string, groups: string, canStart: bool)
    ensures Leave(m, channels, groups, canStart) == if channels == "" && groups == "" then m else Left(m, channels, groups, canStart)
  {
    assert m.leaveChannels + [] == m.leaveChannels && m.leaveGroups + [] == m.leaveGroups;
  }

  /** Unsubscribing from everything ends every subscription; an established one is
      reported with what was given up. */
  lemma UnsubscribeEverythingEnds(m: Machine, channels: string, groups: string, canStart: bool, world: World)
    requires Inv(m) && (channels != "" || groups != "")
    ensures var r := Apply(m, UnsubscribeEverything(channels, groups, canStart), world);
      r.state == Unsubscribed && r.context == None &&
      r.status == (if m.state == Receiving then Disconnected else m.status) &&
      (m.state == Unsubscribed ==> r == Left(m, channels, groups, canStart))
    ensures m.state == Receiving ==>
      var context := Context(if channels != "" then Some(channels) else m.context.value.channels,
                             if groups != "" then Some(groups) else m.context.value.groups,
                             m.context.value.cursor, 0, false);
      OnItsWay(m, Apply(m, UnsubscribeEverything(channels, groups, canStart), world), Task(EmitStatus, context))
  {
    hide Inv, HandleEvent, Leads, OnItsWay, Leave;
    var left, event := Leave(m, channels, groups, canStart), UnsubscribeAll(Some(channels), Some(groups));
    LeavesLeft(m, channels, groups, canStart);
    Runs.LeaveKeeps(m, channels, groups, canStart);
    InvSound(left);
    UnsubscribeAllEnds(left, Some(channels), Some(groups));
    if m.state == Unsubscribed {
      IgnoredEnds(left, event, world);
    } else if m.state == Handshaking {
      EventEnds(left, event, world, Unsubscribed, None, m.status, left.queue, [Task(Cancel, m.context.value)]);
    } else if m.state == Receiving {
      var context := Context(if channels != "" then Some(channels) else m.context.value.channels,
                             if groups != "" then Some(groups) else m.context.value.groups,
                             m.context.value.cursor, 0, false);
      var tasks := [Task(EmitStatus, context), Task(Cancel, m.context.value)];
      EventEnds(left, event, world, Unsubscribed, None, Disconnected, left.queue, tasks);
      assert OnItsWay(left, HandleEvent(left, event, world), tasks[0]);
      SameBeginning(m, left, HandleEvent(left, event, world), tasks[0]);
    } else {
      EventEnds(left, event, world, Unsubscribed, None, m.status, left.queue, []);
    }
  }

  lemma SameBeginning(m: Machine, left: Machine, r: Machine, task: Task)
    requires left.nextId == m.nextId && left.log == m.log && OnItsWay(left, r, task)
    ensures OnItsWay(m, r, task)
  {
    var id: nat :| Pending(left, r, id, task.kind, task.context);
    assert Pending(m, r, id, task.kind, task.context);
  }
}
