/** The Subscribe Event Engine as a machine on values: one state, one invocation
    queue, one request at a time on the wire, and a log of everything that
    happened. The class in SubscribeEngine.dfy is proved to compute these
    functions; the run theorems in the files beside it are about them. */
module SubscribeMachine {
  import opened Common
  import opened SubscribeTypes
  import opened SubscribeTransitions

  /** What is on the wire as far as the engine tracks it. Subscribe calls are not
      recorded by the source, so there is no third case. */
  datatype Transaction = NoTransaction | HeartbeatTransaction | LeaveTransaction

  datatype Entry =
    | Moved(event: Event, origin: StateType, target: StateType)
    | Enqueued(id: nat, kind: InvocationType)
    | Removed(id: nat)
    | Started(id: nat)
    | Paused(id: nat)
    | Waiting(id: nat)
    | Finished(id: nat, kind: InvocationType)
    | Reported(status: SubscriptionStatus)
    | Requested(kind: InvocationType, context: Context)

  datatype Machine = Machine(
    state: StateType,
    context: Option<Context>,
    queue: seq<Invocation>,
    nextId: nat,
    status: SubscriptionStatus,
    transaction: Transaction,
    cancelInvocation: Option<nat>,
    leaveChannels: seq<string>,
    leaveGroups: seq<string>,
    log: seq<Entry>)

  const INITIAL := Machine(Unsubscribed, None, [], 0, Disconnected, NoTransaction, None, [], [], [])

  /** The answers of the parts of the client that are not modelled: whether a
      transaction can start, how a subscribe call went, and whether a cancel
      finished at once. */
  datatype RequestResult = InProgress | Sent | Refused(reason: int)
  datatype Answer = Answer(canStart: bool, request: RequestResult, cancelFinished: bool)

  /** Every start of an invocation asks at its own position in the log, so an
      arbitrary function stands for an arbitrary environment. */
  type World = nat -> Answer

  // ---------- queue ----------

  /** Position of the first pending invocation of a type, or the queue's length. */
  function FirstPending(queue: seq<Invocation>, kind: InvocationType): (i: nat)
    ensures i <= |queue|
    ensures i < |queue| ==> queue[i].kind == kind && queue[i].status != Running
    ensures forall k :: 0 <= k < i ==> queue[k].status == Running || queue[k].kind != kind
  {
    if queue == [] then 0
    else if queue[0].status != Running && queue[0].kind == kind then 0
    else 1 + FirstPending(queue[1..], kind)
  }

  function Position(queue: seq<Invocation>, id: nat): (i: nat)
    ensures i <= |queue|
    ensures i < |queue| ==> queue[i].id == id
    ensures forall k :: 0 <= k < i ==> queue[k].id != id
  {
    if queue == [] then 0 else if queue[0].id == id then 0 else 1 + Position(queue[1..], id)
  }

  function RemoveAt(queue: seq<Invocation>, i: nat): seq<Invocation>
    requires i < |queue|
  {
    queue[..i] + queue[i + 1..]
  }

  function CancelByType(m: Machine, kind: InvocationType): Machine {
    var i := FirstPending(m.queue, kind);
    if i == |m.queue| then m
    else m.(queue := RemoveAt(m.queue, i), log := m.log + [Removed(m.queue[i].id)])
  }

  function Enqueue(m: Machine, kind: InvocationType, context: Context): Machine {
    m.(queue := m.queue + [Invocation(m.nextId, kind, Created, context)],
       nextId := m.nextId + 1,
       log := m.log + [Enqueued(m.nextId, kind)])
  }

  function EnqueueSome(m: Machine, kind: Option<InvocationType>, context: Context): Machine {
    if kind.None? then m else Enqueue(m, kind.value, context)
  }

  // ---------- events ----------

  /** What the caller of a transition runs next. */
  datatype Trigger = Nothing | Next | Run(id: nat)

  /** Allocating the state to enter drops an outdated request of the same type. */
  function DropOutdated(m: Machine, target: StateType): Machine {
    var request := OnEnter(target);
    if request.None? then m else CancelByType(m, request.value)
  }

  /** The transition's invocations: the emission first, then the cancel of the
      state being left, then the request of the state being entered. The cancel
      carries the context of the state being left. */
  function Append(m: Machine, emission: Option<InvocationType>, target: StateType, context: Context): Machine {
    var leaving := if m.context.Some? then m.context.value else context;
    EnqueueSome(
      EnqueueSome(
        EnqueueSome(m, emission, context),
        OnExit(m.state), leaving),
      OnEnter(target), context)
  }

  function Handle(m: Machine, event: Event): (Machine, Trigger) {
    var context := EventContext(m.context, event);
    var decision := Decide(m.state, event, context);
    if decision.target.None? then
      (m, Nothing)
    else
      var target := decision.target.value;
      var dropped := DropOutdated(
        if decision.status.Some? then m.(status := decision.status.value) else m, target);
      var appended := Append(dropped, decision.emission, target, context);
      var entered := appended.(
        state := target,
        context := if target == Unsubscribed then None else Some(context),
        log := appended.log + [Moved(event, m.state, target)]);
      var trigger :=
        if |appended.queue| == |dropped.queue| then Nothing
        else if appended.queue[|dropped.queue|].Immediate() then Run(dropped.nextId)
        else Next;
      (entered, trigger)
  }

  // ---------- effects ----------

  datatype Progress = Stop | Continue | ContinueThenFail(reason: int)

  /** The effect ran and asked to be run again later. */
  function Pause(m: Machine, i: nat): Machine
    requires i < |m.queue|
  {
    m.(log := m.log + [Started(m.queue[i].id)] + [Paused(m.queue[i].id)])
  }

  /** The effect ran to its end: the invocation leaves the queue. */
  function Finish(m: Machine, i: nat, done: Option<Entry>): Machine
    requires i < |m.queue|
  {
    var invocation := m.queue[i];
    var started := m.log + [Started(invocation.id)];
    m.(queue := RemoveAt(m.queue, i),
       log := (if done.Some? then started + [done.value] else started) + [Finished(invocation.id, invocation.kind)])
  }

  /** The cancel was started and its end is reported by a later callback. */
  function Wait(m: Machine, i: nat): Machine
    requires i < |m.queue|
  {
    var invocation := m.queue[i];
    m.(queue := m.queue[i := invocation.(status := Running)],
       cancelInvocation := Some(invocation.id),
       log := m.log + [Started(invocation.id)] + [Waiting(invocation.id)])
  }

  function CancelEffect(m: Machine, i: nat, answer: Answer): (Machine, Progress)
    requires i < |m.queue|
  {
    if m.transaction != NoTransaction then (Pause(m, i), Stop)
    else if answer.cancelFinished then (Finish(m, i, None), Continue)
    else (Wait(m, i), Stop)
  }

  function SubscribeEffect(m: Machine, i: nat, answer: Answer): (Machine, Progress)
    requires i < |m.queue|
  {
    var invocation := m.queue[i];
    var context := invocation.context;
    if m.transaction != NoTransaction then
      (Pause(m, i), Stop)
    else if context.sendHeartbeat then
      if !answer.canStart then
        (Pause(m, i), Stop)
      else
        var sent := invocation.(context := context.(sendHeartbeat := false));
        (Pause(m.(queue := m.queue[i := sent], transaction := HeartbeatTransaction), i), Stop)
    else
      match answer.request
      case InProgress => (Pause(m, i), Stop)
      case Sent => (Finish(m, i, Some(Requested(invocation.kind, context))), Continue)
      case Refused(reason) =>
        (Finish(m, i, Some(Requested(invocation.kind, context))), ContinueThenFail(reason))
  }

  function Attempt(m: Machine, i: nat, answer: Answer): (Machine, Progress)
    requires i < |m.queue|
  {
    match m.queue[i].kind
    case EmitStatus => (Finish(m, i, Some(Reported(m.status))), Continue)
    case EmitMessage => (Finish(m, i, None), Continue)
    case Cancel => CancelEffect(m, i, answer)
    case Handshake => SubscribeEffect(m, i, answer)
    case Receive => SubscribeEffect(m, i, answer)
  }

  /** 1 while a refused subscribe call still turns into a failure event. */
  function Live(state: StateType): nat {
    if OnEnter(state).Some? then 1 else 0
  }

  function FailureOf(state: StateType, reason: int): Event
    requires Live(state) == 1
  {
    if state == Handshaking then HandshakeFailure(reason) else ReceiveFailure(reason)
  }

  lemma AttemptStays(m: Machine, i: nat, answer: Answer)
    requires i < |m.queue|
    ensures Attempt(m, i, answer).0.state == m.state
    ensures |Attempt(m, i, answer).0.queue| <= |m.queue|
    ensures !Attempt(m, i, answer).1.Stop? ==> |Attempt(m, i, answer).0.queue| < |m.queue|
  {
  }

  lemma FailureEnds(m: Machine, reason: int)
    requires Live(m.state) == 1
    ensures Live(Handle(m, FailureOf(m.state, reason)).0.state) == 0
  {
  }

  /** Runs the triggered invocation and then, as the source's nested calls do,
      everything behind it until an invocation pauses, waits, or the queue is
      empty. */
  function Drive(m: Machine, trigger: Trigger, world: World): (r: Machine)
    ensures Live(r.state) <= Live(m.state)
    decreases Live(m.state), |m.queue|, if trigger.Next? then 1 else 0
  {
    match trigger
    case Nothing => m
    case Next => if |m.queue| == 0 then m else Drive(m, Run(m.queue[0].id), world)
    case Run(id) =>
      var i := Position(m.queue, id);
      if i == |m.queue| || m.queue[i].status != Created then
        m
      else
        AttemptStays(m, i, world(|m.log|));
        var (ran, progress) := Attempt(m, i, world(|m.log|));
        match progress
        case Stop => ran
        case Continue => Drive(ran, Next, world)
        case ContinueThenFail(reason) =>
          var behind := Drive(ran, Next, world);
          if Live(behind.state) == 0 then behind
          else
            FailureEnds(behind, reason);
            var (failed, next) := Handle(behind, FailureOf(behind.state, reason));
            Drive(failed, next, world)
  }

  function HandleEvent(m: Machine, event: Event, world: World): Machine {
    var (entered, trigger) := Handle(m, event);
    Drive(entered, trigger, world)
  }

  // ---------- entry points ----------

  datatype CallbackTransaction = SubscribeDone | HeartbeatDone | LeaveDone | OtherDone
  datatype CallbackResult = ResultOk | ResultCancelled | ResultFailed(reason: int)

  /** Everything a client or the network can make the engine do. */
  datatype Call =
    | Subscribe(channels: Option<string>, groups: Option<string>, from: Option<Cursor>)
    | Unsubscribe(leaveChannels: string, leaveGroups: string, canStart: bool,
                  channels: Option<string>, groups: Option<string>)
    | UnsubscribeEverything(leftChannels: string, leftGroups: string, leaveNow: bool)
    | DisconnectCall
    | ReconnectCall(cursor: Cursor)
    | Callback(transaction: CallbackTransaction, result: CallbackResult, cursor: Cursor)

  /** A cursor whose timetoken starts with '0' asks for nothing old. */
  function SubscribeEvent(channels: Option<string>, groups: Option<string>, from: Option<Cursor>): Event {
    if from.Some? && (from.value.timetoken == "" || from.value.timetoken[0] != '0') then
      SubscriptionRestored(channels, groups, from.value, false)
    else
      SubscriptionChanged(channels, groups, false)
  }

  /** Leave now, or remember what to leave until the wire is free. */
  function Leave(m: Machine, channels: string, groups: string, canStart: bool): Machine {
    if channels == "" && groups == "" then m
    else if canStart then m.(transaction := LeaveTransaction)
    else m.(leaveChannels := if channels == "" then m.leaveChannels else m.leaveChannels + [channels],
            leaveGroups := if groups == "" then m.leaveGroups else m.leaveGroups + [groups])
  }

  /** The callback's end of a cancel that was waiting. */
  function FinishCancel(m: Machine): Machine {
    if m.cancelInvocation.None? then m
    else
      var i := Position(m.queue, m.cancelInvocation.value);
      if i == |m.queue| || m.queue[i].status != Running then m.(cancelInvocation := None)
      else m.(queue := RemoveAt(m.queue, i),
              cancelInvocation := None,
              log := m.log + [Finished(m.queue[i].id, m.queue[i].kind)])
  }

  function OutcomeEvent(m: Machine, result: CallbackResult, cursor: Cursor): Option<Event> {
    var reason := match result case ResultOk => RESULT_OK case ResultCancelled => RESULT_CANCELLED case ResultFailed(r) => r;
    match m.state
    case Handshaking => Some(if result.ResultOk? then HandshakeSuccess(cursor) else HandshakeFailure(reason))
    case Receiving => Some(if result.ResultOk? then ReceiveSuccess(cursor) else ReceiveFailure(reason))
    case _ => None
  }

  const RESULT_CANCELLED: int := 15

  function Outcome(m: Machine, result: CallbackResult, cursor: Cursor, world: World): Machine {
    var event := OutcomeEvent(m, result, cursor);
    if event.None? then m else HandleEvent(m, event.value, world)
  }

  function OnCallback(m: Machine, transaction: CallbackTransaction, result: CallbackResult, cursor: Cursor, world: World): Machine {
    var freed := transaction.HeartbeatDone? || transaction.LeaveDone?;
    if !freed && !result.ResultCancelled? then
      Outcome(m, result, cursor, world)
    else
      var completed := FinishCancel(m);
      var idle := if freed then completed.(transaction := NoTransaction) else completed;
      if idle.leaveChannels != [] || idle.leaveGroups != [] then
        if idle.transaction != NoTransaction then idle
        else idle.(leaveChannels := [], leaveGroups := [], transaction := LeaveTransaction)
      else if idle.queue != [] then
        Drive(idle, Next, world)
      else
        Outcome(idle, result, cursor, world)
  }

  function Apply(m: Machine, call: Call, world: World): Machine {
    match call
    case Subscribe(channels, groups, from) =>
      HandleEvent(m, SubscribeEvent(channels, groups, from), world)
    case Unsubscribe(leaveChannels, leaveGroups, canStart, channels, groups) =>
      HandleEvent(Leave(m, leaveChannels, leaveGroups, canStart), SubscriptionChanged(channels, groups, true), world)
    case UnsubscribeEverything(channels, groups, canStart) =>
      if channels == "" && groups == "" then m
      else HandleEvent(Leave(m, channels, groups, canStart), UnsubscribeAll(Some(channels), Some(groups)), world)
    case DisconnectCall =>
      if Live(m.state) == 1 then HandleEvent(m, Disconnect, world) else m
    case ReconnectCall(cursor) =>
      if m.state == Unsubscribed || Live(m.state) == 1 then m else HandleEvent(m, Reconnect(cursor), world)
    case Callback(transaction, result, cursor) =>
      OnCallback(m, transaction, result, cursor, world)
  }

  /** A whole run: any calls, in any order, against any environment. */
  function Execute(m: Machine, calls: seq<Call>, world: World): Machine {
    if calls == [] then m else Apply(Execute(m, calls[..|calls| - 1], world), calls[|calls| - 1], world)
  }
}
