/** Where each event leads: for every state and every event, the state entered, its
    context, the status stored and the invocations queued, written out event by event. */
module SubscribeMoves {
  import opened Common
  import opened SubscribeTypes
  import opened SubscribeTransitions
  import opened SubscribeMachine
  import opened SubscribeInvariants
  import Facts = SubscribeFacts

  // ---------- the shape of a move ----------

  /** A queue without the invocations of one kind. */
  function Others(queue: seq<Invocation>, kind: InvocationType): seq<Invocation> {
    if queue == [] then []
    else (if queue[0].kind == kind then [] else [queue[0]]) + Others(queue[1..], kind)
  }

  datatype Task = Task(kind: InvocationType, context: Context)

  /** Tasks as they are queued, numbered from `id`. */
  function Fresh(id: nat, tasks: seq<Task>): seq<Invocation>
    decreases tasks
  {
    if tasks == [] then []
    else [Invocation(id, tasks[0].kind, Created, tasks[0].context)] + Fresh(id + 1, tasks[1..])
  }

  /** A cancel in front runs at once, anything else when its turn comes. */
  function RunsNext(id: nat, tasks: seq<Task>): Trigger {
    if tasks == [] then Nothing
    else if tasks[0].kind == Cancel then Run(id)
    else Next
  }

  /** What `event` does: the new state, its context and status, and the queue as what
      was kept of it with the new ones behind. */
  ghost predicate Leads(m: Machine, event: Event, state: StateType, context: Option<Context>,
                        status: SubscriptionStatus, kept: seq<Invocation>, tasks: seq<Task>)
  {
    Handle(m, event) ==
      (m.(state := state, context := context, status := status, queue := kept + Fresh(m.nextId, tasks),
          nextId := m.nextId + |tasks|, log := Handle(m, event).0.log),
       RunsNext(m.nextId, tasks))
  }

  ghost predicate Ignores(m: Machine, event: Event) {
    Handle(m, event) == (m, Nothing)
  }

  /** What the lemmas need of a reachable machine. */
  predicate Sound(m: Machine) {
    QueueOrdered(m) && SingleRequests(m) && (m.context.None? <==> m.state == Unsubscribed)
  }

  lemma {:induction false} NoneOfKind(queue: seq<Invocation>, kind: InvocationType)
    requires forall k :: 0 <= k < |queue| ==> queue[k].kind != kind
    ensures Others(queue, kind) == queue
  {
    if queue != [] {
      NoneOfKind(queue[1..], kind);
    }
  }

  lemma {:induction false} OthersAt(queue: seq<Invocation>, kind: InvocationType, i: nat)
    requires i < |queue| && queue[i].kind == kind
    requires forall k :: 0 <= k < |queue| && k != i ==> queue[k].kind != kind
    ensures Others(queue, kind) == RemoveAt(queue, i)
  {
    if i == 0 {
      NoneOfKind(queue[1..], kind);
    } else {
      OthersAt(queue[1..], kind, i - 1);
    }
  }

  /** Removing the first pending request removes the only one. */
  lemma CancelIsOthers(m: Machine, kind: InvocationType)
    requires QueueOrdered(m) && SingleRequests(m) && (kind == Handshake || kind == Receive)
    ensures CancelByType(m, kind).queue == Others(m.queue, kind)
  {
    hide Others;
    var i := FirstPending(m.queue, kind);
    if i == |m.queue| {
      NoneOfKind(m.queue, kind);
    } else {
      OthersAt(m.queue, kind, i);
    }
  }

  function Maybe(kind: Option<InvocationType>, context: Context): seq<Task> {
    if kind.None? then [] else [Task(kind.value, context)]
  }

  lemma FreshUnfold(id: nat, first: Task, rest: seq<Task>)
    ensures Fresh(id, [first] + rest) == [Invocation(id, first.kind, Created, first.context)] + Fresh(id + 1, rest)
  {
    assert ([first] + rest)[1..] == rest;
  }

  lemma {:induction false} FreshAppend(id: nat, a: seq<Task>, b: seq<Task>)
    ensures |Fresh(id, a)| == |a|
    ensures Fresh(id, a + b) == Fresh(id, a) + Fresh(id + |a|, b)
    decreases a
  {
    if a == [] {
      assert a + b == b;
    } else {
      hide Fresh;
      var first, rest := a[0], a[1..];
      assert a == [first] + rest && a + b == [first] + (rest + b);
      FreshUnfold(id, first, rest);
      FreshUnfold(id, first, rest + b);
      FreshAppend(id + 1, rest, b);
    }
  }

  lemma EnqueuesMaybe(m: Machine, kind: Option<InvocationType>, context: Context)
    ensures var r := EnqueueSome(m, kind, context); var tasks := Maybe(kind, context);
      r == m.(queue := m.queue + Fresh(m.nextId, tasks), nextId := m.nextId + |tasks|, log := r.log)
  {
    if kind.None? {
      assert m.queue + Fresh(m.nextId, []) == m.queue;
    } else {
      assert Fresh(m.nextId, Maybe(kind, context)) == [Invocation(m.nextId, kind.value, Created, context)];
    }
  }

  function Tasks(m: Machine, emission: Option<InvocationType>, target: StateType, context: Context): seq<Task> {
    var leaving := if m.context.Some? then m.context.value else context;
    Maybe(emission, context) + Maybe(OnExit(m.state), leaving) + Maybe(OnEnter(target), context)
  }

  lemma AppendsTasks(m: Machine, emission: Option<InvocationType>, target: StateType, context: Context)
    ensures var r := Append(m, emission, target, context); var tasks := Tasks(m, emission, target, context);
      r == m.(queue := m.queue + Fresh(m.nextId, tasks), nextId := m.nextId + |tasks|, log := r.log)
  {
    hide EnqueueSome, Maybe, Fresh, OnExit, OnEnter;
    var leaving := if m.context.Some? then m.context.value else context;
    var a := EnqueueSome(m, emission, context);
    var b := EnqueueSome(a, OnExit(m.state), leaving);
    EnqueuesMaybe(m, emission, context);
    EnqueuesMaybe(a, OnExit(m.state), leaving);
    EnqueuesMaybe(b, OnEnter(target), context);
    var x, y, z := Maybe(emission, context), Maybe(OnExit(m.state), leaving), Maybe(OnEnter(target), context);
    FreshAppend(m.nextId, x, y);
    FreshAppend(m.nextId, x + y, z);
    assert m.queue + Fresh(m.nextId, x) + Fresh(m.nextId + |x|, y) + Fresh(m.nextId + |x| + |y|, z) ==
      m.queue + Fresh(m.nextId, x + y + z);
  }

  function Kept(m: Machine, target: StateType): seq<Invocation> {
    match target
    case Handshaking => Others(m.queue, Handshake)
    case Receiving => Others(m.queue, Receive)
    case _ => m.queue
  }

  lemma DropsOthers(m: Machine, target: StateType)
    requires QueueOrdered(m) && SingleRequests(m)
    ensures var r := DropOutdated(m, target); r == m.(queue := Kept(m, target), log := r.log)
  {
    hide Others;
    if target == Handshaking {
      CancelIsOthers(m, Handshake);
    }
    if target == Receiving {
      CancelIsOthers(m, Receive);
    }
  }

  lemma FirstTask(id: nat, kept: seq<Invocation>, tasks: seq<Task>)
    ensures |kept + Fresh(id, tasks)| == |kept| <==> tasks == []
    ensures tasks != [] ==> (kept + Fresh(id, tasks))[|kept|] == Invocation(id, tasks[0].kind, Created, tasks[0].context)
  {
    FreshAppend(id, tasks, []);
  }

  lemma Moves(m: Machine, event: Event, target: StateType, status: Option<SubscriptionStatus>, emission: Option<InvocationType>,
              context: Context, tasks: seq<Task>)
    requires Sound(m) && context == EventContext(m.context, event)
    requires Decide(m.state, event, context) == Decision(Some(target), status, emission)
    requires tasks == Tasks(m, emission, target, context)
    ensures Leads(m, event, target, if target == Unsubscribed then None else Some(context),
                  if status.Some? then status.value else m.status, Kept(m, target), tasks)
  {
    hide Decide, EventContext, DropOutdated, Append, Fresh, Tasks, Kept;
    var stored := if status.Some? then m.(status := status.value) else m;
    DropsOthers(stored, target);
    SameKept(m, stored, target);
    var dropped := DropOutdated(stored, target);
    AppendsTasks(dropped, emission, target, context);
    SameTasks(m, dropped, emission, target, context);
    FirstTask(m.nextId, Kept(m, target), tasks);
  }

  lemma SameKept(m: Machine, n: Machine, target: StateType)
    requires m.queue == n.queue
    ensures Kept(m, target) == Kept(n, target)
  {
  }

  lemma SameTasks(m: Machine, n: Machine, emission: Option<InvocationType>, target: StateType, context: Context)
    requires m.state == n.state && m.context == n.context
    ensures Tasks(m, emission, target, context) == Tasks(n, emission, target, context)
  {
  }

  // ---------- a paused subscription ----------

  predicate Failed(state: StateType) { state == HandshakeFailed || state == ReceiveFailed }
  predicate Stopped(state: StateType) { state == HandshakeStopped || state == ReceiveStopped }

  /** The state's own subscription, without an error and with nothing to announce. */
  function Renewed(m: Machine): Context
    requires m.context.Some?
  {
    m.context.value.(reason := 0, sendHeartbeat := false)
  }

  /** RECONNECT resumes from every failed or stopped state, from the given cursor and
      with the remembered lists; elsewhere it does nothing. */
  lemma ReconnectResumes(m: Machine, cursor: Cursor)
    requires Sound(m)
    ensures Failed(m.state) || Stopped(m.state) ==>
      var context := Renewed(m).(cursor := cursor);
      Leads(m, Reconnect(cursor), Handshaking, Some(context), m.status, Others(m.queue, Handshake), [Task(Handshake, context)])
    ensures !Failed(m.state) && !Stopped(m.state) ==> Ignores(m, Reconnect(cursor))
  {
    hide Leads, Others;
    if Failed(m.state) || Stopped(m.state) {
      var context := Renewed(m).(cursor := cursor);
      Moves(m, Reconnect(cursor), Handshaking, None, None, context, [Task(Handshake, context)]);
    }
  }

  /** DISCONNECT stops a live state, and an established subscription is reported. */
  lemma DisconnectStops(m: Machine)
    requires Sound(m)
    ensures m.state == Handshaking ==>
      Leads(m, Disconnect, HandshakeStopped, Some(Renewed(m)), m.status, m.queue, [Task(Cancel, m.context.value)])
    ensures m.state == Receiving ==>
      Leads(m, Disconnect, ReceiveStopped, Some(Renewed(m)), Disconnected, m.queue,
            [Task(EmitStatus, Renewed(m)), Task(Cancel, m.context.value)])
    ensures m.state != Handshaking && m.state != Receiving ==> Ignores(m, Disconnect)
  {
    hide Leads;
    if m.state == Handshaking {
      Moves(m, Disconnect, HandshakeStopped, None, None, Renewed(m), [Task(Cancel, m.context.value)]);
    } else if m.state == Receiving {
      Moves(m, Disconnect, ReceiveStopped, Some(Disconnected), Some(EmitStatus), Renewed(m),
            [Task(EmitStatus, Renewed(m)), Task(Cancel, m.context.value)]);
    }
  }

  // ---------- how a call went ----------

  /** A handshake that succeeds connects and starts receiving at its cursor; one that
      fails keeps the cursor and the reason. Only HANDSHAKING listens. */
  lemma HandshakeEnds(m: Machine, cursor: Cursor, reason: int)
    requires Sound(m)
    ensures m.state == Handshaking ==>
      var context := Renewed(m).(cursor := cursor);
      Leads(m, HandshakeSuccess(cursor), Receiving, Some(context), Connected, Others(m.queue, Receive),
            [Task(EmitStatus, context), Task(Cancel, m.context.value), Task(Receive, context)])
    ensures m.state == Handshaking ==>
      var context := Renewed(m).(reason := reason);
      Leads(m, HandshakeFailure(reason), HandshakeFailed, Some(context), ConnectionError, m.queue,
            [Task(EmitStatus, context), Task(Cancel, m.context.value)])
    ensures m.state != Handshaking ==> Ignores(m, HandshakeSuccess(cursor)) && Ignores(m, HandshakeFailure(reason))
  {
    hide Leads, Others;
    if m.state == Handshaking {
      var moved, failed := Renewed(m).(cursor := cursor), Renewed(m).(reason := reason);
      Moves(m, HandshakeSuccess(cursor), Receiving, Some(Connected), Some(EmitStatus), moved,
            [Task(EmitStatus, moved), Task(Cancel, m.context.value), Task(Receive, moved)]);
      Moves(m, HandshakeFailure(reason), HandshakeFailed, Some(ConnectionError), Some(EmitStatus), failed,
            [Task(EmitStatus, failed), Task(Cancel, m.context.value)]);
    }
  }

  /** A long poll that succeeds delivers its messages and polls again from its cursor;
      one that fails keeps the cursor and the reason. Only RECEIVING listens. */
  lemma ReceiveEnds(m: Machine, cursor: Cursor, reason: int)
    requires Sound(m)
    ensures m.state == Receiving ==>
      var context := Renewed(m).(cursor := cursor);
      Leads(m, ReceiveSuccess(cursor), Receiving, Some(context), m.status, Others(m.queue, Receive),
            [Task(EmitMessage, context), Task(Cancel, m.context.value), Task(Receive, context)])
    ensures m.state == Receiving ==>
      var context := Renewed(m).(reason := reason);
      Leads(m, ReceiveFailure(reason), ReceiveFailed, Some(context), DisconnectedUnexpectedly, m.queue,
            [Task(EmitStatus, context), Task(Cancel, m.context.value)])
    ensures m.state != Receiving ==> Ignores(m, ReceiveSuccess(cursor)) && Ignores(m, ReceiveFailure(reason))
  {
    hide Leads, Others;
    if m.state == Receiving {
      var moved, failed := Renewed(m).(cursor := cursor), Renewed(m).(reason := reason);
      Moves(m, ReceiveSuccess(cursor), Receiving, None, Some(EmitMessage), moved,
            [Task(EmitMessage, moved), Task(Cancel, m.context.value), Task(Receive, moved)]);
      Moves(m, ReceiveFailure(reason), ReceiveFailed, Some(DisconnectedUnexpectedly), Some(EmitStatus), failed,
            [Task(EmitStatus, failed), Task(Cancel, m.context.value)]);
    }
  }

  // ---------- the lists ----------

  predicate Given(list: Option<string>) {
    list.Some? && |list.value| > 0
  }

  /** UNSUBSCRIBE_ALL ends every subscription; what was on the wire is cancelled and an
      established subscription is reported with the lists that were given up. */
  lemma UnsubscribeAllEnds(m: Machine, channels: Option<string>, groups: Option<string>)
    requires Sound(m)
    ensures m.state == Handshaking ==>
      Leads(m, UnsubscribeAll(channels, groups), Unsubscribed, None, m.status, m.queue, [Task(Cancel, m.context.value)])
    ensures m.state == Receiving ==>
      var context := Context(if Given(channels) then channels else m.context.value.channels,
                             if Given(groups) then groups else m.context.value.groups,
                             m.context.value.cursor, 0, false);
      Leads(m, UnsubscribeAll(channels, groups), Unsubscribed, None, Disconnected, m.queue,
            [Task(EmitStatus, context), Task(Cancel, m.context.value)])
    ensures Failed(m.state) || Stopped(m.state) ==>
      Leads(m, UnsubscribeAll(channels, groups), Unsubscribed, None, m.status, m.queue, [])
    ensures m.state == Unsubscribed ==> Ignores(m, UnsubscribeAll(channels, groups))
  {
    hide Leads;
    var event := UnsubscribeAll(channels, groups);
    var context := EventContext(m.context, event);
    if m.state == Receiving {
      Moves(m, event, Unsubscribed, Some(Disconnected), Some(EmitStatus), context,
            [Task(EmitStatus, context), Task(Cancel, m.context.value)]);
    } else if m.state == Handshaking {
      Moves(m, event, Unsubscribed, None, None, context, [Task(Cancel, m.context.value)]);
    } else if m.state != Unsubscribed {
      Moves(m, event, Unsubscribed, None, None, context, []);
    }
  }

  /** A changed subscription goes on from where it was, a restored one from its cursor. */
  function Asked(m: Machine, channels: Option<string>, groups: Option<string>, cursor: Option<Cursor>, sentByEngine: bool): Context {
    Context(if Given(channels) then channels else None,
            if Given(groups) then groups else None,
            if cursor.Some? then cursor.value
            else if m.context.Some? then m.context.value.cursor
            else Cursor("0", 0),
            0, !sentByEngine)
  }

  function Change(channels: Option<string>, groups: Option<string>, cursor: Option<Cursor>, sentByEngine: bool): Event {
    if cursor.Some? then SubscriptionRestored(channels, groups, cursor.value, sentByEngine)
    else SubscriptionChanged(channels, groups, sentByEngine)
  }

  lemma ChangeAsks(m: Machine, channels: Option<string>, groups: Option<string>, cursor: Option<Cursor>, sentByEngine: bool)
    ensures var context := Asked(m, channels, groups, cursor, sentByEngine);
      EventContext(m.context, Change(channels, groups, cursor, sentByEngine)) == context &&
      (NothingToSubscribe(context) <==> !Given(channels) && !Given(groups))
  {
  }

  /** A change in a live state drops the request on its way there, cancels the call and
      asks again with the new lists; an established subscription reports the change. */
  lemma ChangeWhileLive(m: Machine, channels: Option<string>, groups: Option<string>, cursor: Option<Cursor>, sentByEngine: bool)
    requires Sound(m) && (m.state == Handshaking || m.state == Receiving)
    requires Given(channels) || Given(groups) || (m.state == Handshaking && cursor.Some?)
    ensures var event, context := Change(channels, groups, cursor, sentByEngine), Asked(m, channels, groups, cursor, sentByEngine);
      if m.state == Handshaking then
        Leads(m, event, Handshaking, Some(context), m.status, Others(m.queue, Handshake),
              [Task(Cancel, m.context.value), Task(Handshake, context)])
      else
        Leads(m, event, Receiving, Some(context), SubscriptionChangedStatus, Others(m.queue, Receive),
              [Task(EmitStatus, context), Task(Cancel, m.context.value), Task(Receive, context)])
  {
    hide Leads, Others, EventContext, NothingToSubscribe, Asked, Given;
    var event, context := Change(channels, groups, cursor, sentByEngine), Asked(m, channels, groups, cursor, sentByEngine);
    ChangeAsks(m, channels, groups, cursor, sentByEngine);
    if m.state == Handshaking {
      Moves(m, event, Handshaking, None, None, context, [Task(Cancel, m.context.value), Task(Handshake, context)]);
    } else {
      Moves(m, event, Receiving, Some(SubscriptionChangedStatus), Some(EmitStatus), context,
            [Task(EmitStatus, context), Task(Cancel, m.context.value), Task(Receive, context)]);
    }
  }

  /** Asking for nothing ends a live subscription and one that failed to start. */
  lemma ChangeToNothing(m: Machine, channels: Option<string>, groups: Option<string>, cursor: Option<Cursor>, sentByEngine: bool)
    requires Sound(m) && !Given(channels) && !Given(groups)
    ensures var event, context := Change(channels, groups, cursor, sentByEngine), Asked(m, channels, groups, cursor, sentByEngine);
      (m.state == Handshaking && cursor.None? ==>
         Leads(m, event, Unsubscribed, None, m.status, m.queue, [Task(Cancel, m.context.value)])) &&
      (m.state == HandshakeFailed ==> Leads(m, event, Unsubscribed, None, m.status, m.queue, [])) &&
      (m.state == Receiving ==>
         Leads(m, event, Unsubscribed, None, Disconnected, m.queue,
               [Task(EmitStatus, context), Task(Cancel, m.context.value)]))
  {
    hide Leads, EventContext, NothingToSubscribe, Asked, Given;
    var event, context := Change(channels, groups, cursor, sentByEngine), Asked(m, channels, groups, cursor, sentByEngine);
    ChangeAsks(m, channels, groups, cursor, sentByEngine);
    if m.state == Receiving {
      Moves(m, event, Unsubscribed, Some(Disconnected), Some(EmitStatus), context,
            [Task(EmitStatus, context), Task(Cancel, m.context.value)]);
    } else if m.state == HandshakeFailed {
      Moves(m, event, Unsubscribed, None, None, context, []);
    } else if m.state == Handshaking && cursor.None? {
      Moves(m, event, Unsubscribed, None, None, context, [Task(Cancel, m.context.value)]);
    }
  }

  /** A change while stopped is remembered and queues nothing. */
  lemma ChangeWhileStopped(m: Machine, channels: Option<string>, groups: Option<string>, cursor: Option<Cursor>, sentByEngine: bool)
    requires Sound(m) && Stopped(m.state)
    ensures var event, context := Change(channels, groups, cursor, sentByEngine), Asked(m, channels, groups, cursor, sentByEngine);
      Leads(m, event, m.state, Some(context), m.status, m.queue, [])
  {
    hide Leads, EventContext, NothingToSubscribe, Asked, Given;
    var event, context := Change(channels, groups, cursor, sentByEngine), Asked(m, channels, groups, cursor, sentByEngine);
    ChangeAsks(m, channels, groups, cursor, sentByEngine);
    Moves(m, event, m.state, None, None, context, []);
  }

  /** Every other change starts a handshake. UNSUBSCRIBED and RECEIVE_FAILED start one
      even when nothing is asked for. */
  lemma ChangeStarts(m: Machine, channels: Option<string>, groups: Option<string>, cursor: Option<Cursor>, sentByEngine: bool)
    requires Sound(m)
    requires m.state == Unsubscribed || m.state == ReceiveFailed ||
      (m.state == HandshakeFailed && (Given(channels) || Given(groups)))
    ensures var event, context := Change(channels, groups, cursor, sentByEngine), Asked(m, channels, groups, cursor, sentByEngine);
      Leads(m, event, Handshaking, Some(context), m.status, Others(m.queue, Handshake), [Task(Handshake, context)])
  {
    hide Leads, Others, EventContext, NothingToSubscribe, Asked, Given;
    var event, context := Change(channels, groups, cursor, sentByEngine), Asked(m, channels, groups, cursor, sentByEngine);
    ChangeAsks(m, channels, groups, cursor, sentByEngine);
    Moves(m, event, Handshaking, None, None, context, [Task(Handshake, context)]);
  }
}
