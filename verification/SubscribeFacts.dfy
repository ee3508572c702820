/** What every call keeps about requests, statuses, contexts and cancels. */
module SubscribeFacts {
  import opened Common
  import opened SubscribeTypes
  import opened SubscribeTransitions
  import opened SubscribeMachine
  import opened SubscribeLog
  import opened SubscribeInvariants

  lemma Bookkeeping(log: seq<Entry>, entry: Entry)
    requires entry.Enqueued? || entry.Removed? || entry.Started? || entry.Paused?
    ensures StoryOf(log + [entry]) == StoryOf(log)
  {
    Push(log, entry);
  }

  predicate Present(queue: seq<Invocation>, invocation: Invocation) {
    exists k :: 0 <= k < |queue| && queue[k] == invocation
  }

  lemma RemovedPresent(queue: seq<Invocation>, i: nat, invocation: Invocation)
    requires i < |queue| && Present(queue, invocation) && invocation != queue[i]
    ensures Present(RemoveAt(queue, i), invocation)
  {
    var k :| 0 <= k < |queue| && queue[k] == invocation;
    assert RemoveAt(queue, i)[if k < i then k else k - 1] == invocation;
  }

  lemma RemovedFrom(queue: seq<Invocation>, i: nat)
    requires i < |queue|
    ensures |RemoveAt(queue, i)| == |queue| - 1
    ensures forall k :: 0 <= k < |queue| - 1 ==> RemoveAt(queue, i)[k] == queue[if k < i then k else k + 1]
  {
  }

  // ---------- one pending request of each type ----------

  predicate NoneOf(queue: seq<Invocation>, kind: InvocationType) {
    forall k :: 0 <= k < |queue| ==> queue[k].kind != kind
  }

  /** Removing the first match is enough. */
  lemma FirstMatchIsEnough(m: Machine, kind: InvocationType)
    requires QueueOrdered(m) && SingleRequests(m) && (kind == Handshake || kind == Receive)
    ensures NoneOf(CancelByType(m, kind).queue, kind) && SingleRequests(CancelByType(m, kind))
  {
    var i := FirstPending(m.queue, kind);
    if i < |m.queue| {
      RemovedFrom(m.queue, i);
    }
  }

  // ---------- what a handled event does to queue and log ----------

  function One(kind: Option<InvocationType>, id: nat, context: Context): seq<Invocation> {
    if kind.None? then [] else [Invocation(id, kind.value, Created, context)]
  }

  function Extra(m: Machine, emission: Option<InvocationType>, target: StateType, context: Context): seq<Invocation> {
    var leaving := if m.context.Some? then m.context.value else context;
    var first := One(emission, m.nextId, context);
    var second := One(OnExit(m.state), m.nextId + |first|, leaving);
    first + second + One(OnEnter(target), m.nextId + |first| + |second|, context)
  }

  lemma EnqueueSomeShape(m: Machine, kind: Option<InvocationType>, context: Context)
    ensures var r := EnqueueSome(m, kind, context);
      var one := One(kind, m.nextId, context);
      r == m.(queue := m.queue + one, nextId := m.nextId + |one|, log := r.log)
  {
    if kind.None? {
      assert m.queue + [] == m.queue;
    }
  }

  lemma EnqueueSomeStory(m: Machine, kind: Option<InvocationType>, context: Context)
    ensures StoryOf(EnqueueSome(m, kind, context).log) == StoryOf(m.log)
  {
    if kind.Some? {
      Bookkeeping(m.log, Enqueued(m.nextId, kind.value));
    }
  }

  lemma AppendStory(m: Machine, emission: Option<InvocationType>, target: StateType, context: Context)
    ensures StoryOf(Append(m, emission, target, context).log) == StoryOf(m.log)
  {
    var leaving := if m.context.Some? then m.context.value else context;
    var a := EnqueueSome(m, emission, context);
    var b := EnqueueSome(a, OnExit(m.state), leaving);
    EnqueueSomeStory(m, emission, context);
    EnqueueSomeStory(a, OnExit(m.state), leaving);
    EnqueueSomeStory(b, OnEnter(target), context);
  }

  lemma AppendShape(m: Machine, emission: Option<InvocationType>, target: StateType, context: Context)
    ensures var r := Append(m, emission, target, context);
      var extra := Extra(m, emission, target, context);
      r == m.(queue := m.queue + extra, nextId := m.nextId + |extra|, log := r.log)
  {
    hide StoryOf, EnqueueSome, One;
    var leaving := if m.context.Some? then m.context.value else context;
    var a := EnqueueSome(m, emission, context);
    EnqueueSomeShape(m, emission, context);
    var b := EnqueueSome(a, OnExit(m.state), leaving);
    EnqueueSomeShape(a, OnExit(m.state), leaving);
    EnqueueSomeShape(b, OnEnter(target), context);
    var first := One(emission, m.nextId, context);
    var second := One(OnExit(m.state), m.nextId + |first|, leaving);
    var third := One(OnEnter(target), m.nextId + |first| + |second|, context);
    assert m.queue + first + second + third == m.queue + (first + second + third);
  }

  lemma ExtraKinds(m: Machine, emission: Option<InvocationType>, target: StateType, context: Context)
    requires emission.Some? ==> emission.value == EmitStatus || emission.value == EmitMessage
    ensures var extra := Extra(m, emission, target, context);
      (forall k :: 0 <= k < |extra| ==> extra[k].status == Created) &&
      (emission == Some(EmitStatus) ==> EmissionQueued(extra)) &&
      (forall k :: 0 <= k < |extra| && (extra[k].kind == Handshake || extra[k].kind == Receive) ==>
         k == |extra| - 1 && OnEnter(target) == Some(extra[k].kind) && extra[k].context == context)
  {
    if emission == Some(EmitStatus) {
      assert Extra(m, emission, target, context)[0].kind == EmitStatus;
    }
  }

  lemma DropShape(m: Machine, target: StateType)
    requires QueueOrdered(m) && SingleRequests(m)
    ensures var r := DropOutdated(m, target);
      r == m.(queue := r.queue, log := r.log) &&
      StoryOf(r.log) == StoryOf(m.log) &&
      SingleRequests(r) &&
      (OnEnter(target).Some? ==> NoneOf(r.queue, OnEnter(target).value)) &&
      (forall k :: 0 <= k < |r.queue| ==> Present(m.queue, r.queue[k])) &&
      (forall k :: 0 <= k < |m.queue| && OnEnter(target) != Some(m.queue[k].kind) ==> Present(r.queue, m.queue[k]))
  {
    var request := OnEnter(target);
    if request.Some? {
      FirstMatchIsEnough(m, request.value);
      var i := FirstPending(m.queue, request.value);
      if i < |m.queue| {
        Bookkeeping(m.log, Removed(m.queue[i].id));
        RemovedFrom(m.queue, i);
        forall k | 0 <= k < |m.queue| && m.queue[k].kind != request.value
          ensures Present(RemoveAt(m.queue, i), m.queue[k])
        {
          RemovedPresent(m.queue, i, m.queue[k]);
        }
      }
    }
  }

  ghost predicate Facts(m: Machine) {
    SingleRequests(m) && ListenersServed(m) && Informed(m) && CancelsKnown(m)
  }

  /** The machine between dropping the outdated request and entering the state. */
  function Dropped(m: Machine, event: Event): Machine
    requires Decide(m.state, event, EventContext(m.context, event)).target.Some?
  {
    var decision := Decide(m.state, event, EventContext(m.context, event));
    DropOutdated(if decision.status.Some? then m.(status := decision.status.value) else m, decision.target.value)
  }

  lemma HandleShape(m: Machine, event: Event)
    requires QueueOrdered(m) && SingleRequests(m)
    requires Decide(m.state, event, EventContext(m.context, event)).target.Some?
    ensures var context := EventContext(m.context, event);
      var decision := Decide(m.state, event, context);
      var target := decision.target.value;
      var dropped := Dropped(m, event);
      var extra := Extra(dropped, decision.emission, target, context);
      var r := Handle(m, event).0;
      r.queue == dropped.queue + extra &&
      r.state == target &&
      r.context == (if target == Unsubscribed then None else Some(context)) &&
      r.status == (if decision.status.Some? then decision.status.value else m.status) &&
      r.cancelInvocation == m.cancelInvocation &&
      StoryOf(r.log) == StoryOf(m.log).Move(event, m.state, target)
  {
    var context := EventContext(m.context, event);
    var decision := Decide(m.state, event, context);
    var target := decision.target.value;
    var stored := if decision.status.Some? then m.(status := decision.status.value) else m;
    DropShape(stored, target);
    var dropped := Dropped(m, event);
    AppendShape(dropped, decision.emission, target, context);
    AppendStory(dropped, decision.emission, target, context);
    var quiet := Append(dropped, decision.emission, target, context).log;
    Push(quiet, Moved(event, m.state, target));
  }

  // ---------- a handled event ----------

  predicate Accepted(m: Machine, event: Event) {
    Decide(m.state, event, EventContext(m.context, event)).target.Some?
  }

  /** Everything the facts need to know about a handled event, in one place. */
  lemma HandleParts(m: Machine, event: Event)
    requires QueueOrdered(m) && SingleRequests(m) && Accepted(m, event)
    ensures var context := EventContext(m.context, event);
      var decision := Decide(m.state, event, context);
      var kept := Dropped(m, event).queue;
      var extra := Extra(Dropped(m, event), decision.emission, decision.target.value, context);
      SingleRequests(Dropped(m, event)) &&
      (OnEnter(decision.target.value).Some? ==> NoneOf(kept, OnEnter(decision.target.value).value)) &&
      (forall k :: 0 <= k < |kept| ==> Present(m.queue, kept[k])) &&
      (forall k :: 0 <= k < |m.queue| && OnEnter(decision.target.value) != Some(m.queue[k].kind) ==> Present(kept, m.queue[k])) &&
      (forall k :: 0 <= k < |extra| ==> extra[k].status == Created) &&
      (decision.emission == Some(EmitStatus) ==> EmissionQueued(extra)) &&
      (forall k :: 0 <= k < |extra| && (extra[k].kind == Handshake || extra[k].kind == Receive) ==>
         k == |extra| - 1 && OnEnter(decision.target.value) == Some(extra[k].kind) && extra[k].context == context)
  {
    var context := EventContext(m.context, event);
    var decision := Decide(m.state, event, context);
    DropShape(if decision.status.Some? then m.(status := decision.status.value) else m, decision.target.value);
    ExtraKinds(Dropped(m, event), decision.emission, decision.target.value, context);
  }

  lemma HandleSingle(m: Machine, event: Event)
    requires QueueOrdered(m) && SingleRequests(m) && Accepted(m, event)
    ensures SingleRequests(Handle(m, event).0)
  {
    hide StoryOf, Decide, EventContext, Handle, Extra, Dropped;
    HandleShape(m, event);
    HandleParts(m, event);
  }

  /** A status is stored exactly when its emission is requested, and it is the
      status the target state stands for. */
  lemma DecisionServed(state: StateType, event: Event, context: Context, status: SubscriptionStatus)
    requires StatusFits(state, status)
    ensures var decision := Decide(state, event, context);
      decision.target.Some? ==>
        (decision.status.Some? <==> decision.emission == Some(EmitStatus)) &&
        StatusFits(decision.target.value, if decision.status.Some? then decision.status.value else status)
  {
  }

  lemma StillEmitting(queue: seq<Invocation>, kept: seq<Invocation>, extra: seq<Invocation>)
    requires EmissionQueued(extra) ||
      (EmissionQueued(queue) && forall k :: 0 <= k < |queue| && queue[k].kind == EmitStatus ==> Present(kept, queue[k]))
    ensures EmissionQueued(kept + extra)
  {
    if EmissionQueued(extra) {
      var k :| 0 <= k < |extra| && extra[k].kind == EmitStatus;
      assert (kept + extra)[|kept| + k] == extra[k];
    } else {
      var k :| 0 <= k < |queue| && queue[k].kind == EmitStatus;
      var j :| 0 <= j < |kept| && kept[j] == queue[k];
      assert (kept + extra)[j] == kept[j];
    }
  }

  lemma HandleServed(m: Machine, event: Event)
    requires QueueOrdered(m) && SingleRequests(m) && ListenersServed(m) && Accepted(m, event)
    ensures ListenersServed(Handle(m, event).0)
  {
    hide StoryOf, Decide, EventContext, Handle, Extra, Dropped;
    var context := EventContext(m.context, event);
    var decision := Decide(m.state, event, context);
    var kept := Dropped(m, event).queue;
    var extra := Extra(Dropped(m, event), decision.emission, decision.target.value, context);
    HandleShape(m, event);
    HandleParts(m, event);
    DecisionServed(m.state, event, context, m.status);
    if decision.emission == Some(EmitStatus) || EmissionQueued(m.queue) {
      StillEmitting(m.queue, kept, extra);
    }
  }

  /** How the seven states treat the events that carry lists or a cursor. */
  lemma DecisionInformed(state: StateType, event: Event, context: Context)
    ensures var target := Decide(state, event, context).target;
      target.Some? ==>
        (state == Unsubscribed ==> event.SubscriptionChanged? || event.SubscriptionRestored?) &&
        (event.UnsubscribeAll? ==> target.value == Unsubscribed) &&
        (target.value == Receiving && state != Receiving ==> state == Handshaking && event.HandshakeSuccess?)
  {
  }

  /** The context an accepted event carries is the one the log then adds up to. */
  lemma ContextFollows(current: Option<Context>, story: Story, event: Event, target: StateType)
    requires current.None? <==> story.state == Unsubscribed
    requires current.Some? ==> story.Agrees(current.value)
    requires current.None? ==> story.cursor == DEFAULT_CURSOR && (event.SubscriptionChanged? || event.SubscriptionRestored?)
    requires event.UnsubscribeAll? ==> target == Unsubscribed
    requires target != Unsubscribed
    ensures story.Move(event, story.state, target).Agrees(EventContext(current, event))
  {
  }

  lemma RequestsFollow(story: Story, kept: seq<Invocation>, extra: seq<Invocation>, context: Context)
    requires OnEnter(story.state).Some? ==> NoneOf(kept, OnEnter(story.state).value) && story.Agrees(context)
    requires forall k :: 0 <= k < |extra| && story.Issued(extra[k].kind) ==> extra[k].context == context
    ensures forall k :: 0 <= k < |kept + extra| && story.Issued((kept + extra)[k].kind) ==> story.Agrees((kept + extra)[k].context)
  {
    forall k | 0 <= k < |kept + extra| && story.Issued((kept + extra)[k].kind) ensures story.Agrees((kept + extra)[k].context) {
      assert OnEnter(story.state) == Some((kept + extra)[k].kind);
      assert k >= |kept|;
      assert (kept + extra)[k] == extra[k - |kept|];
    }
  }

  lemma HandleInformed(m: Machine, event: Event)
    requires QueueOrdered(m) && SingleRequests(m) && Informed(m) && Accepted(m, event)
    ensures Informed(Handle(m, event).0)
  {
    var context := EventContext(m.context, event);
    var decision := Decide(m.state, event, context);
    var target := decision.target.value;
    var kept := Dropped(m, event).queue;
    var extra := Extra(Dropped(m, event), decision.emission, target, context);
    HandleShape(m, event);
    HandleParts(m, event);
    DecisionInformed(m.state, event, context);
    if target != Unsubscribed {
      ContextFollows(m.context, StoryOf(m.log), event, target);
    }
    RequestsFollow(StoryOf(m.log).Move(event, m.state, target), kept, extra, context);
  }

  /** No running cancel is touched, so the same ones are waiting as before. */
  lemma HandleCancels(m: Machine, event: Event)
    requires QueueOrdered(m) && SingleRequests(m) && CancelsKnown(m) && Accepted(m, event)
    ensures CancelsKnown(Handle(m, event).0)
  {
    hide StoryOf, Decide, EventContext, Handle, Extra, Dropped;
    HandleShape(m, event);
    HandleParts(m, event);
    var r := Handle(m, event).0;
    var kept := Dropped(m, event).queue;
    forall invocation | Present(m.queue, invocation) && invocation.status == Running ensures Present(r.queue, invocation) {
      var k :| 0 <= k < |m.queue| && m.queue[k] == invocation;
      assert Present(kept, m.queue[k]);
      var j :| 0 <= j < |kept| && kept[j] == m.queue[k];
      assert r.queue[j] == invocation;
    }
    forall invocation | Present(r.queue, invocation) && invocation.status == Running ensures Present(m.queue, invocation) {
      var k :| 0 <= k < |r.queue| && r.queue[k] == invocation;
      assert k < |kept|;
      assert Present(m.queue, kept[k]);
    }
    SameRunning(m, r);
  }

  lemma SameRunning(m: Machine, r: Machine)
    requires CancelsKnown(m)
    requires r.cancelInvocation == m.cancelInvocation
    requires StoryOf(r.log).waiting == StoryOf(m.log).waiting && StoryOf(r.log).overlapped == StoryOf(m.log).overlapped
    requires forall invocation :: Present(m.queue, invocation) && invocation.status == Running ==> Present(r.queue, invocation)
    requires forall invocation :: Present(r.queue, invocation) && invocation.status == Running ==> Present(m.queue, invocation)
    ensures CancelsKnown(r)
  {
    if m.cancelInvocation.Some? {
      var k :| 0 <= k < |m.queue| && m.queue[k].id == m.cancelInvocation.value && m.queue[k].status == Running;
      assert Present(m.queue, m.queue[k]);
      var j :| 0 <= j < |r.queue| && r.queue[j] == m.queue[k];
    }
    if Stuck(m) {
      var k :| 0 <= k < |m.queue| && Orphan(m, k);
      assert Present(m.queue, m.queue[k]);
      var j :| 0 <= j < |r.queue| && r.queue[j] == m.queue[k];
      assert Orphan(r, j);
    }
    if Stuck(r) {
      var k :| 0 <= k < |r.queue| && Orphan(r, k);
      assert Present(r.queue, r.queue[k]);
      var j :| 0 <= j < |m.queue| && m.queue[j] == r.queue[k];
      assert Orphan(m, j);
    }
  }

  // ---------- effects ----------

  lemma PauseFacts(m: Machine, i: nat)
    requires Facts(m) && i < |m.queue|
    ensures Facts(Pause(m, i))
  {
    Bookkeeping(m.log, Started(m.queue[i].id));
    Bookkeeping(m.log + [Started(m.queue[i].id)], Paused(m.queue[i].id));
    SameRunning(m, Pause(m, i));
  }

  lemma FlagFacts(m: Machine, i: nat, transaction: Transaction)
    requires Facts(m) && i < |m.queue| && m.queue[i].status == Created
    ensures Facts(m.(queue := m.queue[i := m.queue[i].(context := m.queue[i].context.(sendHeartbeat := false))], transaction := transaction))
  {
    var r := m.(queue := m.queue[i := m.queue[i].(context := m.queue[i].context.(sendHeartbeat := false))], transaction := transaction);
    StillRunning(m, r);
    assert SingleRequests(r);
    assert ListenersServed(r) by {
      StillEmittingAfter(m, r);
    }
  }

  /** Same invocations at the same places, apart from flags of pending ones. */
  lemma StillRunning(m: Machine, r: Machine)
    requires CancelsKnown(m) && r.log == m.log && r.cancelInvocation == m.cancelInvocation
    requires |r.queue| == |m.queue|
    requires forall k :: 0 <= k < |m.queue| ==> r.queue[k].id == m.queue[k].id && r.queue[k].status == m.queue[k].status
    ensures CancelsKnown(r)
  {
    if Stuck(m) {
      var k :| 0 <= k < |m.queue| && Orphan(m, k);
      assert Orphan(r, k);
    }
    if Stuck(r) {
      var k :| 0 <= k < |r.queue| && Orphan(r, k);
      assert Orphan(m, k);
    }
  }

  lemma StillEmittingAfter(m: Machine, r: Machine)
    requires |r.queue| == |m.queue|
    requires forall k :: 0 <= k < |m.queue| ==> r.queue[k].kind == m.queue[k].kind
    ensures EmissionQueued(m.queue) ==> EmissionQueued(r.queue)
  {
  }

  lemma WaitFacts(m: Machine, i: nat)
    requires QueueOrdered(m) && Facts(m) && i < |m.queue| && m.queue[i].status == Created && m.queue[i].kind == Cancel
    ensures Facts(Wait(m, i))
  {
    hide RemoveAt;
    var r := Wait(m, i);
    var id := m.queue[i].id;
    Bookkeeping(m.log, Started(id));
    Push(m.log + [Started(id)], Waiting(id));
    StillEmittingAfter(m, r);
    assert r.queue[i].id == id && r.queue[i].status == Running;
    if m.cancelInvocation.Some? {
      var k :| 0 <= k < |m.queue| && m.queue[k].id == m.cancelInvocation.value && m.queue[k].status == Running;
      assert Orphan(r, k);
    } else if Stuck(m) {
      var k :| 0 <= k < |m.queue| && Orphan(m, k);
      assert Orphan(r, k);
    }
    if Stuck(r) {
      var k :| 0 <= k < |r.queue| && Orphan(r, k);
      assert k != i;
      if m.cancelInvocation.None? {
        assert Orphan(m, k);
      }
    }
  }

  function Left(m: Machine, i: nat): Machine
    requires i < |m.queue|
  {
    var gone := m.queue[i];
    m.(queue := RemoveAt(m.queue, i),
       cancelInvocation := if gone.status == Running then None else m.cancelInvocation,
       log := m.log + [Finished(gone.id, gone.kind)])
  }

  lemma LeaveServed(m: Machine, i: nat)
    requires ListenersServed(m) && i < |m.queue|
    requires m.queue[i].kind == EmitStatus ==> StoryOf(m.log).reported == m.status
    ensures ListenersServed(Left(m, i))
  {
    Push(m.log, Finished(m.queue[i].id, m.queue[i].kind));
    if m.queue[i].kind != EmitStatus && EmissionQueued(m.queue) {
      var k :| 0 <= k < |m.queue| && m.queue[k].kind == EmitStatus;
      RemovedPresent(m.queue, i, m.queue[k]);
    }
  }

  lemma LeaveInformed(m: Machine, i: nat)
    requires SingleRequests(m) && Informed(m) && i < |m.queue|
    ensures SingleRequests(Left(m, i)) && Informed(Left(m, i))
  {
    Push(m.log, Finished(m.queue[i].id, m.queue[i].kind));
    RemovedFrom(m.queue, i);
  }

  /** Taking out an invocation whose emission, if any, has just been reported. */
  lemma LeaveFacts(m: Machine, i: nat)
    requires QueueOrdered(m) && Facts(m) && i < |m.queue|
    requires m.queue[i].kind == EmitStatus ==> StoryOf(m.log).reported == m.status
    requires m.queue[i].status == Running ==> m.cancelInvocation == Some(m.queue[i].id)
    ensures Facts(Left(m, i))
  {
    Push(m.log, Finished(m.queue[i].id, m.queue[i].kind));
    LeaveServed(m, i);
    LeaveInformed(m, i);
    LeaveCancels(m, Left(m, i), i);
  }

  lemma LeaveCancels(m: Machine, r: Machine, i: nat)
    requires QueueOrdered(m) && CancelsKnown(m) && i < |m.queue|
    requires r.queue == RemoveAt(m.queue, i)
    requires m.queue[i].status == Running ==> m.cancelInvocation == Some(m.queue[i].id)
    requires r.cancelInvocation == if m.queue[i].status == Running then None else m.cancelInvocation
    requires StoryOf(r.log) == StoryOf(m.log).Tell(Finished(m.queue[i].id, m.queue[i].kind))
    ensures CancelsKnown(r)
  {
    if m.cancelInvocation.Some? {
      var k :| 0 <= k < |m.queue| && m.queue[k].id == m.cancelInvocation.value && m.queue[k].status == Running;
      if k != i {
        RemovedPresent(m.queue, i, m.queue[k]);
        var j :| 0 <= j < |r.queue| && r.queue[j] == m.queue[k];
        assert m.queue[i].id != m.queue[k].id;
      }
    }
    if Stuck(m) {
      var k :| 0 <= k < |m.queue| && Orphan(m, k);
      assert k != i;
      RemovedPresent(m.queue, i, m.queue[k]);
      var j :| 0 <= j < |r.queue| && r.queue[j] == m.queue[k];
      assert Orphan(r, j);
    }
    if Stuck(r) {
      var k :| 0 <= k < |r.queue| && Orphan(r, k);
      RemovedFrom(m.queue, i);
      var j := if k < i then k else k + 1;
      assert r.queue[k] == m.queue[j];
      assert m.queue[j].id != m.queue[i].id;
      assert Orphan(m, j);
    }
  }

  lemma NoteFacts(m: Machine, entry: Entry)
    requires Facts(m)
    requires entry.Reported? ==> entry.status == m.status
    requires entry.Reported? || entry.Started? ||
      (entry.Requested? && exists k :: 0 <= k < |m.queue| && m.queue[k].kind == entry.kind && m.queue[k].context == entry.context)
    ensures Facts(m.(log := m.log + [entry]))
    ensures entry.Reported? ==> StoryOf(m.log + [entry]).reported == m.status
  {
    Push(m.log, entry);
    SameRunning(m, m.(log := m.log + [entry]));
  }

  lemma FinishFacts(m: Machine, i: nat, done: Option<Entry>)
    requires QueueOrdered(m) && Facts(m) && i < |m.queue| && m.queue[i].status == Created
    requires done.Some? ==> done == Some(Reported(m.status)) || done == Some(Requested(m.queue[i].kind, m.queue[i].context))
    requires m.queue[i].kind == EmitStatus ==> done == Some(Reported(m.status))
    ensures Facts(Finish(m, i, done))
  {
    NoteFacts(m, Started(m.queue[i].id));
    var started := m.(log := m.log + [Started(m.queue[i].id)]);
    if done.Some? {
      NoteFacts(started, done.value);
      LeaveFacts(started.(log := started.log + [done.value]), i);
    } else {
      LeaveFacts(started, i);
    }
  }

  lemma FinishCancelFacts(m: Machine)
    requires QueueOrdered(m) && Facts(m)
    ensures Facts(FinishCancel(m))
  {
    if m.cancelInvocation.Some? {
      var i := Position(m.queue, m.cancelInvocation.value);
      var k :| 0 <= k < |m.queue| && m.queue[k].id == m.cancelInvocation.value && m.queue[k].status == Running;
      assert k == i;
      LeaveFacts(m, i);
    }
  }
}
