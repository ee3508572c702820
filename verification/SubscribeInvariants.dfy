/** What every call keeps, primitive step by primitive step. */
module SubscribeInvariants {
  import opened Common
  import opened SubscribeTypes
  import opened SubscribeTransitions
  import opened SubscribeMachine
  import opened SubscribeLog

  // ---------- the invariant ----------

  /** Between effects nothing is half done: only a cancel may be running, and the
      queue is in enqueue order. */
  predicate QueueOrdered(m: Machine) {
    (forall j, k :: 0 <= j < k < |m.queue| ==> m.queue[j].id < m.queue[k].id) &&
    (forall k :: 0 <= k < |m.queue| ==>
       m.queue[k].id < m.nextId && m.queue[k].status != Completed &&
       (m.queue[k].status == Running ==> m.queue[k].kind == Cancel))
  }

  function Held(status: InvocationStatus): Phase {
    if status == Created then Pending else Suspended
  }

  /** Where the queue says an invocation stands. */
  function Standing(queue: seq<Invocation>, id: nat): Phase {
    if queue == [] then Gone
    else if queue[0].id == id then Held(queue[0].status)
    else Standing(queue[1..], id)
  }

  function Expected(m: Machine, id: nat): Phase {
    if id >= m.nextId then Absent else Standing(m.queue, id)
  }

  /** The queue is exactly what the log leaves pending or suspended. */
  ghost predicate Tracked(m: Machine) {
    Legal(m.log) && forall id: nat :: PhaseOf(m.log, id) == Expected(m, id)
  }

  function Deferred(queue: seq<Invocation>): seq<nat> {
    if queue == [] then []
    else (if queue[0].kind == Cancel then [] else [queue[0].id]) + Deferred(queue[1..])
  }

  /** Finished so far, then still queued, is what was enqueued minus what was
      removed; nothing non-immediate finished ahead of anything still queued. */
  predicate Ordered(finished: seq<nat>, enqueued: seq<nat>, removed: set<nat>, queue: seq<Invocation>, nextId: nat) {
    finished + Deferred(queue) == Without(enqueued, removed) &&
    StrictlyIncreasing(enqueued) &&
    (forall id :: id in enqueued ==> id < nextId) &&
    (forall id :: id in removed ==> id < nextId) &&
    (forall id, k :: id in finished && 0 <= k < |queue| ==> id < queue[k].id) &&
    (forall id :: id in finished ==> id < nextId)
  }

  predicate InOrder(m: Machine) {
    Ordered(FinishedIds(m.log), EnqueuedIds(m.log), RemovedIds(m.log), m.queue, m.nextId)
  }

  predicate SingleRequests(m: Machine) {
    forall j, k :: 0 <= j < k < |m.queue| && m.queue[j].kind == m.queue[k].kind
      ==> m.queue[j].kind != Handshake && m.queue[j].kind != Receive
  }

  predicate EmissionQueued(queue: seq<Invocation>) {
    exists k :: 0 <= k < |queue| && queue[k].kind == EmitStatus
  }

  predicate StatusFits(state: StateType, status: SubscriptionStatus) {
    match state
    case Receiving => status == Connected || status == SubscriptionChangedStatus
    case ReceiveStopped => status == Disconnected
    case ReceiveFailed => status == DisconnectedUnexpectedly
    case HandshakeFailed => status == ConnectionError
    case _ => true
  }

  predicate ListenersServed(m: Machine) {
    (m.status == StoryOf(m.log).reported || EmissionQueued(m.queue)) && StatusFits(m.state, m.status)
  }

  predicate Informed(m: Machine) {
    var story := StoryOf(m.log);
    story.state == m.state &&
    (m.context.None? <==> m.state == Unsubscribed) &&
    (m.context.Some? ==> story.Agrees(m.context.value)) &&
    (m.state == Unsubscribed ==> story.cursor == DEFAULT_CURSOR) &&
    (forall k :: 0 <= k < |m.queue| && story.Issued(m.queue[k].kind) ==> story.Agrees(m.queue[k].context)) &&
    story.requestsCurrent &&
    story.receivingEarned
  }

  predicate Orphan(m: Machine, k: nat)
    requires k < |m.queue|
  {
    m.queue[k].status == Running && Some(m.queue[k].id) != m.cancelInvocation
  }

  predicate Stuck(m: Machine) {
    exists k :: 0 <= k < |m.queue| && Orphan(m, k)
  }

  predicate CancelsKnown(m: Machine) {
    m.cancelInvocation == StoryOf(m.log).waiting &&
    (m.cancelInvocation.Some? ==>
       exists k :: 0 <= k < |m.queue| && m.queue[k].id == m.cancelInvocation.value && m.queue[k].status == Running) &&
    (StoryOf(m.log).overlapped <==> Stuck(m))
  }

  ghost predicate Inv(m: Machine) {
    QueueOrdered(m) && Tracked(m) && InOrder(m) && SingleRequests(m) &&
    ListenersServed(m) && Informed(m) && CancelsKnown(m)
  }

  lemma InitialInv()
    ensures Inv(INITIAL)
  {
  }
}
