/** The main results about whole runs of the Subscribe Event Engine. */
module SubscribeTheorems {
  import opened Common
  import opened SubscribeTypes
  import opened SubscribeTransitions
  import opened SubscribeMachine
  import opened SubscribeLog
  import opened SubscribeInvariants
  import Lifecycle = SubscribeLifecycle
  import Facts = SubscribeFacts
  import Runs = SubscribeRuns

  lemma Reached(calls: seq<Call>, world: World)
    ensures Inv(Execute(INITIAL, calls, world))
  {
    InitialInv();
    Runs.ExecuteKeeps(INITIAL, calls, world);
  }

  // ---------- order of completion ----------

  /** Non-immediate invocations finish in exactly their enqueue order, minus the
      removed ones; what is missing is what is still queued. */
  lemma CompletionOrder(calls: seq<Call>, world: World)
    ensures var m := Execute(INITIAL, calls, world);
      FinishedIds(m.log) + Deferred(m.queue) == Without(EnqueuedIds(m.log), RemovedIds(m.log)) &&
      StrictlyIncreasing(FinishedIds(m.log) + Deferred(m.queue))
  {
    var m := Execute(INITIAL, calls, world);
    Reached(calls, world);
    WithoutIncreasing(EnqueuedIds(m.log), RemovedIds(m.log));
  }

  // ---------- life of one invocation ----------

  lemma ReachedLegal(calls: seq<Call>, world: World)
    ensures Legal(Execute(INITIAL, calls, world).log)
  {
    hide Execute, QueueOrdered, InOrder, SingleRequests, ListenersServed, Informed, CancelsKnown;
    Reached(calls, world);
  }

  lemma {:induction false} LegalAt(log: seq<Entry>, k: nat)
    requires Legal(log) && k < |log|
    ensures Allowed(log[..k], log[k]) && Legal(log[..k])
  {
    var before := log[..|log| - 1];
    if k < |before| {
      LegalAt(before, k);
      assert before[..k] == log[..k];
    }
  }

  lemma PhaseStep(log: seq<Entry>, k: nat, id: nat)
    requires k < |log|
    ensures PhaseOf(log[..k + 1], id) ==
      match log[k] {
        case Enqueued(x, _) => if x == id then Pending else PhaseOf(log[..k], id)
        case Paused(x) => if x == id then Pending else PhaseOf(log[..k], id)
        case Started(x) => if x == id then Active else PhaseOf(log[..k], id)
        case Waiting(x) => if x == id then Suspended else PhaseOf(log[..k], id)
        case Finished(x, _) => if x == id then Gone else PhaseOf(log[..k], id)
        case Removed(x) => if x == id then Gone else PhaseOf(log[..k], id)
        case _ => PhaseOf(log[..k], id)
      }
  {
    Push(log[..k], log[k]);
    assert log[..k + 1] == log[..k] + [log[k]];
  }

  /** Once gone, gone; once known, never unknown again; and the only way back to
      pending is a pause. */
  lemma {:induction false} PhaseLater(log: seq<Entry>, id: nat, a: nat, b: nat)
    requires Legal(log) && a <= b <= |log|
    requires PhaseOf(log[..a], id) != Absent
    ensures PhaseOf(log[..b], id) != Absent
    ensures PhaseOf(log[..a], id) == Gone ==> PhaseOf(log[..b], id) == Gone
    ensures PhaseOf(log[..a], id) != Pending && PhaseOf(log[..b], id) == Pending ==>
      exists p :: a <= p < b && log[p] == Paused(id)
    decreases b
  {
    if a < b {
      PhaseLater(log, id, a, b - 1);
      LegalAt(log, b - 1);
      PhaseStep(log, b - 1, id);
    }
  }

  /** An invocation is started again only after it paused in between. */
  lemma RestartOnlyAfterPause(calls: seq<Call>, world: World, id: nat, i: nat, j: nat)
    requires var log := Execute(INITIAL, calls, world).log;
      i < j < |log| && log[i] == Started(id) && log[j] == Started(id)
    ensures var log := Execute(INITIAL, calls, world).log;
      exists p :: i < p < j && log[p] == Paused(id)
  {
    hide Execute, Legal;
    var log := Execute(INITIAL, calls, world).log;
    ReachedLegal(calls, world);
    LegalAt(log, j);
    PhaseStep(log, i, id);
    PhaseLater(log, id, i + 1, j);
  }

  /** It finishes at most once, is never touched afterwards, and is then no longer
      queued. */
  lemma FinishedForGood(calls: seq<Call>, world: World, id: nat, kind: InvocationType, i: nat)
    requires var log := Execute(INITIAL, calls, world).log;
      i < |log| && log[i] == Finished(id, kind)
    ensures var m := Execute(INITIAL, calls, world);
      (forall j, other :: i < j < |m.log| ==> m.log[j] != Finished(id, other) && m.log[j] != Started(id)) &&
      (forall k :: 0 <= k < |m.queue| ==> m.queue[k].id != id)
  {
    hide Execute, InOrder, SingleRequests, ListenersServed, Informed, CancelsKnown;
    var m := Execute(INITIAL, calls, world);
    Reached(calls, world);
    PhaseStep(m.log, i, id);
    forall j | i < j < |m.log| ensures Allowed(m.log[..j], m.log[j]) && PhaseOf(m.log[..j], id) == Gone {
      LegalAt(m.log, j);
      PhaseLater(m.log, id, i + 1, j);
    }
    PhaseLater(m.log, id, i + 1, |m.log|);
    assert m.log[..|m.log|] == m.log;
    forall k | 0 <= k < |m.queue| ensures m.queue[k].id != id {
      Lifecycle.StandingAt(m.queue, k);
      assert PhaseOf(m.log, m.queue[k].id) == Expected(m, m.queue[k].id);
    }
  }

  /** At most one handshake and one receive are pending, so removing the first
      match leaves none. */
  lemma OnePendingRequest(calls: seq<Call>, world: World, kind: InvocationType)
    requires kind == Handshake || kind == Receive
    ensures var m := Execute(INITIAL, calls, world);
      (forall j, k :: 0 <= j < k < |m.queue| ==> !(m.queue[j].kind == m.queue[k].kind == kind)) &&
      Facts.NoneOf(CancelByType(m, kind).queue, kind)
  {
    Reached(calls, world);
    Facts.FirstMatchIsEnough(Execute(INITIAL, calls, world), kind);
  }

  // ---------- listeners ----------

  /** The last reported status is the current one unless its emission is still
      queued; in particular an empty queue means listeners are up to date. */
  lemma ListenersNeverStale(calls: seq<Call>, world: World)
    ensures var m := Execute(INITIAL, calls, world);
      (m.status != StoryOf(m.log).reported ==> EmissionQueued(m.queue)) &&
      (m.queue == [] ==> m.status == StoryOf(m.log).reported) &&
      StatusFits(m.state, m.status)
  {
    Reached(calls, world);
  }

  // ---------- context ----------

  predicate Relists(entry: Entry) {
    entry.Moved? && (entry.event.SubscriptionChanged? || entry.event.SubscriptionRestored?)
  }

  predicate Recursors(entry: Entry) {
    entry.Moved? && (entry.target == Unsubscribed || BringsCursor(entry.event))
  }

  predicate LastRelist(log: seq<Entry>, k: nat) {
    k < |log| && Relists(log[k]) && forall j :: k < j < |log| ==> !Relists(log[j])
  }

  predicate LastRecursor(log: seq<Entry>, k: nat) {
    k < |log| && Recursors(log[k]) && forall j :: k < j < |log| ==> !Recursors(log[j])
  }

  /** The story's lists are those of the last accepted subscription event. */
  lemma {:induction false} ListsOfLast(log: seq<Entry>, k: nat)
    requires LastRelist(log, k)
    ensures StoryOf(log).channels == NonEmpty(log[k].event.channels)
    ensures StoryOf(log).groups == NonEmpty(log[k].event.groups)
  {
    if k < |log| - 1 {
      ListsOfLast(log[..|log| - 1], k);
    }
  }

  /** The story's cursor is that of the last accepted event that brings one, or
      the default when UNSUBSCRIBED was entered since. */
  lemma {:induction false} CursorOfLast(log: seq<Entry>, k: nat)
    requires LastRecursor(log, k)
    ensures StoryOf(log).cursor == if log[k].target == Unsubscribed then DEFAULT_CURSOR else log[k].event.cursor
  {
    if k < |log| - 1 {
      CursorOfLast(log[..|log| - 1], k);
    }
  }

  lemma {:induction false} NoLists(log: seq<Entry>)
    requires forall k :: 0 <= k < |log| ==> !Relists(log[k])
    ensures StoryOf(log).channels == None && StoryOf(log).groups == None
  {
    if log != [] {
      NoLists(log[..|log| - 1]);
    }
  }

  lemma {:induction false} NoCursor(log: seq<Entry>)
    requires forall k :: 0 <= k < |log| ==> !Recursors(log[k])
    ensures StoryOf(log).cursor == DEFAULT_CURSOR
  {
    if log != [] {
      NoCursor(log[..|log| - 1]);
    }
  }

  /** In every reachable state with a context, its lists are those of the last accepted
      CHANGED or RESTORED, and its cursor is that of the last accepted event that
      brings one since UNSUBSCRIBED was last entered, else the default. */
  lemma ContextIsLastAccepted(calls: seq<Call>, world: World, context: Context)
    requires Execute(INITIAL, calls, world).context == Some(context)
    ensures var log := Execute(INITIAL, calls, world).log;
      (forall k: nat :: LastRelist(log, k) ==>
         context.channels == NonEmpty(log[k].event.channels) && context.groups == NonEmpty(log[k].event.groups)) &&
      ((forall k :: 0 <= k < |log| ==> !Relists(log[k])) ==> context.channels == None && context.groups == None) &&
      (forall k: nat :: LastRecursor(log, k) ==>
         context.cursor == if log[k].target == Unsubscribed then DEFAULT_CURSOR else log[k].event.cursor) &&
      ((forall k :: 0 <= k < |log| ==> !Recursors(log[k])) ==> context.cursor == DEFAULT_CURSOR)
  {
    hide Execute;
    ContextIsHistory(calls, world);
    var log := Execute(INITIAL, calls, world).log;
    forall k: nat | LastRelist(log, k)
      ensures context.channels == NonEmpty(log[k].event.channels) && context.groups == NonEmpty(log[k].event.groups)
    {
      ListsOfLast(log, k);
    }
    forall k: nat | LastRecursor(log, k)
      ensures context.cursor == if log[k].target == Unsubscribed then DEFAULT_CURSOR else log[k].event.cursor
    {
      CursorOfLast(log, k);
    }
    if forall k :: 0 <= k < |log| ==> !Relists(log[k]) {
      NoLists(log);
    }
    if forall k :: 0 <= k < |log| ==> !Recursors(log[k]) {
      NoCursor(log);
    }
  }

  /** Whatever failed, stopped or was cancelled in between, a subscribed state
      remembers the lists and the cursor the accepted events add up to. */
  lemma ContextIsHistory(calls: seq<Call>, world: World)
    ensures var m := Execute(INITIAL, calls, world);
      m.state == StoryOf(m.log).state &&
      (m.context.None? <==> m.state == Unsubscribed) &&
      (m.context.Some? ==> StoryOf(m.log).Agrees(m.context.value))
  {
    Reached(calls, world);
  }

  lemma {:induction false} RequestsAt(log: seq<Entry>, k: nat)
    requires StoryOf(log).requestsCurrent && k < |log|
    requires log[k].Requested? && StoryOf(log[..k]).Issued(log[k].kind)
    ensures StoryOf(log[..k]).Agrees(log[k].context)
  {
    var before := log[..|log| - 1];
    if k < |before| {
      assert before[..k] == log[..k];
      RequestsAt(before, k);
    }
  }

  /** No subscribe call of the current state goes out with outdated lists or an
      outdated cursor, however long it was queued or paused. */
  lemma RequestsAreCurrent(calls: seq<Call>, world: World, k: nat)
    requires var log := Execute(INITIAL, calls, world).log;
      k < |log| && log[k].Requested? && StoryOf(log[..k]).Issued(log[k].kind)
    ensures var log := Execute(INITIAL, calls, world).log;
      StoryOf(log[..k]).Agrees(log[k].context)
  {
    Reached(calls, world);
    RequestsAt(Execute(INITIAL, calls, world).log, k);
  }

  lemma {:induction false} ReceivingAt(log: seq<Entry>, k: nat)
    requires StoryOf(log).receivingEarned && k < |log| && log[k].Moved?
    ensures log[k].origin == StoryOf(log[..k]).state
    ensures log[k].target == Receiving && log[k].origin != Receiving ==>
      log[k].origin == Handshaking && log[k].event.HandshakeSuccess?
  {
    var before := log[..|log| - 1];
    if k < |before| {
      assert before[..k] == log[..k];
      ReceivingAt(before, k);
    }
  }

  /** Every stay in RECEIVING begins with a handshake that succeeded. */
  lemma ReceivingBeginsWithHandshake(calls: seq<Call>, world: World, k: nat)
    requires var log := Execute(INITIAL, calls, world).log;
      k < |log| && log[k].Moved? && log[k].target == Receiving && log[k].origin != Receiving
    ensures var log := Execute(INITIAL, calls, world).log;
      log[k].event.HandshakeSuccess? && StoryOf(log[..k]).state == Handshaking
  {
    Reached(calls, world);
    ReceivingAt(Execute(INITIAL, calls, world).log, k);
  }

  // ---------- a cancel that is never completed ----------

  /** Some running cancel is out of reach of every later callback exactly when two
      cancels were left waiting at the same time. */
  lemma StuckExactlyWhenOverlapped(calls: seq<Call>, world: World)
    ensures var m := Execute(INITIAL, calls, world);
      Stuck(m) <==> StoryOf(m.log).overlapped
  {
    Reached(calls, world);
  }

  lemma FinishCancelOverlap(m: Machine)
    ensures StoryOf(FinishCancel(m).log).overlapped == StoryOf(m.log).overlapped
    ensures FinishCancel(m).cancelInvocation.None?
  {
    if m.cancelInvocation.Some? {
      var i := Position(m.queue, m.cancelInvocation.value);
      if i < |m.queue| {
        Push(m.log, Finished(m.queue[i].id, m.queue[i].kind));
      }
    }
  }

  lemma NothingRunning(m: Machine)
    requires QueueOrdered(m) && m.cancelInvocation.None?
    ensures (forall k :: 0 <= k < |m.queue| ==> m.queue[k].status == Created) <==> !Stuck(m)
  {
    forall k | 0 <= k < |m.queue| && m.queue[k].status != Created ensures Stuck(m) {
      assert Orphan(m, k);
    }
  }

  /** The callback's completion of a waiting cancel leaves nothing running exactly
      when no two cancels overlapped. */
  lemma CallbackFreesQueue(calls: seq<Call>, world: World)
    ensures var m := Execute(INITIAL, calls, world);
      (forall k :: 0 <= k < |FinishCancel(m).queue| ==> FinishCancel(m).queue[k].status == Created)
      <==> !StoryOf(m.log).overlapped
  {
    var m := Execute(INITIAL, calls, world);
    Reached(calls, world);
    Facts.FinishCancelFacts(m);
    Lifecycle.FinishCancelKeeps(m);
    FinishCancelOverlap(m);
    NothingRunning(FinishCancel(m));
  }

  /** The guard of the step that overlaps: a cancel that cannot finish at once is
      started on a free wire while another one is waiting. */
  lemma OverlapStep(m: Machine, i: nat, answer: Answer)
    requires Inv(m) && i < |m.queue| && m.queue[i].status == Created && m.queue[i].kind == Cancel
    ensures StoryOf(Attempt(m, i, answer).0.log).overlapped <==>
      StoryOf(m.log).overlapped ||
      (m.cancelInvocation.Some? && m.transaction == NoTransaction && !answer.cancelFinished)
  {
    var id := m.queue[i].id;
    var started := m.log + [Started(id)];
    Push(m.log, Started(id));
    Push(started, Paused(id));
    Push(started, Waiting(id));
    Push(started, Finished(id, Cancel));
  }

  predicate StuckOn(m: Machine, id: nat) {
    m.cancelInvocation != Some(id) &&
    exists k :: 0 <= k < |m.queue| && m.queue[k].id == id && m.queue[k].status == Running
  }

  lemma HandleStuck(m: Machine, event: Event, id: nat)
    requires QueueOrdered(m) && SingleRequests(m) && StuckOn(m, id)
    ensures StuckOn(Handle(m, event).0, id)
  {
    hide StoryOf, Decide, EventContext, Facts.Extra, Facts.Dropped;
    if Facts.Accepted(m, event) {
      HandleStuckQueue(m, event, id);
    }
  }

  lemma HandleStuckQueue(m: Machine, event: Event, id: nat)
    requires QueueOrdered(m) && SingleRequests(m) && StuckOn(m, id) && Facts.Accepted(m, event)
    ensures StuckOn(Handle(m, event).0, id)
  {
    hide StoryOf, Decide, EventContext, Handle, Facts.Extra, Facts.Dropped;
    Facts.HandleShape(m, event);
    Facts.HandleParts(m, event);
    var kept := Facts.Dropped(m, event).queue;
    var k :| 0 <= k < |m.queue| && m.queue[k].id == id && m.queue[k].status == Running;
    assert Facts.Present(kept, m.queue[k]);
    var j :| 0 <= j < |kept| && kept[j] == m.queue[k];
    assert Handle(m, event).0.queue[j] == kept[j];
  }

  lemma RemovedStuck(m: Machine, i: nat, id: nat)
    requires QueueOrdered(m) && StuckOn(m, id) && i < |m.queue| && m.queue[i].id != id
    ensures exists k :: 0 <= k < |RemoveAt(m.queue, i)| && RemoveAt(m.queue, i)[k].id == id && RemoveAt(m.queue, i)[k].status == Running
  {
    var k :| 0 <= k < |m.queue| && m.queue[k].id == id && m.queue[k].status == Running;
    Facts.RemovedPresent(m.queue, i, m.queue[k]);
  }

  /** An attempt takes its own invocation out, or leaves all the others alone. */
  lemma AttemptTouches(m: Machine, i: nat, answer: Answer)
    requires i < |m.queue|
    ensures var r := Attempt(m, i, answer).0;
      (r.queue == RemoveAt(m.queue, i) && r.cancelInvocation == m.cancelInvocation) ||
      (|r.queue| == |m.queue| &&
       (forall k :: 0 <= k < |m.queue| && k != i ==> r.queue[k] == m.queue[k]) &&
       (r.cancelInvocation == m.cancelInvocation || r.cancelInvocation == Some(m.queue[i].id)))
  {
  }

  lemma AttemptStuck(m: Machine, i: nat, answer: Answer, id: nat)
    requires QueueOrdered(m) && StuckOn(m, id) && i < |m.queue| && m.queue[i].status == Created
    ensures StuckOn(Attempt(m, i, answer).0, id)
  {
    var k :| 0 <= k < |m.queue| && m.queue[k].id == id && m.queue[k].status == Running;
    assert m.queue[i].id != id;
    RemovedStuck(m, i, id);
    AttemptTouches(m, i, answer);
    var r := Attempt(m, i, answer).0;
    if r.queue != RemoveAt(m.queue, i) {
      assert r.queue[k] == m.queue[k];
    }
  }

  lemma FinishCancelStuck(m: Machine, id: nat)
    requires QueueOrdered(m) && StuckOn(m, id)
    ensures StuckOn(FinishCancel(m), id)
  {
    if m.cancelInvocation.Some? {
      var i := Position(m.queue, m.cancelInvocation.value);
      if i < |m.queue| {
        RemovedStuck(m, i, id);
      }
    }
  }

  lemma {:induction false} DriveStuck(m: Machine, trigger: Trigger, world: World, id: nat)
    requires Inv(m) && Runs.FairTrigger(m, trigger) && StuckOn(m, id)
    ensures StuckOn(Drive(m, trigger, world), id)
    decreases Live(m.state), |m.queue|, if trigger.Next? then 1 else 0
  {
    hide Tracked, InOrder, SingleRequests, ListenersServed, Informed, CancelsKnown, StuckOn, Handle, Attempt;
    match trigger
    case Nothing =>
    case Next =>
      if |m.queue| > 0 {
        DriveStuck(m, Run(m.queue[0].id), world, id);
      }
    case Run(x) =>
      var i := Position(m.queue, x);
      if i < |m.queue| && m.queue[i].status == Created {
        var answer := world(|m.log|);
        AttemptStays(m, i, answer);
        Runs.AttemptKeeps(m, i, answer);
        AttemptStuck(m, i, answer, id);
        var (ran, progress) := Attempt(m, i, answer);
        if !progress.Stop? {
          DriveStuck(ran, Next, world, id);
          Runs.DriveKeeps(ran, Next, world);
          var behind := Drive(ran, Next, world);
          if progress.ContinueThenFail? && Live(behind.state) == 1 {
            FailureEnds(behind, progress.reason);
            var failure := FailureOf(behind.state, progress.reason);
            Runs.HandleKeeps(behind, failure);
            Runs.HandleFair(behind, failure);
            HandleStuck(behind, failure, id);
            DriveStuck(Handle(behind, failure).0, Handle(behind, failure).1, world, id);
          }
        }
      }
  }

  lemma EventStuck(m: Machine, event: Event, world: World, id: nat)
    requires Inv(m) && StuckOn(m, id)
    ensures StuckOn(HandleEvent(m, event, world), id)
  {
    Runs.HandleKeeps(m, event);
    Runs.HandleFair(m, event);
    HandleStuck(m, event, id);
    DriveStuck(Handle(m, event).0, Handle(m, event).1, world, id);
  }

  lemma CallbackStuck(m: Machine, transaction: CallbackTransaction, result: CallbackResult, cursor: Cursor, world: World, id: nat)
    requires Inv(m) && StuckOn(m, id)
    ensures StuckOn(OnCallback(m, transaction, result, cursor, world), id)
  {
    hide Tracked, InOrder, SingleRequests, ListenersServed, Informed, CancelsKnown, Drive, HandleEvent, FinishCancel;
    var freed := transaction.HeartbeatDone? || transaction.LeaveDone?;
    if !freed && !result.ResultCancelled? {
      var event := OutcomeEvent(m, result, cursor);
      if event.Some? {
        EventStuck(m, event.value, world, id);
      }
    } else {
      FinishCancelStuck(m, id);
      Runs.FinishCancelKeeps(m);
      var completed := FinishCancel(m);
      var idle := if freed then completed.(transaction := NoTransaction) else completed;
      Runs.WireKeeps(completed, idle.transaction, idle.leaveChannels, idle.leaveGroups);
      if idle.leaveChannels == [] && idle.leaveGroups == [] {
        assert idle.queue != [];
        DriveStuck(idle, Next, world, id);
      }
    }
  }

  lemma ApplyStuck(m: Machine, call: Call, world: World, id: nat)
    requires Inv(m) && StuckOn(m, id)
    ensures StuckOn(Apply(m, call, world), id)
  {
    hide Inv, HandleEvent, OnCallback;
    match call
    case Subscribe(channels, groups, from) =>
      EventStuck(m, SubscribeEvent(channels, groups, from), world, id);
    case Unsubscribe(leaveChannels, leaveGroups, canStart, channels, groups) =>
      Runs.LeaveKeeps(m, leaveChannels, leaveGroups, canStart);
      EventStuck(Leave(m, leaveChannels, leaveGroups, canStart), SubscriptionChanged(channels, groups, true), world, id);
    case UnsubscribeEverything(channels, groups, canStart) =>
      Runs.LeaveKeeps(m, channels, groups, canStart);
      EventStuck(Leave(m, channels, groups, canStart), UnsubscribeAll(Some(channels), Some(groups)), world, id);
    case DisconnectCall => EventStuck(m, Disconnect, world, id);
    case ReconnectCall(cursor) => EventStuck(m, Reconnect(cursor), world, id);
    case Callback(transaction, result, cursor) => CallbackStuck(m, transaction, result, cursor, world, id);
  }

  /** From then on it stays, and nothing enqueued behind it ever finishes: every
      status, message and subscribe call queued later is lost to the client. */
  lemma {:induction false} StuckForever(m: Machine, calls: seq<Call>, world: World, id: nat)
    requires Inv(m) && StuckOn(m, id)
    ensures var r := Execute(m, calls, world);
      StuckOn(r, id) && forall x :: x in FinishedIds(r.log) ==> x < id
  {
    Runs.ExecuteKeeps(m, calls, world);
    if calls != [] {
      var before := Execute(m, calls[..|calls| - 1], world);
      StuckForever(m, calls[..|calls| - 1], world, id);
      Runs.ExecuteKeeps(m, calls[..|calls| - 1], world);
      ApplyStuck(before, calls[|calls| - 1], world, id);
    }
  }

  const SLOW: Answer := Answer(true, Sent, false)

  function Asking(name: string): Event {
    SubscriptionChanged(Some(name), None, true)
  }

  function Listed(name: string): Context {
    Context(Some(name), None, DEFAULT_CURSOR, RESULT_OK, false)
  }

  /** The first list waits for its heartbeat. */
  lemma FirstAsked(world: World)
    requires forall n :: world(n) == SLOW
    ensures var m := Apply(INITIAL, Subscribe(Some("a,b,c"), None, None), world);
      m.state == Handshaking && m.context.Some? && m.transaction == HeartbeatTransaction && m.cancelInvocation == None &&
      m.nextId == 1 && m.leaveChannels == [] && m.leaveGroups == [] &&
      m.queue == [Invocation(0, Handshake, Created, Listed("a,b,c"))]
  {
    hide Attempt;
    FirstEntered();
    var (entered, trigger) := Handle(INITIAL, FIRST_LIST);
    HeartbeatSent(entered);
    assert Drive(entered, Run(0), world) == Attempt(entered, 0, SLOW).0;
  }

  const FIRST_LIST: Event := SubscriptionChanged(Some("a,b,c"), None, false)

  lemma FirstEntered()
    ensures var (entered, trigger) := Handle(INITIAL, FIRST_LIST);
      trigger == Next && entered.nextId == 1 &&
      entered.queue == [Invocation(0, Handshake, Created, Listed("a,b,c").(sendHeartbeat := true))] &&
      entered == INITIAL.(state := Handshaking, context := Some(Listed("a,b,c").(sendHeartbeat := true)), queue := entered.queue, nextId := 1, log := entered.log)
  {
  }

  lemma HeartbeatSent(entered: Machine)
    requires entered.queue == [Invocation(0, Handshake, Created, Listed("a,b,c").(sendHeartbeat := true))] && entered.transaction == NoTransaction
    ensures var (sent, progress) := Attempt(entered, 0, SLOW);
      progress == Stop &&
      sent == entered.(queue := [Invocation(0, Handshake, Created, Listed("a,b,c"))], transaction := HeartbeatTransaction, log := sent.log)
  {
  }

  /** The heartbeat's callback lets it go out. */
  lemma FirstSent(m: Machine, world: World)
    requires forall n :: world(n) == SLOW
    requires m.queue == [Invocation(0, Handshake, Created, Listed("a,b,c"))] && m.cancelInvocation == None
    requires m.leaveChannels == [] && m.leaveGroups == []
    ensures var r := Apply(m, Callback(HeartbeatDone, ResultOk, DEFAULT_CURSOR), world);
      r == m.(queue := [], transaction := NoTransaction, log := r.log)
  {
    hide Attempt;
    var idle := m.(transaction := NoTransaction);
    FirstRan(idle);
    var ran := Attempt(idle, 0, SLOW).0;
    assert Drive(ran, Next, world) == ran;
    assert Drive(idle, Run(0), world) == ran;
  }

  lemma FirstRan(idle: Machine)
    requires idle.queue == [Invocation(0, Handshake, Created, Listed("a,b,c"))] && idle.transaction == NoTransaction
    ensures var (ran, progress) := Attempt(idle, 0, SLOW);
      progress == Continue && ran == idle.(queue := [], log := ran.log)
  {
  }

  /** Any later list cancels first, and that cancel waits. */
  lemma LaterAsked(m: Machine, name: string, world: World)
    requires forall n :: world(n) == SLOW
    requires m.state == Handshaking && m.context.Some? && m.transaction == NoTransaction && name != ""
    requires forall k :: 0 <= k < |m.queue| ==> m.queue[k].id < m.nextId
    ensures var r := HandleEvent(m, Asking(name), world);
      var kept := CancelByType(m, Handshake).queue;
      r.state == Handshaking && r.context.Some? && r.transaction == NoTransaction && r.nextId == m.nextId + 2 &&
      |r.queue| == |kept| + 2 && r.queue[..|kept|] == kept &&
      r.queue[|kept|].id == m.nextId && r.queue[|kept|].kind == Cancel && r.queue[|kept|].status == Running &&
      r.queue[|kept| + 1].id == m.nextId + 1 && r.queue[|kept| + 1].kind == Handshake && r.queue[|kept| + 1].status == Created &&
      r.cancelInvocation == Some(m.nextId)
  {
    var kept := CancelByType(m, Handshake).queue;
    var (entered, trigger) := Handle(m, Asking(name));
    var n := |kept|;
    assert entered.queue[..n] == kept && entered.queue[n].kind == Cancel && entered.queue[n].id == m.nextId;
    assert trigger == Run(m.nextId);
    forall k | 0 <= k < n ensures entered.queue[k].id < m.nextId {
      assert entered.queue[k] == kept[k];
    }
    assert Position(entered.queue, m.nextId) == n;
    assert Drive(entered, trigger, world) == Wait(entered, n);
  }

  /** One subscription and two unsubscriptions are enough when no cancel finishes at
      once: the channels a, b and c, then without a, then without b. */
  lemma OverlapHappens(world: World)
    requires forall n :: world(n) == SLOW
    ensures Stuck(Execute(INITIAL, OVERLAPPING, world))
  {
    hide HandleEvent, OnCallback;
    var heard := Apply(INITIAL, OVERLAPPING[0], world);
    FirstAsked(world);
    var one := Apply(heard, OVERLAPPING[1], world);
    FirstSent(heard, world);
    var left := Leave(one, "a", "", false);
    var two := HandleEvent(left, Asking("b,c"), world);
    LaterAsked(left, "b,c", world);
    var leftAgain := Leave(two, "b", "", false);
    var three := HandleEvent(leftAgain, Asking("c"), world);
    assert CancelByType(leftAgain, Handshake).queue == [leftAgain.queue[0]];
    LaterAsked(leftAgain, "c", world);
    assert three.queue[..1][0] == two.queue[0];
    assert Orphan(three, 0);
    Unrolled(world);
  }

  const OVERLAPPING: seq<Call> :=
    [Subscribe(Some("a,b,c"), None, None),
     Callback(HeartbeatDone, ResultOk, DEFAULT_CURSOR),
     Unsubscribe("a", "", false, Some("b,c"), None),
     Unsubscribe("b", "", false, Some("c"), None)]

  lemma Unrolled(world: World)
    ensures Execute(INITIAL, OVERLAPPING, world) ==
      Apply(Apply(Apply(Apply(INITIAL, OVERLAPPING[0], world), OVERLAPPING[1], world), OVERLAPPING[2], world), OVERLAPPING[3], world)
  {
    hide Apply;
    var calls := OVERLAPPING;
    assert calls[..3][..2] == calls[..2] && calls[..2][..1] == calls[..1] && calls[..1][..0] == [];
    assert Execute(INITIAL, calls[..1], world) == Apply(INITIAL, calls[0], world);
    assert Execute(INITIAL, calls[..2], world) == Apply(Execute(INITIAL, calls[..1], world), calls[1], world);
    assert Execute(INITIAL, calls[..3], world) == Apply(Execute(INITIAL, calls[..2], world), calls[2], world);
  }
}
