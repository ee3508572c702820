/** What a client's call comes to when everything it triggers has run: where the engine
    ends, and that the request, the message or the status it asked for is on its way. */
module SubscribeCalls {
  import opened Common
  import opened SubscribeTypes
  import opened SubscribeTransitions
  import opened SubscribeMachine
  import opened SubscribeInvariants
  import opened SubscribeMoves
  import Facts = SubscribeFacts
  import Runs = SubscribeRuns
  import Order = SubscribeOrder

  // ---------- running what was triggered ----------

  predicate Unmoved(m: Machine, r: Machine) {
    r.state == m.state && r.context == m.context && r.status == m.status
  }

  /** A call of a live state was refused, and the state failed with the reason. */
  predicate Broke(m: Machine, r: Machine, reason: int) {
    m.context.Some? && r.context == Some(Renewed(m).(reason := reason)) &&
    ((m.state == Handshaking && r.state == HandshakeFailed && r.status == ConnectionError) ||
     (m.state == Receiving && r.state == ReceiveFailed && r.status == DisconnectedUnexpectedly))
  }

  /** The network refused a call while the log grew from `a` to `b` entries. */
  ghost predicate RefusedWithin(world: World, a: nat, b: nat, reason: int) {
    exists n: nat :: a <= n < b && world(n).request == Refused(reason)
  }

  lemma Refuses(world: World, a: nat, b: nat, n: nat, reason: int)
    requires a <= n < b && world(n).request == Refused(reason)
    ensures RefusedWithin(world, a, b, reason)
  {
  }

  lemma InvSound(m: Machine)
    requires Inv(m)
    ensures Sound(m)
  {
  }

  lemma AttemptKeepsPlace(m: Machine, i: nat, answer: Answer)
    requires i < |m.queue|
    ensures var (r, progress) := Attempt(m, i, answer);
      Unmoved(m, r) && m.log < r.log && r.nextId == m.nextId &&
      (progress.ContinueThenFail? ==> answer.request == Refused(progress.reason))
  {
  }

  lemma HandleLog(m: Machine, event: Event)
    ensures m.log <= Handle(m, event).0.log
  {
    hide Decide, EventContext, FirstPending;
  }

  /** A refusal ends a live state, whichever it is. */
  lemma FailureBreaks(m: Machine, reason: int)
    requires Sound(m) && Live(m.state) == 1
    ensures var (r, trigger) := Handle(m, FailureOf(m.state, reason));
      Broke(m, r, reason) && trigger == Next && Live(r.state) == 0 &&
      m.queue <= r.queue && m.nextId <= r.nextId
  {
    hide Handle, Fresh, Others;
    HandshakeEnds(m, m.context.value.cursor, reason);
    ReceiveEnds(m, m.context.value.cursor, reason);
  }

  /** Whatever runs leaves the state, its context and the status alone, unless a call is
      refused: then the state fails with that call's reason. */
  lemma {:induction false} DriveMoves(m: Machine, trigger: Trigger, world: World)
    requires Inv(m) && Runs.FairTrigger(m, trigger)
    ensures var r := Drive(m, trigger, world);
      m.log <= r.log &&
      (Unmoved(m, r) || exists reason :: Broke(m, r, reason) && RefusedWithin(world, |m.log|, |r.log|, reason))
    decreases Live(m.state), |m.queue|, if trigger.Next? then 1 else 0
  {
    hide Inv, Handle, Attempt, Renewed, Runs.FairTrigger, RefusedWithin;
    match trigger
    case Nothing =>
    case Next =>
      if |m.queue| > 0 {
        HeadIsFair(m);
        DriveMoves(m, Run(m.queue[0].id), world);
      }
    case Run(id) =>
      var i := Position(m.queue, id);
      if i < |m.queue| && m.queue[i].status == Created {
        var answer := world(|m.log|);
        RunIsFair(m, id);
        AttemptStays(m, i, answer);
        AttemptKeepsPlace(m, i, answer);
        Runs.AttemptKeeps(m, i, answer);
        NextIsFair(Attempt(m, i, answer).0);
        var (ran, progress) := Attempt(m, i, answer);
        if !progress.Stop? {
          DriveMoves(ran, Next, world);
          Runs.DriveKeeps(ran, Next, world);
          var behind := Drive(ran, Next, world);
          Widens(world, m, ran, behind);
          if progress.ContinueThenFail? && Live(behind.state) == 1 {
            var failure := FailureOf(behind.state, progress.reason);
            FailureEnds(behind, progress.reason);
            InvSound(behind);
            FailureBreaks(behind, progress.reason);
            Runs.HandleKeeps(behind, failure);
            HandleLog(behind, failure);
            var failed := Handle(behind, failure).0;
            NextIsFair(failed);
            DriveMoves(failed, Next, world);
            var r := Drive(failed, Next, world);
            assert Unmoved(m, behind) && Unmoved(failed, r);
            SameBreak(m, behind, failed, r, progress.reason);
            Refuses(world, |m.log|, |r.log|, |m.log|, progress.reason);
          }
        }
      }
  }

  lemma SameBreak(m: Machine, behind: Machine, failed: Machine, r: Machine, reason: int)
    requires Unmoved(m, behind) && Broke(behind, failed, reason) && Unmoved(failed, r)
    ensures Broke(m, r, reason)
  {
  }

  lemma Widens(world: World, m: Machine, ran: Machine, r: Machine)
    requires Unmoved(m, ran) && m.log < ran.log
    ensures Unmoved(ran, r) ==> Unmoved(m, r)
    ensures forall reason :: Broke(ran, r, reason) && RefusedWithin(world, |ran.log|, |r.log|, reason) ==>
      Broke(m, r, reason) && RefusedWithin(world, |m.log|, |r.log|, reason)
  {
  }

  lemma HeadIsFair(m: Machine)
    requires Inv(m) && |m.queue| > 0
    ensures Runs.FairTrigger(m, Run(m.queue[0].id))
  {
  }

  lemma NextIsFair(m: Machine)
    ensures Runs.FairTrigger(m, Next)
  {
  }

  lemma RunIsFair(m: Machine, id: nat)
    requires Runs.FairTrigger(m, Run(id)) && Position(m.queue, id) < |m.queue|
    ensures var i := Position(m.queue, id); i == 0 || m.queue[i].kind == Cancel
  {
  }

  // ---------- a refused call ----------

  predicate Asks(kind: InvocationType) { kind == Handshake || kind == Receive }

  predicate NoRequests(queue: seq<Invocation>) {
    forall k :: 0 <= k < |queue| ==> !Asks(queue[k].kind)
  }

  lemma NoRequestsAfter(m: Machine, i: nat, answer: Answer)
    requires i < |m.queue| && NoRequests(m.queue)
    ensures NoRequests(Attempt(m, i, answer).0.queue) && !Attempt(m, i, answer).1.ContinueThenFail?
  {
  }

  /** Without a request in the queue nothing can be refused. */
  lemma {:induction false} DriveQuietly(m: Machine, trigger: Trigger, world: World)
    requires NoRequests(m.queue)
    ensures Unmoved(m, Drive(m, trigger, world))
    decreases Live(m.state), |m.queue|, if trigger.Next? then 1 else 0
  {
    hide Attempt, NoRequests;
    match trigger
    case Nothing =>
    case Next =>
      if |m.queue| > 0 {
        DriveQuietly(m, Run(m.queue[0].id), world);
      }
    case Run(id) =>
      var i := Position(m.queue, id);
      if i < |m.queue| && m.queue[i].status == Created {
        var answer := world(|m.log|);
        AttemptStays(m, i, answer);
        AttemptKeepsPlace(m, i, answer);
        NoRequestsAfter(m, i, answer);
        var (ran, progress) := Attempt(m, i, answer);
        if progress.Continue? {
          DriveQuietly(ran, Next, world);
        }
      }
  }

  /** The head of the queue is a request that goes to the network now. */
  predicate CallIsNext(m: Machine) {
    |m.queue| > 0 && Asks(m.queue[0].kind) && m.queue[0].status == Created &&
    !m.queue[0].context.sendHeartbeat && m.transaction == NoTransaction
  }

  lemma Refuse(m: Machine, answer: Answer)
    requires CallIsNext(m) && answer.request.Refused?
    ensures var (ran, progress) := Attempt(m, 0, answer);
      progress == ContinueThenFail(answer.request.reason) && ran.queue == m.queue[1..]
  {
  }

  lemma RefusedRuns(m: Machine, world: World)
    requires CallIsNext(m) && world(|m.log|).request.Refused?
    ensures var reason, ran := world(|m.log|).request.reason, Attempt(m, 0, world(|m.log|)).0;
      var behind := Drive(ran, Next, world);
      Drive(m, Next, world) ==
        if Live(behind.state) == 0 then behind
        else
          var (failed, next) := Handle(behind, FailureOf(behind.state, reason));
          Drive(failed, next, world)
  {
    hide Handle, Attempt;
    Refuse(m, world(|m.log|));
    assert Position(m.queue, m.queue[0].id) == 0;
    assert Drive(m, Next, world) == Drive(m, Run(m.queue[0].id), world);
  }

  /** A call that is refused in a live state makes that state fail; with no other request
      behind it, the reason is this call's. */
  lemma RefusedCallFails(m: Machine, world: World)
    requires Inv(m) && CallIsNext(m) && world(|m.log|).request.Refused?
    requires m.state == Handshaking || m.state == Receiving
    ensures var r := Drive(m, Next, world);
      (exists reason :: Broke(m, r, reason)) &&
      (NoRequests(m.queue[1..]) ==> Broke(m, r, world(|m.log|).request.reason))
  {
    hide Inv, Handle, Attempt, Renewed, Runs.FairTrigger, RefusedWithin, NoRequests, Broke, Drive;
    var answer := world(|m.log|);
    var reason := answer.request.reason;
    Refuse(m, answer);
    AttemptStays(m, 0, answer);
    AttemptKeepsPlace(m, 0, answer);
    Runs.AttemptKeeps(m, 0, answer);
    var ran := Attempt(m, 0, answer).0;
    NextIsFair(ran);
    DriveMoves(ran, Next, world);
    Runs.DriveKeeps(ran, Next, world);
    var behind := Drive(ran, Next, world);
    Widens(world, m, ran, behind);
    if NoRequests(m.queue[1..]) {
      DriveQuietly(ran, Next, world);
    }
    BrokeNotLive(ran, behind);
    RefusedRuns(m, world);
    if Live(behind.state) == 1 {
      FailureEnds(behind, reason);
      InvSound(behind);
      FailureBreaks(behind, reason);
      Runs.HandleKeeps(behind, FailureOf(behind.state, reason));
      var failed := Handle(behind, FailureOf(behind.state, reason)).0;
      NextIsFair(failed);
      DriveMoves(failed, Next, world);
      FailedStays(failed, Drive(failed, Next, world));
      SameBreak(m, behind, failed, Drive(failed, Next, world), reason);
    } else {
      assert !Unmoved(m, behind);
    }
  }

  lemma FailedStays(m: Machine, r: Machine)
    requires Live(m.state) == 0
    ensures forall reason :: !Broke(m, r, reason)
  {
  }

  lemma BrokeNotLive(m: Machine, r: Machine)
    ensures Live(r.state) == 1 ==> forall reason :: !Broke(m, r, reason)
  {
  }

  lemma LiveUnbroken(m: Machine, r: Machine)
    requires Live(m.state) == 1 && Live(r.state) == 0
    ensures !Unmoved(m, r)
  {
  }

  // ---------- nothing is lost on the way ----------

  predicate SameData(a: Context, b: Context) {
    a.channels == b.channels && a.groups == b.groups && a.cursor == b.cursor
  }

  /** Still to run, for the same lists and the same cursor. */
  predicate Queued(queue: seq<Invocation>, id: nat, kind: InvocationType, context: Context) {
    exists k :: 0 <= k < |queue| && queue[k].id == id && queue[k].kind == kind &&
      queue[k].status == Created && SameData(queue[k].context, context)
  }

  /** Finished, and a request went out for the same lists and the same cursor. */
  predicate DoneAt(log: seq<Entry>, k: nat, id: nat, kind: InvocationType, context: Context) {
    0 < k < |log| && log[k] == Finished(id, kind) &&
    (Asks(kind) ==> log[k - 1].Requested? && log[k - 1].kind == kind && SameData(log[k - 1].context, context))
  }

  predicate DoneSince(log: seq<Entry>, a: nat, id: nat, kind: InvocationType, context: Context) {
    exists k :: a <= k < |log| && DoneAt(log, k, id, kind, context)
  }

  lemma DoneLater(log: seq<Entry>, later: seq<Entry>, a: nat, b: nat, id: nat, kind: InvocationType, context: Context)
    requires log <= later && a <= b && DoneSince(log, b, id, kind, context)
    ensures DoneSince(later, a, id, kind, context)
  {
    var k :| b <= k < |log| && DoneAt(log, k, id, kind, context);
    assert DoneAt(later, k, id, kind, context);
  }

  lemma AttemptServes(m: Machine, i: nat, answer: Answer, id: nat, kind: InvocationType, context: Context)
    requires QueueOrdered(m) && i < |m.queue| && m.queue[i].status == Created && kind != Cancel && Queued(m.queue, id, kind, context)
    ensures var r := Attempt(m, i, answer).0;
      Queued(r.queue, id, kind, context) || DoneSince(r.log, |m.log|, id, kind, context)
  {
    var r := Attempt(m, i, answer).0;
    var k :| 0 <= k < |m.queue| && m.queue[k].id == id && m.queue[k].kind == kind &&
      m.queue[k].status == Created && SameData(m.queue[k].context, context);
    if k != i {
      OtherStays(m, i, answer, k);
      var j :| 0 <= j < |r.queue| && r.queue[j] == m.queue[k];
    } else {
      OwnRuns(m, i, answer);
      if r.queue == RemoveAt(m.queue, i) {
        assert DoneAt(r.log, |r.log| - 1, id, kind, context);
      } else {
        assert r.queue[i].id == id;
      }
    }
  }

  lemma OtherStays(m: Machine, i: nat, answer: Answer, k: nat)
    requires i < |m.queue| && k < |m.queue| && k != i
    ensures exists j :: 0 <= j < |Attempt(m, i, answer).0.queue| && Attempt(m, i, answer).0.queue[j] == m.queue[k]
  {
    var r := Attempt(m, i, answer).0;
    if |r.queue| == |m.queue| {
      assert r.queue[k] == m.queue[k];
    } else {
      assert r.queue == RemoveAt(m.queue, i);
      assert r.queue[if k < i then k else k - 1] == m.queue[k];
    }
  }

  /** An invocation other than a cancel that runs pauses, or finishes after its call. */
  lemma OwnRuns(m: Machine, i: nat, answer: Answer)
    requires i < |m.queue| && m.queue[i].kind != Cancel
    ensures var r, x := Attempt(m, i, answer).0, m.queue[i];
      if |r.queue| == |m.queue| then
        r.queue[i] == x.(context := r.queue[i].context) && SameData(r.queue[i].context, x.context)
      else
        r.queue == RemoveAt(m.queue, i) && |r.log| >= |m.log| + 2 && r.log[|r.log| - 1] == Finished(x.id, x.kind) &&
        (Asks(x.kind) ==> r.log[|r.log| - 2] == Requested(x.kind, x.context))
  {
  }

  lemma StillQueued(a: seq<Invocation>, b: seq<Invocation>, id: nat, kind: InvocationType, context: Context)
    requires a <= b && Queued(a, id, kind, context)
    ensures Queued(b, id, kind, context)
  {
    var k :| 0 <= k < |a| && a[k].id == id && a[k].kind == kind && a[k].status == Created && SameData(a[k].context, context);
    assert b[k] == a[k];
  }

  /** What is queued, apart from cancels, is still queued afterwards or has run with the
      lists and the cursor it was queued with. */
  lemma {:induction false} DriveServes(m: Machine, trigger: Trigger, world: World, id: nat, kind: InvocationType, context: Context)
    requires Inv(m) && Runs.FairTrigger(m, trigger) && kind != Cancel && Queued(m.queue, id, kind, context)
    ensures var r := Drive(m, trigger, world);
      Queued(r.queue, id, kind, context) || DoneSince(r.log, |m.log|, id, kind, context)
    decreases Live(m.state), |m.queue|, if trigger.Next? then 1 else 0
  {
    hide Inv, Handle, Attempt, Runs.FairTrigger, Queued, DoneSince;
    match trigger
    case Nothing =>
    case Next =>
      if |m.queue| > 0 {
        HeadIsFair(m);
        DriveServes(m, Run(m.queue[0].id), world, id, kind, context);
      }
    case Run(x) =>
      var i := Position(m.queue, x);
      if i < |m.queue| && m.queue[i].status == Created {
        var answer := world(|m.log|);
        RunIsFair(m, x);
        AttemptStays(m, i, answer);
        AttemptKeepsPlace(m, i, answer);
        Runs.AttemptKeeps(m, i, answer);
        InvOrdered(m);
        AttemptServes(m, i, answer, id, kind, context);
        var (ran, progress) := Attempt(m, i, answer);
        NextIsFair(ran);
        if !progress.Stop? {
          DriveMoves(ran, Next, world);
          Runs.DriveKeeps(ran, Next, world);
          var behind := Drive(ran, Next, world);
          if Queued(ran.queue, id, kind, context) {
            DriveServes(ran, Next, world, id, kind, context);
          }
          Carries(m.log, ran.log, behind.log, id, kind, context);
          if progress.ContinueThenFail? && Live(behind.state) == 1 {
            var failure := FailureOf(behind.state, progress.reason);
            FailureEnds(behind, progress.reason);
            InvSound(behind);
            FailureBreaks(behind, progress.reason);
            Runs.HandleKeeps(behind, failure);
            HandleLog(behind, failure);
            var failed := Handle(behind, failure).0;
            NextIsFair(failed);
            DriveMoves(failed, Next, world);
            if Queued(behind.queue, id, kind, context) {
              StillQueued(behind.queue, failed.queue, id, kind, context);
              DriveServes(failed, Next, world, id, kind, context);
            }
            Carries(m.log, behind.log, Drive(failed, Next, world).log, id, kind, context);
            Carries(m.log, failed.log, Drive(failed, Next, world).log, id, kind, context);
          }
        }
      }
  }

  lemma Carries(first: seq<Entry>, second: seq<Entry>, third: seq<Entry>, id: nat, kind: InvocationType, context: Context)
    requires first <= second <= third
    ensures DoneSince(second, |first|, id, kind, context) ==> DoneSince(third, |first|, id, kind, context)
    ensures DoneSince(third, |second|, id, kind, context) ==> DoneSince(third, |first|, id, kind, context)
  {
    if DoneSince(second, |first|, id, kind, context) {
      DoneLater(second, third, |first|, |first|, id, kind, context);
    }
    if DoneSince(third, |second|, id, kind, context) {
      DoneLater(third, third, |first|, |second|, id, kind, context);
    }
  }

  lemma InvOrdered(m: Machine)
    requires Inv(m)
    ensures QueueOrdered(m)
  {
  }

  // ---------- how far it goes ----------

  /** Nothing is left that could run: the queue is empty, its head is a cancel that
      waits, or what ran last paused or waits. */
  predicate AtRest(r: Machine) {
    r.queue == [] || r.queue[0].status == Running ||
    (r.log != [] && (r.log[|r.log| - 1].Paused? || r.log[|r.log| - 1].Waiting?))
  }

  lemma StopRests(m: Machine, i: nat, answer: Answer)
    requires i < |m.queue| && Attempt(m, i, answer).1.Stop?
    ensures AtRest(Attempt(m, i, answer).0)
  {
  }

  lemma HeadCreated(m: Machine)
    requires Inv(m) && |m.queue| > 0 && m.queue[0].status != Running
    ensures Position(m.queue, m.queue[0].id) == 0 && m.queue[0].status == Created
  {
  }

  /** Running the next invocation goes on until nothing more can run. */
  lemma {:induction false} DriveRests(m: Machine, trigger: Trigger, world: World)
    requires Inv(m) && Runs.FairTrigger(m, trigger)
    requires trigger.Run? ==> var i := Position(m.queue, trigger.id); i < |m.queue| && m.queue[i].status == Created
    ensures !trigger.Nothing? ==> AtRest(Drive(m, trigger, world))
    decreases Live(m.state), |m.queue|, if trigger.Next? then 1 else 0
  {
    hide Inv, Handle, Attempt, Runs.FairTrigger, AtRest;
    match trigger
    case Nothing =>
    case Next =>
      if |m.queue| == 0 || m.queue[0].status == Running {
        RestsAlready(m);
        assert |m.queue| == 0 || Position(m.queue, m.queue[0].id) == 0;
        assert Drive(m, Next, world) == m;
      } else {
        HeadCreated(m);
        HeadIsFair(m);
        DriveRests(m, Run(m.queue[0].id), world);
      }
    case Run(id) =>
      var i := Position(m.queue, id);
      var answer := world(|m.log|);
      RunIsFair(m, id);
      AttemptStays(m, i, answer);
      Runs.AttemptKeeps(m, i, answer);
      var (ran, progress) := Attempt(m, i, answer);
      if progress.Stop? {
        StopRests(m, i, answer);
      } else {
        NextIsFair(ran);
        DriveRests(ran, Next, world);
        Runs.DriveKeeps(ran, Next, world);
        var behind := Drive(ran, Next, world);
        if progress.ContinueThenFail? && Live(behind.state) == 1 {
          var failure := FailureOf(behind.state, progress.reason);
          FailureEnds(behind, progress.reason);
          InvSound(behind);
          FailureBreaks(behind, progress.reason);
          Runs.HandleKeeps(behind, failure);
          NextIsFair(Handle(behind, failure).0);
          DriveRests(Handle(behind, failure).0, Next, world);
        }
      }
  }

  lemma RestsAlready(m: Machine)
    requires |m.queue| == 0 || m.queue[0].status == Running
    ensures AtRest(m)
  {
  }

  // ---------- the wire ----------

  /** No call went out and no cancel was started. */
  predicate QuietSince(log: seq<Entry>, a: nat) {
    forall k :: a <= k < |log| ==> !log[k].Requested? && !log[k].Waiting?
  }

  /** A call goes out, and a cancel starts, only on a free wire; and a call that owes a
      heartbeat never does. */
  lemma OnlyOnFreeWire(m: Machine, i: nat, answer: Answer)
    requires i < |m.queue|
    ensures var r := Attempt(m, i, answer).0;
      (m.transaction != NoTransaction || (m.queue[i].context.sendHeartbeat && m.queue[i].kind != Cancel) ==> QuietSince(r.log, |m.log|)) &&
      r.leaveChannels == m.leaveChannels && r.leaveGroups == m.leaveGroups &&
      (r.transaction == m.transaction ||
       (m.transaction == NoTransaction && r.transaction == HeartbeatTransaction && r.cancelInvocation == m.cancelInvocation))
  {
  }

  /** The heartbeat a request owes goes first, once: the request stays at its place and
      owes nothing any more. When no transaction can start, it still owes it. */
  lemma HeartbeatGoesFirst(m: Machine, i: nat, answer: Answer)
    requires i < |m.queue| && Asks(m.queue[i].kind) && m.transaction == NoTransaction && m.queue[i].context.sendHeartbeat
    ensures var (r, progress) := Attempt(m, i, answer);
      progress == Stop &&
      if answer.canStart then
        r.transaction == HeartbeatTransaction && |r.queue| == |m.queue| && !r.queue[i].context.sendHeartbeat &&
        r.queue == m.queue[i := m.queue[i].(context := r.queue[i].context)] && SameData(r.queue[i].context, m.queue[i].context)
      else
        r.transaction == NoTransaction && r.queue == m.queue
  {
  }

  /** A cancel on a free wire ends at once, or runs until a callback ends it. */
  lemma CancelEndsOrWaits(m: Machine, i: nat, answer: Answer)
    requires i < |m.queue| && m.queue[i].kind == Cancel && m.transaction == NoTransaction
    ensures var (r, progress) := Attempt(m, i, answer);
      if answer.cancelFinished then
        progress == Continue && r.queue == RemoveAt(m.queue, i) && r.cancelInvocation == m.cancelInvocation
      else
        progress == Stop && r.queue == m.queue[i := m.queue[i].(status := Running)] && r.cancelInvocation == Some(m.queue[i].id)
  {
  }

  lemma BusyContinues(m: Machine, i: nat, answer: Answer)
    requires i < |m.queue| && m.transaction != NoTransaction
    ensures var (r, progress) := Attempt(m, i, answer);
      !progress.ContinueThenFail? && r.transaction == m.transaction && r.cancelInvocation == m.cancelInvocation &&
      (progress.Continue? ==> !Asks(m.queue[i].kind) && m.queue[i].kind != Cancel)
  {
  }

  lemma QuietOn(first: seq<Entry>, second: seq<Entry>, third: seq<Entry>)
    requires first <= second <= third && QuietSince(second, |first|) && QuietSince(third, |second|)
    ensures QuietSince(third, |first|)
  {
    forall k | |first| <= k < |third| ensures !third[k].Requested? && !third[k].Waiting? {
      if k < |second| {
        assert third[k] == second[k];
      }
    }
  }

  /** While a heartbeat or a leave is on the wire, nothing that runs makes another call,
      starts a cancel or moves the engine. */
  lemma {:induction false} BusyWireIsLeftAlone(m: Machine, trigger: Trigger, world: World)
    requires m.transaction != NoTransaction
    ensures var r := Drive(m, trigger, world);
      m.log <= r.log && QuietSince(r.log, |m.log|) && Unmoved(m, r) &&
      r.transaction == m.transaction && r.cancelInvocation == m.cancelInvocation
    decreases Live(m.state), |m.queue|, if trigger.Next? then 1 else 0
  {
    hide Attempt, QuietSince;
    match trigger
    case Nothing =>
      NothingYet(m);
    case Next =>
      if |m.queue| > 0 {
        BusyWireIsLeftAlone(m, Run(m.queue[0].id), world);
      } else {
        NothingYet(m);
      }
    case Run(id) =>
      var i := Position(m.queue, id);
      NothingYet(m);
      if i < |m.queue| && m.queue[i].status == Created {
        var answer := world(|m.log|);
        AttemptStays(m, i, answer);
        AttemptKeepsPlace(m, i, answer);
        OnlyOnFreeWire(m, i, answer);
        BusyContinues(m, i, answer);
        var (ran, progress) := Attempt(m, i, answer);
        if progress.Continue? {
          BusyWireIsLeftAlone(ran, Next, world);
          QuietOn(m.log, ran.log, Drive(ran, Next, world).log);
        }
      }
  }

  lemma NothingYet(m: Machine)
    ensures QuietSince(m.log, |m.log|)
  {
  }

  lemma HandleWire(m: Machine, event: Event)
    ensures var r := Handle(m, event).0;
      r.leaveChannels == m.leaveChannels && r.leaveGroups == m.leaveGroups && r.transaction == m.transaction
  {
    hide Decide, EventContext, FirstPending;
  }

  /** Running keeps what is still to be left, and puts nothing but a heartbeat on the
      wire. */
  lemma {:induction false} DriveWire(m: Machine, trigger: Trigger, world: World)
    ensures var r := Drive(m, trigger, world);
      r.leaveChannels == m.leaveChannels && r.leaveGroups == m.leaveGroups &&
      (r.transaction == m.transaction || (m.transaction == NoTransaction && r.transaction == HeartbeatTransaction))
    decreases Live(m.state), |m.queue|, if trigger.Next? then 1 else 0
  {
    hide Attempt, Handle;
    match trigger
    case Nothing =>
    case Next =>
      if |m.queue| > 0 {
        DriveWire(m, Run(m.queue[0].id), world);
      }
    case Run(id) =>
      var i := Position(m.queue, id);
      if i < |m.queue| && m.queue[i].status == Created {
        var answer := world(|m.log|);
        AttemptStays(m, i, answer);
        OnlyOnFreeWire(m, i, answer);
        var (ran, progress) := Attempt(m, i, answer);
        if !progress.Stop? {
          DriveWire(ran, Next, world);
          var behind := Drive(ran, Next, world);
          if progress.ContinueThenFail? && Live(behind.state) == 1 {
            var failure := FailureOf(behind.state, progress.reason);
            FailureEnds(behind, progress.reason);
            HandleWire(behind, failure);
            DriveWire(Handle(behind, failure).0, Handle(behind, failure).1, world);
          }
        }
      }
  }
}
