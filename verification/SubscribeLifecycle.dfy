/** The queue always is what the log leaves unfinished: one lemma per primitive. */
module SubscribeLifecycle {
  import opened Common
  import opened SubscribeTypes
  import opened SubscribeMachine
  import opened SubscribeLog
  import opened SubscribeInvariants

  // ---------- where an invocation stands ----------

  predicate Distinct(queue: seq<Invocation>) {
    forall j, k :: 0 <= j < k < |queue| ==> queue[j].id != queue[k].id
  }

  lemma {:induction false} StandingAt(queue: seq<Invocation>, k: nat)
    requires Distinct(queue) && k < |queue|
    ensures Standing(queue, queue[k].id) == Held(queue[k].status)
  {
    if k > 0 {
      StandingAt(queue[1..], k - 1);
    }
  }

  lemma {:induction false} StandingNowhere(queue: seq<Invocation>, id: nat)
    requires forall k :: 0 <= k < |queue| ==> queue[k].id != id
    ensures Standing(queue, id) == Gone
  {
    if queue != [] {
      StandingNowhere(queue[1..], id);
    }
  }

  lemma {:induction false} StandingRemoved(queue: seq<Invocation>, i: nat, id: nat)
    requires Distinct(queue) && i < |queue|
    ensures Standing(RemoveAt(queue, i), id) == if id == queue[i].id then Gone else Standing(queue, id)
  {
    if i == 0 {
      assert RemoveAt(queue, 0) == queue[1..];
      if id == queue[0].id {
        StandingNowhere(queue[1..], id);
      }
    } else {
      StandingRemoved(queue[1..], i - 1, id);
      assert RemoveAt(queue, i)[1..] == RemoveAt(queue[1..], i - 1);
    }
  }

  lemma {:induction false} StandingAppended(queue: seq<Invocation>, last: Invocation, id: nat)
    requires last.status == Created
    ensures Standing(queue + [last], id) ==
            if Standing(queue, id) != Gone then Standing(queue, id)
            else if id == last.id then Pending else Gone
  {
    if queue != [] {
      StandingAppended(queue[1..], last, id);
      assert (queue + [last])[1..] == queue[1..] + [last];
    }
  }

  lemma {:induction false} StandingUpdated(queue: seq<Invocation>, i: nat, next: Invocation, id: nat)
    requires Distinct(queue) && i < |queue| && next.id == queue[i].id
    ensures Standing(queue[i := next], id) == if id == next.id then Held(next.status) else Standing(queue, id)
  {
    if i > 0 {
      StandingUpdated(queue[1..], i - 1, next, id);
      assert queue[i := next][1..] == queue[1..][i - 1 := next];
    } else {
      assert queue[0 := next][1..] == queue[1..];
    }
  }

  // ---------- the primitives ----------

  lemma RemovedOrdered(m: Machine, i: nat)
    requires QueueOrdered(m) && i < |m.queue|
    ensures QueueOrdered(m.(queue := RemoveAt(m.queue, i)))
  {
    var r := m.(queue := RemoveAt(m.queue, i));
    forall k | 0 <= k < |r.queue| ensures r.queue[k] == m.queue[if k < i then k else k + 1] {
    }
  }

  lemma RemoveKeeps(m: Machine, kind: InvocationType)
    requires QueueOrdered(m) && Tracked(m)
    ensures QueueOrdered(CancelByType(m, kind)) && Tracked(CancelByType(m, kind))
  {
    var i := FirstPending(m.queue, kind);
    if i < |m.queue| {
      var r := CancelByType(m, kind);
      Push(m.log, Removed(m.queue[i].id));
      StandingAt(m.queue, i);
      RemovedOrdered(m, i);
      forall id: nat ensures PhaseOf(r.log, id) == Expected(r, id) {
        StandingRemoved(m.queue, i, id);
        assert PhaseOf(m.log, id) == Expected(m, id);
      }
      assert PhaseOf(m.log, m.queue[i].id) == Expected(m, m.queue[i].id);
    }
  }

  lemma EnqueueKeeps(m: Machine, kind: InvocationType, context: Context)
    requires QueueOrdered(m) && Tracked(m)
    ensures QueueOrdered(Enqueue(m, kind, context)) && Tracked(Enqueue(m, kind, context))
  {
    var r := Enqueue(m, kind, context);
    Push(m.log, Enqueued(m.nextId, kind));
    assert PhaseOf(m.log, m.nextId) == Expected(m, m.nextId);
    forall id: nat ensures PhaseOf(r.log, id) == Expected(r, id) {
      StandingAppended(m.queue, r.queue[|m.queue|], id);
      assert PhaseOf(m.log, id) == Expected(m, id);
      if id == m.nextId {
        StandingNowhere(m.queue, id);
      }
    }
  }

  lemma PauseKeeps(m: Machine, i: nat)
    requires QueueOrdered(m) && Tracked(m) && i < |m.queue| && m.queue[i].status == Created
    ensures QueueOrdered(Pause(m, i)) && Tracked(Pause(m, i))
  {
    var r := Pause(m, i);
    var id := m.queue[i].id;
    StandingAt(m.queue, i);
    assert PhaseOf(m.log, id) == Expected(m, id);
    Push(m.log, Started(id));
    Push(m.log + [Started(id)], Paused(id));
    forall x: nat ensures PhaseOf(r.log, x) == Expected(r, x) {
      assert PhaseOf(m.log, x) == Expected(m, x);
      assert PhaseOf(m.log + [Started(id)], x) == if x == id then Active else PhaseOf(m.log, x);
    }
  }

  /** Neither the heartbeat flag nor the transaction is part of the log's view. */
  lemma FlagKeeps(m: Machine, i: nat, context: Context, transaction: Transaction)
    requires QueueOrdered(m) && Tracked(m) && i < |m.queue|
    ensures var r := m.(queue := m.queue[i := m.queue[i].(context := context)], transaction := transaction);
      QueueOrdered(r) && Tracked(r)
  {
    var r := m.(queue := m.queue[i := m.queue[i].(context := context)], transaction := transaction);
    forall id: nat ensures PhaseOf(r.log, id) == Expected(r, id) {
      StandingAt(m.queue, i);
      StandingUpdated(m.queue, i, r.queue[i], id);
      assert PhaseOf(m.log, id) == Expected(m, id);
    }
  }

  lemma FinishKeeps(m: Machine, i: nat, done: Option<Entry>)
    requires QueueOrdered(m) && Tracked(m) && i < |m.queue| && m.queue[i].status == Created
    requires done.Some? ==> done.value.Reported? || done.value.Requested?
    ensures QueueOrdered(Finish(m, i, done)) && Tracked(Finish(m, i, done))
  {
    var r := Finish(m, i, done);
    var id := m.queue[i].id;
    StandingAt(m.queue, i);
    assert PhaseOf(m.log, id) == Expected(m, id);
    var started := m.log + [Started(id)];
    Push(m.log, Started(id));
    var noted := if done.Some? then started + [done.value] else started;
    if done.Some? {
      Push(started, done.value);
    }
    Push(noted, Finished(id, m.queue[i].kind));
    RemovedOrdered(m, i);
    forall x: nat ensures PhaseOf(r.log, x) == Expected(r, x) {
      StandingRemoved(m.queue, i, x);
      assert PhaseOf(m.log, x) == Expected(m, x);
      assert PhaseOf(started, x) == if x == id then Active else PhaseOf(m.log, x);
      assert PhaseOf(noted, x) == PhaseOf(started, x);
    }
    assert Legal(started) && PhaseOf(started, id) == Active;
    assert Legal(noted) && PhaseOf(noted, id) == Active;
  }

  lemma WaitKeeps(m: Machine, i: nat)
    requires QueueOrdered(m) && Tracked(m) && i < |m.queue|
    requires m.queue[i].status == Created && m.queue[i].kind == Cancel
    ensures QueueOrdered(Wait(m, i)) && Tracked(Wait(m, i))
  {
    var r := Wait(m, i);
    var id := m.queue[i].id;
    StandingAt(m.queue, i);
    assert PhaseOf(m.log, id) == Expected(m, id);
    var started := m.log + [Started(id)];
    Push(m.log, Started(id));
    Push(started, Waiting(id));
    forall x: nat ensures PhaseOf(r.log, x) == Expected(r, x) {
      StandingUpdated(m.queue, i, r.queue[i], x);
      assert PhaseOf(m.log, x) == Expected(m, x);
      assert PhaseOf(started, x) == if x == id then Active else PhaseOf(m.log, x);
    }
    assert Legal(started) && PhaseOf(started, id) == Active;
  }

  lemma FinishCancelKeeps(m: Machine)
    requires QueueOrdered(m) && Tracked(m)
    ensures QueueOrdered(FinishCancel(m)) && Tracked(FinishCancel(m))
  {
    hide Standing, StoryOf;
    if m.cancelInvocation.Some? {
      var r := FinishCancel(m);
      var i := Position(m.queue, m.cancelInvocation.value);
      if i < |m.queue| && m.queue[i].status == Running {
        StandingAt(m.queue, i);
        assert PhaseOf(m.log, m.queue[i].id) == Expected(m, m.queue[i].id);
        Push(m.log, Finished(m.queue[i].id, m.queue[i].kind));
        RemovedOrdered(m, i);
        forall x: nat ensures PhaseOf(r.log, x) == Expected(r, x) {
          StandingRemoved(m.queue, i, x);
          assert PhaseOf(m.log, x) == Expected(m, x);
        }
      } else {
        forall x: nat ensures PhaseOf(r.log, x) == Expected(r, x) {
          assert PhaseOf(m.log, x) == Expected(m, x);
        }
      }
    }
  }

  /** Writing down a move changes no invocation. */
  lemma MoveKeeps(m: Machine, event: Event, origin: StateType, target: StateType, context: Option<Context>)
    requires QueueOrdered(m) && Tracked(m)
    ensures var r := m.(state := target, context := context, log := m.log + [Moved(event, origin, target)]);
      QueueOrdered(r) && Tracked(r)
  {
    var r := m.(state := target, context := context, log := m.log + [Moved(event, origin, target)]);
    Push(m.log, Moved(event, origin, target));
    forall id: nat ensures PhaseOf(r.log, id) == Expected(r, id) {
      assert PhaseOf(m.log, id) == Expected(m, id);
    }
  }
}
