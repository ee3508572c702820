/** Non-immediate invocations finish in the order they were enqueued. */
module SubscribeOrder {
  import opened Common
  import opened SubscribeTypes
  import opened SubscribeMachine
  import opened SubscribeLog
  import opened SubscribeInvariants

  function DeferredOne(invocation: Invocation): seq<nat> {
    if invocation.kind == Cancel then [] else [invocation.id]
  }

  lemma {:induction false} DeferredAppended(queue: seq<Invocation>, last: Invocation)
    ensures Deferred(queue + [last]) == Deferred(queue) + DeferredOne(last)
  {
    if queue == [] {
      assert queue + [last] == [last];
    } else {
      assert (queue + [last])[1..] == queue[1..] + [last];
      DeferredAppended(queue[1..], last);
    }
  }

  lemma {:induction false} DeferredIn(queue: seq<Invocation>, id: nat)
    requires id in Deferred(queue)
    ensures exists k :: 0 <= k < |queue| && queue[k].id == id
  {
    if queue[0].kind == Cancel || id != queue[0].id {
      DeferredIn(queue[1..], id);
      var k :| 0 <= k < |queue[1..]| && queue[1..][k].id == id;
      assert queue[k + 1].id == id;
    }
  }

  lemma {:induction false} DeferredRemoved(queue: seq<Invocation>, i: nat)
    requires i < |queue|
    requires forall j, k :: 0 <= j < k < |queue| ==> queue[j].id < queue[k].id
    ensures Deferred(RemoveAt(queue, i)) ==
            if queue[i].kind == Cancel then Deferred(queue) else Without(Deferred(queue), {queue[i].id})
  {
    hide Without, Deferred;
    var id, first, rest := queue[i].id, queue[0], queue[1..];
    DeferredFirst(queue);
    WithoutAppend(DeferredOne(first), Deferred(rest), {id});
    if i == 0 {
      assert RemoveAt(queue, 0) == rest;
      forall x | x in Deferred(rest) ensures x != id {
        DeferredIn(rest, x);
      }
      WithoutKeeps(Deferred(rest), {id});
      WithoutOnly(id);
      assert [] + Deferred(rest) == Deferred(rest);
    } else {
      DeferredRemoved(rest, i - 1);
      assert RemoveAt(queue, i) == [first] + RemoveAt(rest, i - 1);
      DeferredFirst(RemoveAt(queue, i));
      assert RemoveAt(queue, i)[1..] == RemoveAt(rest, i - 1);
      WithoutKeeps(DeferredOne(first), {id});
    }
  }

  lemma DeferredFirst(queue: seq<Invocation>)
    requires queue != []
    ensures Deferred(queue) == DeferredOne(queue[0]) + Deferred(queue[1..])
  {
  }

  lemma WithoutOnly(id: nat)
    ensures Without([id], {id}) == []
  {
  }

  lemma {:induction false} DeferredUpdated(queue: seq<Invocation>, i: nat, next: Invocation)
    requires i < |queue| && next.id == queue[i].id && next.kind == queue[i].kind
    ensures Deferred(queue[i := next]) == Deferred(queue)
  {
    if i == 0 {
      assert queue[0 := next][1..] == queue[1..];
    } else {
      DeferredUpdated(queue[1..], i - 1, next);
      assert queue[i := next][1..] == queue[1..][i - 1 := next];
    }
  }

  // ---------- the primitives ----------

  lemma RemovedOrdered(finished: seq<nat>, enqueued: seq<nat>, removed: set<nat>, queue: seq<Invocation>, nextId: nat, i: nat)
    requires Ordered(finished, enqueued, removed, queue, nextId) && i < |queue|
    requires queue[i].kind != Cancel && queue[i].id < nextId
    requires forall j, k :: 0 <= j < k < |queue| ==> queue[j].id < queue[k].id
    ensures Ordered(finished, enqueued, removed + {queue[i].id}, RemoveAt(queue, i), nextId)
  {
    hide Without, Deferred;
    var id := queue[i].id;
    var rest := RemoveAt(queue, i);
    DeferredRemoved(queue, i);
    WithoutMore(enqueued, removed, id);
    WithoutAppend(finished, Deferred(queue), {id});
    WithoutKeeps(finished, {id});
    assert rest == queue[..i] + queue[i + 1..];
  }

  lemma RemoveOrder(m: Machine, kind: InvocationType)
    requires QueueOrdered(m) && InOrder(m) && kind != Cancel
    ensures InOrder(CancelByType(m, kind))
  {
    hide Ordered, EnqueuedIds, FinishedIds, RemovedIds;
    var i := FirstPending(m.queue, kind);
    if i < |m.queue| {
      PushIds(m.log, Removed(m.queue[i].id));
      RemovedOrdered(FinishedIds(m.log), EnqueuedIds(m.log), RemovedIds(m.log), m.queue, m.nextId, i);
    }
  }

  lemma IncreasingWithNew(s: seq<nat>, last: seq<nat>, bound: nat)
    requires StrictlyIncreasing(s) && (forall x :: x in s ==> x < bound)
    requires last == [] || last == [bound]
    ensures StrictlyIncreasing(s + last)
  {
    assert forall k :: 0 <= k < |s| ==> s[k] in s;
  }

  lemma EnqueueOrder(m: Machine, kind: InvocationType, context: Context)
    requires QueueOrdered(m) && InOrder(m)
    ensures InOrder(Enqueue(m, kind, context))
  {
    hide Without, Deferred, EnqueuedIds, FinishedIds, RemovedIds;
    var r := Enqueue(m, kind, context);
    var last := DeferredOne(r.queue[|m.queue|]);
    PushIds(m.log, Enqueued(m.nextId, kind));
    DeferredAppended(m.queue, r.queue[|m.queue|]);
    assert EnqueuedIds(r.log) == EnqueuedIds(m.log) + last;
    WithoutNew(FinishedIds(m.log), Deferred(m.queue), EnqueuedIds(m.log), RemovedIds(m.log), last);
    IncreasingWithNew(EnqueuedIds(m.log), last, m.nextId);
  }

  lemma QuietOrder(m: Machine, entry: Entry)
    requires InOrder(m)
    requires !entry.Enqueued? && !entry.Finished? && !entry.Removed?
    ensures InOrder(m.(log := m.log + [entry]))
  {
    hide Ordered, EnqueuedIds, FinishedIds, RemovedIds;
    PushIds(m.log, entry);
  }

  lemma PauseOrder(m: Machine, i: nat)
    requires InOrder(m) && i < |m.queue|
    ensures InOrder(Pause(m, i))
  {
    hide Ordered, EnqueuedIds, FinishedIds, RemovedIds;
    QuietOrder(m, Started(m.queue[i].id));
    QuietOrder(m.(log := m.log + [Started(m.queue[i].id)]), Paused(m.queue[i].id));
  }

  lemma UpdateOrder(m: Machine, i: nat, next: Invocation)
    requires QueueOrdered(m) && InOrder(m) && i < |m.queue|
    requires next.id == m.queue[i].id && next.kind == m.queue[i].kind
    ensures InOrder(m.(queue := m.queue[i := next]))
  {
    hide Deferred, Without, EnqueuedIds, FinishedIds, RemovedIds;
    DeferredUpdated(m.queue, i, next);
  }

  lemma RestBelow(finished: seq<nat>, queue: seq<Invocation>, i: nat)
    requires i < |queue|
    requires forall id, k :: id in finished && 0 <= k < |queue| ==> id < queue[k].id
    ensures forall id, k :: id in finished && 0 <= k < |RemoveAt(queue, i)| ==> id < RemoveAt(queue, i)[k].id
  {
    forall id, k | id in finished && 0 <= k < |RemoveAt(queue, i)| ensures id < RemoveAt(queue, i)[k].id {
      var j := if k < i then k else k + 1;
      assert RemoveAt(queue, i)[k] == queue[j];
    }
  }

  /** The heart of the matter: what leaves the queue as finished is either a
      cancel or the head. */
  lemma LeftOrdered(finished: seq<nat>, enqueued: seq<nat>, removed: set<nat>, queue: seq<Invocation>, nextId: nat, i: nat)
    requires Ordered(finished, enqueued, removed, queue, nextId) && i < |queue|
    requires queue[i].kind == Cancel || i == 0
    requires queue[i].id < nextId
    requires forall j, k :: 0 <= j < k < |queue| ==> queue[j].id < queue[k].id
    ensures Ordered(finished + DeferredOne(queue[i]), enqueued, removed, RemoveAt(queue, i), nextId)
  {
    hide Without;
    RestBelow(finished, queue, i);
    if queue[i].kind == Cancel {
      DeferredRemoved(queue, i);
      assert finished + DeferredOne(queue[i]) == finished;
    } else {
      HeadLeft(finished, queue);
    }
  }

  lemma HeadLeft(finished: seq<nat>, queue: seq<Invocation>)
    requires queue != [] && queue[0].kind != Cancel
    requires forall j, k :: 0 <= j < k < |queue| ==> queue[j].id < queue[k].id
    ensures (finished + [queue[0].id]) + Deferred(RemoveAt(queue, 0)) == finished + Deferred(queue)
    ensures forall k :: 0 <= k < |RemoveAt(queue, 0)| ==> queue[0].id < RemoveAt(queue, 0)[k].id
  {
    assert RemoveAt(queue, 0) == queue[1..];
  }

  lemma LeaveOrder(m: Machine, i: nat)
    requires QueueOrdered(m) && InOrder(m) && i < |m.queue|
    requires m.queue[i].kind == Cancel || i == 0
    ensures InOrder(m.(queue := RemoveAt(m.queue, i), log := m.log + [Finished(m.queue[i].id, m.queue[i].kind)]))
  {
    hide Ordered, EnqueuedIds, FinishedIds, RemovedIds;
    PushIds(m.log, Finished(m.queue[i].id, m.queue[i].kind));
    LeftOrdered(FinishedIds(m.log), EnqueuedIds(m.log), RemovedIds(m.log), m.queue, m.nextId, i);
    assert FinishedIds(m.log) + [] == FinishedIds(m.log);
  }

  lemma FinishOrder(m: Machine, i: nat, done: Option<Entry>)
    requires QueueOrdered(m) && InOrder(m) && i < |m.queue|
    requires m.queue[i].kind == Cancel || i == 0
    requires done.Some? ==> done.value.Reported? || done.value.Requested?
    ensures InOrder(Finish(m, i, done))
  {
    hide Ordered, EnqueuedIds, FinishedIds, RemovedIds;
    QuietOrder(m, Started(m.queue[i].id));
    var started := m.(log := m.log + [Started(m.queue[i].id)]);
    if done.Some? {
      QuietOrder(started, done.value);
      LeaveOrder(started.(log := started.log + [done.value]), i);
    } else {
      LeaveOrder(started, i);
    }
  }

  lemma WaitOrder(m: Machine, i: nat)
    requires QueueOrdered(m) && InOrder(m) && i < |m.queue|
    ensures InOrder(Wait(m, i))
  {
    hide Ordered, EnqueuedIds, FinishedIds, RemovedIds;
    UpdateOrder(m, i, m.queue[i].(status := Running));
    var r := m.(queue := m.queue[i := m.queue[i].(status := Running)]);
    QuietOrder(r, Started(m.queue[i].id));
    QuietOrder(r.(log := r.log + [Started(m.queue[i].id)]), Waiting(m.queue[i].id));
  }

  lemma FinishCancelOrder(m: Machine)
    requires QueueOrdered(m) && InOrder(m)
    ensures InOrder(FinishCancel(m))
  {
    hide Ordered, EnqueuedIds, FinishedIds, RemovedIds;
    if m.cancelInvocation.Some? {
      var i := Position(m.queue, m.cancelInvocation.value);
      if i < |m.queue| && m.queue[i].status == Running {
        LeaveOrder(m, i);
      }
    }
  }
}
