/** Whole runs of the callback queue: any interleaving of enqueue, requeue, remove
    and single turns of the processing loop, each under the queue's monitor. */
module CallbackRuns {
  import opened Common
  import opened CallbackQueue

  datatype Op = Enqueue(pb: Pubnub) | Requeue(pb: Pubnub) | Remove(pb: Pubnub) | Process

  /** An entry remembers which acceptance put it there. */
  datatype Slot = Slot(ticket: nat, pb: Pubnub, live: bool)

  /** `accepted[t]` is the context of acceptance `t`; `dispatched` and `dropped`
      hold acceptances. */
  datatype State = State(
    slots: seq<Slot>,
    accepted: seq<Pubnub>,
    dispatched: seq<nat>,
    dropped: set<nat>)

  const EMPTY_QUEUE := State([], [], [], {})

  function Pend(slots: seq<Slot>): (r: Pending)
    ensures |r| == |slots|
  {
    if slots == [] then []
    else [if slots[0].live then Some(slots[0].pb) else None] + Pend(slots[1..])
  }

  predicate IsLive(s: State, pb: Pubnub) {
    Some(pb) in Pend(s.slots)
  }

  function Push(s: State, pb: Pubnub, capacity: nat): State {
    if |s.slots| < capacity then
      s.(slots := s.slots + [Slot(|s.accepted|, pb, true)], accepted := s.accepted + [pb])
    else s
  }

  function Step(s: State, op: Op, capacity: nat): State {
    match op
    case Enqueue(pb) => Push(s, pb, capacity)
    case Requeue(pb) => if IsLive(s, pb) then s else Push(s, pb, capacity)
    case Remove(pb) =>
      var i := Find(Pend(s.slots), pb);
      if i == |s.slots| then s
      else s.(slots := s.slots[i := s.slots[i].(live := false)], dropped := s.dropped + {s.slots[i].ticket})
    case Process =>
      if s.slots == [] then s
      else s.(slots := s.slots[1..],
              dispatched := if s.slots[0].live then s.dispatched + [s.slots[0].ticket] else s.dispatched)
  }

  function Run(s: State, ops: seq<Op>, capacity: nat): State {
    if ops == [] then s else Step(Run(s, ops[..|ops| - 1], capacity), ops[|ops| - 1], capacity)
  }

  // ---------- the class computes these steps ----------

  lemma {:induction false} PendAt(slots: seq<Slot>, k: nat)
    requires k < |slots|
    ensures Pend(slots)[k] == if slots[k].live then Some(slots[k].pb) else None
  {
    if k > 0 {
      PendAt(slots[1..], k - 1);
    }
  }

  lemma PendAll(slots: seq<Slot>)
    ensures forall k :: 0 <= k < |slots| ==> Pend(slots)[k] == if slots[k].live then Some(slots[k].pb) else None
  {
    forall k | 0 <= k < |slots| ensures Pend(slots)[k] == if slots[k].live then Some(slots[k].pb) else None {
      PendAt(slots, k);
    }
  }

  /** What each operation's contract says about the contents is what the step does
      to the entries. */
  lemma StepMatches(s: State, op: Op, capacity: nat)
    ensures var before, after := Pend(s.slots), Pend(Step(s, op, capacity).slots);
      match op {
        case Enqueue(pb) => after == if |before| < capacity then before + [Some(pb)] else before
        case Requeue(pb) => after == if Some(pb) !in before && |before| < capacity then before + [Some(pb)] else before
        case Remove(pb) => after == Tombstoned(before, pb)
        case Process => after == if before == [] then [] else before[1..]
      }
  {
    hide Pend, Find;
    PendAll(s.slots);
    PendAll(Step(s, op, capacity).slots);
  }

  // ---------- FIFO ----------

  function LiveTickets(slots: seq<Slot>): seq<nat> {
    if slots == [] then []
    else (if slots[0].live then [slots[0].ticket] else []) + LiveTickets(slots[1..])
  }

  function UpTo(n: nat): seq<nat> {
    if n == 0 then [] else UpTo(n - 1) + [n - 1]
  }

  predicate Ticketed(s: State) {
    (forall j, k :: 0 <= j < k < |s.slots| ==> s.slots[j].ticket < s.slots[k].ticket) &&
    (forall k :: 0 <= k < |s.slots| ==>
       s.slots[k].ticket < |s.accepted| && s.accepted[s.slots[k].ticket] == s.slots[k].pb) &&
    (forall t, k :: t in s.dispatched && 0 <= k < |s.slots| ==> t < s.slots[k].ticket) &&
    (forall t :: t in s.dispatched ==> t < |s.accepted|) &&
    (forall t :: t in s.dropped ==> t < |s.accepted|)
  }

  predicate Fifo(s: State) {
    s.dispatched + LiveTickets(s.slots) == Without(UpTo(|s.accepted|), s.dropped)
  }

  ghost predicate Inv(s: State, capacity: nat) {
    Ticketed(s) && Fifo(s) && |s.slots| <= capacity
  }

  lemma {:induction false} LiveAppended(slots: seq<Slot>, last: Slot)
    ensures LiveTickets(slots + [last]) == LiveTickets(slots) + (if last.live then [last.ticket] else [])
  {
    if slots == [] {
      assert slots + [last] == [last];
    } else {
      LiveAppended(slots[1..], last);
      var head := if slots[0].live then [slots[0].ticket] else [];
      var all := slots + [last];
      assert all[0] == slots[0] && all[1..] == slots[1..] + [last];
      assert LiveTickets(all) == head + LiveTickets(all[1..]);
    }
  }

  lemma {:induction false} LiveIn(slots: seq<Slot>, t: nat)
    requires t in LiveTickets(slots)
    ensures exists k :: 0 <= k < |slots| && slots[k].ticket == t
  {
    if !slots[0].live || t != slots[0].ticket {
      LiveIn(slots[1..], t);
      var k :| 0 <= k < |slots[1..]| && slots[1..][k].ticket == t;
      assert slots[k + 1].ticket == t;
    }
  }

  lemma {:induction false} LivePunched(slots: seq<Slot>, i: nat)
    requires i < |slots| && slots[i].live
    requires forall j, k :: 0 <= j < k < |slots| ==> slots[j].ticket < slots[k].ticket
    ensures LiveTickets(slots[i := slots[i].(live := false)]) == Without(LiveTickets(slots), {slots[i].ticket})
  {
    var t := slots[i].ticket;
    var head := if slots[0].live then [slots[0].ticket] else [];
    var rest := LiveTickets(slots[1..]);
    var now := slots[i := slots[i].(live := false)];
    WithoutAppend(head, rest, {t});
    if i == 0 {
      assert now[1..] == slots[1..];
      forall x | x in rest ensures x != t {
        LiveIn(slots[1..], x);
      }
      WithoutKeeps(rest, {t});
    } else {
      assert now[1..] == slots[1..][i - 1 := slots[i].(live := false)];
      LivePunched(slots[1..], i - 1);
      WithoutKeeps(head, {t});
    }
  }

  lemma {:induction false} UpToIn(n: nat)
    ensures |UpTo(n)| == n && forall k :: 0 <= k < n ==> UpTo(n)[k] == k
  {
    if n > 0 {
      UpToIn(n - 1);
    }
  }

  lemma UpToNext(n: nat)
    ensures UpTo(n + 1) == UpTo(n) + [n]
  {
  }

  lemma PushTicketed(s: State, pb: Pubnub, capacity: nat)
    requires Ticketed(s)
    ensures Ticketed(Push(s, pb, capacity))
  {
  }

  lemma PushFifo(s: State, pb: Pubnub, capacity: nat)
    requires Ticketed(s) && Fifo(s)
    ensures Fifo(Push(s, pb, capacity))
  {
    if |s.slots| < capacity {
      hide Without, LiveTickets, UpTo;
      var n := |s.accepted|;
      UpToNext(n);
      LiveAppended(s.slots, Slot(n, pb, true));
      WithoutNew(s.dispatched, LiveTickets(s.slots), UpTo(n), s.dropped, [n]);
    }
  }

  lemma PushKeeps(s: State, pb: Pubnub, capacity: nat)
    requires Inv(s, capacity)
    ensures Inv(Push(s, pb, capacity), capacity)
  {
    hide Ticketed, Fifo;
    PushTicketed(s, pb, capacity);
    PushFifo(s, pb, capacity);
  }

  lemma RemoveKeeps(s: State, pb: Pubnub, capacity: nat)
    requires Inv(s, capacity)
    ensures Inv(Step(s, Remove(pb), capacity), capacity)
  {
    hide Without, LiveTickets;
    var i := Find(Pend(s.slots), pb);
    if i < |s.slots| {
      var t := s.slots[i].ticket;
      PendAt(s.slots, i);
      LivePunched(s.slots, i);
      WithoutMore(UpTo(|s.accepted|), s.dropped, t);
      WithoutAppend(s.dispatched, LiveTickets(s.slots), {t});
      WithoutKeeps(s.dispatched, {t});
    }
  }

  lemma ProcessKeeps(s: State, capacity: nat)
    requires Inv(s, capacity)
    ensures Inv(Step(s, Process, capacity), capacity)
  {
    hide Without;
    if s.slots != [] && s.slots[0].live {
      assert (s.dispatched + [s.slots[0].ticket]) + LiveTickets(s.slots[1..]) == s.dispatched + LiveTickets(s.slots);
    }
  }

  lemma StepKeeps(s: State, op: Op, capacity: nat)
    requires Inv(s, capacity)
    ensures Inv(Step(s, op, capacity), capacity)
  {
    hide Inv;
    match op
    case Enqueue(pb) => PushKeeps(s, pb, capacity);
    case Requeue(pb) => PushKeeps(s, pb, capacity);
    case Remove(pb) => RemoveKeeps(s, pb, capacity);
    case Process => ProcessKeeps(s, capacity);
  }

  lemma {:induction false} RunKeeps(ops: seq<Op>, capacity: nat)
    ensures Inv(Run(EMPTY_QUEUE, ops, capacity), capacity)
  {
    if ops != [] {
      RunKeeps(ops[..|ops| - 1], capacity);
      StepKeeps(Run(EMPTY_QUEUE, ops[..|ops| - 1], capacity), ops[|ops| - 1], capacity);
    }
  }

  /** In every run the dispatched acceptances, followed by the live ones still
      waiting, are all acceptances in order without the removed ones; and at most
      `capacity` entries wait. */
  lemma DispatchedInOrder(ops: seq<Op>, capacity: nat)
    ensures var s := Run(EMPTY_QUEUE, ops, capacity);
      s.dispatched + LiveTickets(s.slots) == Without(UpTo(|s.accepted|), s.dropped) &&
      StrictlyIncreasing(s.dispatched + LiveTickets(s.slots)) &&
      |s.slots| <= capacity
  {
    var s := Run(EMPTY_QUEUE, ops, capacity);
    RunKeeps(ops, capacity);
    UpToIn(|s.accepted|);
    WithoutIncreasing(UpTo(|s.accepted|), s.dropped);
  }

  lemma WithoutOne(x: nat, drop: set<nat>)
    ensures Without([x], drop) == if x in drop then [] else [x]
  {
  }

  lemma LastCounts(n: nat, drop: set<nat>)
    requires n > 0
    ensures |Without(UpTo(n), drop)| == |Without(UpTo(n - 1), drop - {n - 1})| + (if n - 1 in drop then 0 else 1)
  {
    hide Without, UpTo;
    UpToIn(n - 1);
    UpToNext(n - 1);
    WithoutAppend(UpTo(n - 1), [n - 1], drop);
    SameWithout(UpTo(n - 1), drop, drop - {n - 1});
    WithoutOne(n - 1, drop);
  }

  lemma OneLess(drop: set<nat>, x: nat)
    ensures |drop| == |drop - {x}| + (if x in drop then 1 else 0)
  {
    assert drop == (drop - {x}) + if x in drop then {x} else {};
  }

  lemma {:induction false} WithoutCount(n: nat, drop: set<nat>)
    requires forall t :: t in drop ==> t < n
    ensures |Without(UpTo(n), drop)| == n - |drop|
  {
    if n == 0 {
      assert drop == {};
    } else {
      hide Without, UpTo;
      WithoutCount(n - 1, drop - {n - 1});
      LastCounts(n, drop);
      OneLess(drop, n - 1);
    }
  }

  lemma {:induction false} SameWithout(s: seq<nat>, a: set<nat>, b: set<nat>)
    requires forall x :: x in s ==> (x in a <==> x in b)
    ensures Without(s, a) == Without(s, b)
  {
    if s != [] {
      assert s[0] in s;
      assert forall x :: x in s[1..] ==> x in s;
      SameWithout(s[1..], a, b);
    }
  }

  /** Nothing is lost: accepted = dispatched + removed + live and waiting. */
  lemma Conservation(ops: seq<Op>, capacity: nat)
    ensures var s := Run(EMPTY_QUEUE, ops, capacity);
      |s.accepted| == |s.dispatched| + |s.dropped| + |LiveTickets(s.slots)|
  {
    var s := Run(EMPTY_QUEUE, ops, capacity);
    RunKeeps(ops, capacity);
    WithoutCount(|s.accepted|, s.dropped);
  }

  // ---------- one context at a time ----------

  /** No context waits twice. */
  predicate SingleLive(s: State) {
    forall j, k :: 0 <= j < k < |s.slots| && s.slots[j].live && s.slots[k].live ==> s.slots[j].pb != s.slots[k].pb
  }

  /** A plain enqueue that is accepted although the context already waits. */
  predicate Doubles(s: State, op: Op, capacity: nat) {
    op.Enqueue? && |s.slots| < capacity && IsLive(s, op.pb)
  }

  lemma StepSingle(s: State, op: Op, capacity: nat)
    requires SingleLive(s)
    ensures SingleLive(Step(s, op, capacity)) <==> !Doubles(s, op, capacity)
  {
    PendAll(s.slots);
    if Doubles(s, op, capacity) {
      var k :| 0 <= k < |s.slots| && Pend(s.slots)[k] == Some(op.pb);
      var r := Step(s, op, capacity);
      assert r.slots[k] == s.slots[k];
      assert r.slots[k].live && r.slots[|s.slots|].live;
    }
  }

  predicate SingleAfter(ops: seq<Op>, n: nat, capacity: nat)
    requires n <= |ops|
  {
    SingleLive(Run(EMPTY_QUEUE, ops[..n], capacity))
  }

  predicate DoublesAt(ops: seq<Op>, n: nat, capacity: nat)
    requires n < |ops|
  {
    Doubles(Run(EMPTY_QUEUE, ops[..n], capacity), ops[n], capacity)
  }

  lemma SamePrefix(ops: seq<Op>, n: nat, capacity: nat)
    requires n < |ops|
    ensures var before := ops[..|ops| - 1];
      SingleAfter(before, n, capacity) == SingleAfter(ops, n, capacity) &&
      (n < |before| ==> DoublesAt(before, n, capacity) == DoublesAt(ops, n, capacity))
  {
    assert ops[..|ops| - 1][..n] == ops[..n];
  }

  lemma SingleStep(ops: seq<Op>, n: nat, capacity: nat)
    requires n < |ops| && SingleAfter(ops, n, capacity)
    ensures SingleAfter(ops, n + 1, capacity) <==> !DoublesAt(ops, n, capacity)
  {
    hide SingleLive, Doubles, Step;
    assert ops[..n + 1][..n] == ops[..n];
    StepSingle(Run(EMPTY_QUEUE, ops[..n], capacity), ops[n], capacity);
  }

  predicate AlwaysSingle(ops: seq<Op>, capacity: nat) {
    forall n :: 0 <= n <= |ops| ==> SingleAfter(ops, n, capacity)
  }

  predicate NeverDoubles(ops: seq<Op>, capacity: nat) {
    forall n :: 0 <= n < |ops| ==> !DoublesAt(ops, n, capacity)
  }

  lemma OneMoreOp(ops: seq<Op>, capacity: nat)
    requires ops != []
    ensures var last := |ops| - 1;
      (AlwaysSingle(ops, capacity) <==> AlwaysSingle(ops[..last], capacity) && SingleAfter(ops, |ops|, capacity)) &&
      (NeverDoubles(ops, capacity) <==> NeverDoubles(ops[..last], capacity) && !DoublesAt(ops, last, capacity)) &&
      (AlwaysSingle(ops[..last], capacity) ==> SingleAfter(ops, last, capacity))
  {
    hide SingleAfter, DoublesAt;
    var before := ops[..|ops| - 1];
    forall n | 0 <= n <= |before| ensures SingleAfter(before, n, capacity) == SingleAfter(ops, n, capacity) {
      SamePrefix(ops, n, capacity);
    }
    forall n | 0 <= n < |before| ensures DoublesAt(before, n, capacity) == DoublesAt(ops, n, capacity) {
      SamePrefix(ops, n, capacity);
    }
  }

  /** A run never has a context waiting twice exactly when no accepted enqueue was
      for a context that was already waiting; a requeue never is one. */
  lemma {:induction false} SingleExactlyWithoutDoubles(ops: seq<Op>, capacity: nat)
    ensures AlwaysSingle(ops, capacity) <==> NeverDoubles(ops, capacity)
  {
    if ops == [] {
      assert ops[..0] == [];
    } else {
      hide AlwaysSingle, NeverDoubles, SingleAfter, DoublesAt;
      var last := |ops| - 1;
      SingleExactlyWithoutDoubles(ops[..last], capacity);
      OneMoreOp(ops, capacity);
      if SingleAfter(ops, last, capacity) {
        SingleStep(ops, last, capacity);
      }
    }
  }

  // ---------- removal ----------

  function LiveCount(slots: seq<Slot>, pb: Pubnub): nat {
    if slots == [] then 0
    else (if slots[0].live && slots[0].pb == pb then 1 else 0) + LiveCount(slots[1..], pb)
  }

  lemma {:induction false} CountsLive(slots: seq<Slot>, pb: Pubnub)
    ensures LiveCount(slots, pb) == 0 <==> Some(pb) !in Pend(slots)
  {
    if slots != [] {
      CountsLive(slots[1..], pb);
      assert Pend(slots) == [Pend(slots)[0]] + Pend(slots[1..]);
    }
  }

  lemma {:induction false} CountPunched(slots: seq<Slot>, i: nat, pb: Pubnub)
    requires i < |slots| && slots[i].live && slots[i].pb == pb
    ensures LiveCount(slots[i := slots[i].(live := false)], pb) == LiveCount(slots, pb) - 1
  {
    if i == 0 {
      assert slots[0 := slots[0].(live := false)][1..] == slots[1..];
    } else {
      assert slots[i := slots[i].(live := false)][1..] == slots[1..][i - 1 := slots[i].(live := false)];
      CountPunched(slots[1..], i - 1, pb);
    }
  }

  /** One removal takes a context out exactly when it did not wait twice. */
  lemma RemovalTakesOut(s: State, pb: Pubnub, capacity: nat)
    ensures !IsLive(Step(s, Remove(pb), capacity), pb) <==> LiveCount(s.slots, pb) <= 1
  {
    var i := Find(Pend(s.slots), pb);
    CountsLive(s.slots, pb);
    if i < |s.slots| {
      PendAt(s.slots, i);
      CountPunched(s.slots, i, pb);
      CountsLive(Step(s, Remove(pb), capacity).slots, pb);
    } else {
      assert Some(pb) !in Pend(s.slots);
    }
  }

  predicate Readmits(op: Op, pb: Pubnub) {
    op == Enqueue(pb) || op == Requeue(pb)
  }

  lemma {:induction false} StaysOut(s: State, ops: seq<Op>, capacity: nat, pb: Pubnub)
    requires Inv(s, capacity) && !IsLive(s, pb)
    requires forall op :: op in ops ==> !Readmits(op, pb)
    ensures var r := Run(s, ops, capacity);
      Inv(r, capacity) && !IsLive(r, pb) && s.accepted <= r.accepted && s.dispatched <= r.dispatched &&
      forall k :: |s.dispatched| <= k < |r.dispatched| ==> r.dispatched[k] < |r.accepted| && r.accepted[r.dispatched[k]] != pb
  {
    if ops != [] {
      var before := Run(s, ops[..|ops| - 1], capacity);
      var op := ops[|ops| - 1];
      assert op in ops;
      StaysOut(s, ops[..|ops| - 1], capacity, pb);
      StepKeeps(before, op, capacity);
      StepOut(before, op, capacity, pb);
    }
  }

  lemma StepOut(s: State, op: Op, capacity: nat, pb: Pubnub)
    requires Ticketed(s) && !IsLive(s, pb) && !Readmits(op, pb)
    ensures var r := Step(s, op, capacity);
      !IsLive(r, pb) && s.accepted <= r.accepted && s.dispatched <= r.dispatched && |r.dispatched| <= |s.dispatched| + 1 &&
      (|r.dispatched| > |s.dispatched| ==>
         var t := r.dispatched[|s.dispatched|]; t < |r.accepted| && r.accepted[t] != pb)
  {
    var r := Step(s, op, capacity);
    PendAll(s.slots);
    PendAll(r.slots);
    forall k | 0 <= k < |r.slots| ensures Pend(r.slots)[k] != Some(pb) {
      if op.Process? {
        assert r.slots[k] == s.slots[k + 1];
        assert Pend(s.slots)[k + 1] != Some(pb);
      } else if k < |s.slots| {
        assert Pend(s.slots)[k] != Some(pb);
      }
    }
    if op.Process? && s.slots != [] {
      assert Pend(s.slots)[0] != Some(pb);
    }
  }

  /** After a removal that took a context out, it is not dispatched again until it
      is put back. */
  lemma RemovedIsNotDispatched(ops: seq<Op>, later: seq<Op>, capacity: nat, pb: Pubnub)
    requires LiveCount(Run(EMPTY_QUEUE, ops, capacity).slots, pb) <= 1
    requires forall op :: op in later ==> !Readmits(op, pb)
    ensures var s := Step(Run(EMPTY_QUEUE, ops, capacity), Remove(pb), capacity);
      var r := Run(s, later, capacity);
      forall k :: |s.dispatched| <= k < |r.dispatched| ==> r.dispatched[k] < |r.accepted| && r.accepted[r.dispatched[k]] != pb
  {
    var before := Run(EMPTY_QUEUE, ops, capacity);
    RunKeeps(ops, capacity);
    StepKeeps(before, Remove(pb), capacity);
    RemovalTakesOut(before, pb, capacity);
    StaysOut(Step(before, Remove(pb), capacity), later, capacity, pb);
  }

  /** Enqueued twice and removed once, a context is still dispatched. */
  lemma RemovedOnceStillWaits(pb: Pubnub)
    ensures IsLive(Run(EMPTY_QUEUE, [Enqueue(pb), Enqueue(pb), Remove(pb)], 4), pb)
  {
    var ops := [Enqueue(pb), Enqueue(pb), Remove(pb)];
    var one, two := Step(EMPTY_QUEUE, Enqueue(pb), 4), Step(Step(EMPTY_QUEUE, Enqueue(pb), 4), Enqueue(pb), 4);
    RunNext([], Enqueue(pb), 4);
    assert [] + [Enqueue(pb)] == [Enqueue(pb)];
    RunNext([Enqueue(pb)], Enqueue(pb), 4);
    RunNext([Enqueue(pb)] + [Enqueue(pb)], Remove(pb), 4);
    assert ops == [Enqueue(pb)] + [Enqueue(pb)] + [Remove(pb)];
    assert one.slots == [Slot(0, pb, true)] && two.slots == [Slot(0, pb, true), Slot(1, pb, true)];
    assert two.slots[1..] == [Slot(1, pb, true)] && two.slots[1..][1..] == [];
    RemovalTakesOut(two, pb, 4);
  }

  lemma RunNext(ops: seq<Op>, op: Op, capacity: nat)
    ensures Run(EMPTY_QUEUE, [], capacity) == EMPTY_QUEUE
    ensures Run(EMPTY_QUEUE, ops + [op], capacity) == Step(Run(EMPTY_QUEUE, ops, capacity), op, capacity)
  {
    assert (ops + [op])[..|ops + [op]| - 1] == ops;
  }
}
