/** Ticks, starts and stops over time: when an armed timer fires, and when a
    stopped one can be started again. */
module HeartbeatRuns {
  import opened Common
  import opened HeartbeatTimers

  datatype Op = Elapse(ms: int) | StartTimer(thumper: nat, periodSec: nat, smart: bool) | StopTimer(thumper: nat)

  predicate ValidOp(op: Op, size: nat) {
    match op
    case Elapse(ms) => 0 < ms < INT_LIMIT
    case StartTimer(thumper, _, _) => thumper < size
    case StopTimer(thumper) => thumper < size
  }

  lemma {:induction false} WalkInRange(t: Timers, elapsed: int, n: nat)
    requires InRange(t) && n <= |t.active|
    ensures InRange(Timers(Walk(t, elapsed, n).left, Walk(t, elapsed, n).kept))
  {
    if n > 0 {
      WalkInRange(t, elapsed, n - 1);
    }
  }

  function Step(t: Timers, op: Op): (r: Timers)
    requires InRange(t) && ValidOp(op, |t.left|)
    ensures InRange(r) && |r.left| == |t.left|
  {
    match op
    case Elapse(ms) =>
      WalkInRange(t, ms, |t.active|);
      Timers(Tick(t, ms).left, Tick(t, ms).kept)
    case StartTimer(thumper, periodSec, smart) => Start(t, thumper, periodSec, smart)
    case StopTimer(thumper) => Stop(t, thumper)
  }

  predicate ValidOps(ops: seq<Op>, size: nat) {
    forall k :: 0 <= k < |ops| ==> ValidOp(ops[k], size)
  }

  function Run(t: Timers, ops: seq<Op>): (r: Timers)
    requires InRange(t) && ValidOps(ops, |t.left|)
    ensures InRange(r) && |r.left| == |t.left|
  {
    if ops == [] then t else Step(Run(t, ops[..|ops| - 1]), ops[|ops| - 1])
  }

  /** What the operation fires, in the order it fires. */
  function Fires(t: Timers, op: Op): seq<nat>
    requires InRange(t)
  {
    if op.Elapse? then Tick(t, op.ms).fired else []
  }

  function Total(ops: seq<Op>): int {
    if ops == [] then 0
    else Total(ops[..|ops| - 1]) + (if ops[|ops| - 1].Elapse? then ops[|ops| - 1].ms else 0)
  }

  // ---------- one tick ----------

  function Count(list: seq<nat>, x: nat): nat {
    if list == [] then 0 else Count(list[..|list| - 1], x) + (if list[|list| - 1] == x then 1 else 0)
  }

  lemma {:induction false} CountZero(list: seq<nat>, x: nat)
    ensures Count(list, x) == 0 <==> x !in list
  {
    if list != [] {
      CountZero(list[..|list| - 1], x);
      assert list == list[..|list| - 1] + [list[|list| - 1]];
    }
  }

  lemma CountPush(list: seq<nat>, x: nat, y: nat)
    ensures Count(list + [y], x) == Count(list, x) + (if x == y then 1 else 0)
  {
    assert (list + [y])[..|list + [y]| - 1] == list;
  }

  /** A thumper listed once is decided once: it expires, or it stays with the rest. */
  lemma {:induction false} WalkOnce(t: Timers, ms: int, n: nat, thumper: nat)
    requires InRange(t) && n <= |t.active| && thumper < |t.left| && Count(t.active[..n], thumper) <= 1
    ensures var r, remains := Walk(t, ms, n), Remains(t.left[thumper], ms);
      if Count(t.active[..n], thumper) == 0 then
        r.left[thumper] == t.left[thumper] && Count(r.fired, thumper) == Count(r.kept, thumper) == 0
      else if remains <= 0 then
        r.left[thumper] == 0 && Count(r.fired, thumper) == 1 && Count(r.kept, thumper) == 0
      else
        r.left[thumper] == remains && Count(r.fired, thumper) == 0 && Count(r.kept, thumper) == 1
  {
    hide Remains, Walk;
    if n == 0 {
      WalkNone(t, ms);
    } else {
      assert t.active[..n] == t.active[..n - 1] + [t.active[n - 1]];
      CountPush(t.active[..n - 1], thumper, t.active[n - 1]);
      WalkOnce(t, ms, n - 1, thumper);
      WalkNext(t, ms, n - 1);
      CountPush(Walk(t, ms, n - 1).fired, thumper, t.active[n - 1]);
      CountPush(Walk(t, ms, n - 1).kept, thumper, t.active[n - 1]);
    }
  }

  lemma WalkOne(t: Timers, ms: int, n: nat, thumper: nat)
    requires InRange(t) && n <= |t.active| && 0 < ms < INT_LIMIT
    requires thumper < |t.left| && t.left[thumper] - ms < INT_LIMIT && Count(t.active[..n], thumper) <= 1
    ensures var r := Walk(t, ms, n);
      if Count(t.active[..n], thumper) == 0 then
        r.left[thumper] == t.left[thumper] && Count(r.fired, thumper) == Count(r.kept, thumper) == 0
      else if t.left[thumper] <= ms then
        r.left[thumper] == 0 && Count(r.fired, thumper) == 1 && Count(r.kept, thumper) == 0
      else
        r.left[thumper] == t.left[thumper] - ms && Count(r.fired, thumper) == 0 && Count(r.kept, thumper) == 1
  {
    hide Remains, Walk, Count;
    RemainsIs(t.left[thumper], ms);
    WalkOnce(t, ms, n, thumper);
  }

  /** A subsequence of a walk, in order, decided by the time left at its start. */
  function Filter(t: Timers, ms: int, n: nat, expired: bool): seq<nat>
    requires InRange(t) && n <= |t.active|
  {
    if n == 0 then []
    else Filter(t, ms, n - 1, expired) +
         (if (t.left[t.active[n - 1]] <= ms) == expired then [t.active[n - 1]] else [])
  }

  predicate Distinct(list: seq<nat>) {
    forall j, k :: 0 <= j < k < |list| ==> list[j] != list[k]
  }

  /** No running timer keeps 2^31 milliseconds or more. */
  predicate Narrows(t: Timers, ms: int)
    requires InRange(t)
  {
    forall k :: 0 <= k < |t.active| ==> t.left[t.active[k]] - ms < INT_LIMIT
  }

  lemma {:induction false} WalkLeft(t: Timers, ms: int, n: nat, x: nat)
    requires InRange(t) && n <= |t.active| && x < |t.left|
    requires forall k :: 0 <= k < n ==> t.active[k] != x
    ensures Walk(t, ms, n).left[x] == t.left[x]
  {
    if n > 0 {
      WalkLeft(t, ms, n - 1, x);
    }
  }

  lemma {:induction false} WalkFilters(t: Timers, ms: int, n: nat)
    requires InRange(t) && n <= |t.active| && 0 < ms < INT_LIMIT
    requires Distinct(t.active) && Narrows(t, ms)
    ensures Walk(t, ms, n).fired == Filter(t, ms, n, true)
    ensures Walk(t, ms, n).kept == Filter(t, ms, n, false)
  {
    hide Remains;
    if n > 0 {
      WalkFilters(t, ms, n - 1);
      WalkLeft(t, ms, n - 1, t.active[n - 1]);
      RemainsIs(t.left[t.active[n - 1]], ms);
    }
  }

  /** The expired fired, the others kept in order with `ms` less, the rest untouched. */
  predicate Exact(t: Timers, ms: int, r: Ticked)
    requires InRange(t) && |r.left| == |t.left|
  {
    r.fired == Filter(t, ms, |t.active|, true) &&
    r.kept == Filter(t, ms, |t.active|, false) &&
    forall x :: 0 <= x < |t.left| ==>
      r.left[x] == if x !in t.active then t.left[x] else if t.left[x] <= ms then 0 else t.left[x] - ms
  }

  /** A tick fires exactly the timers with at most `ms` left, once each and in array
      order, and keeps the others in order with `ms` less, if and only if no running
      timer would keep 2^31 milliseconds or more. */
  lemma TickIsExact(t: Timers, ms: int)
    requires InRange(t) && Distinct(t.active) && 0 < ms < INT_LIMIT
    ensures Exact(t, ms, Tick(t, ms)) <==> Narrows(t, ms)
  {
    hide Walk, Filter, Remains;
    var n := |t.active|;
    if Narrows(t, ms) {
      TickWhenNarrow(t, ms);
    } else {
      var k :| 0 <= k < n && t.left[t.active[k]] - ms >= INT_LIMIT;
      WalkNarrowed(t, ms, n, k);
      assert t.active[k] in t.active;
    }
  }

  /** A time of 2^31 milliseconds or more is never kept. */
  lemma {:induction false} WalkNarrowed(t: Timers, ms: int, n: nat, k: nat)
    requires InRange(t) && Distinct(t.active) && k < n <= |t.active|
    ensures Walk(t, ms, n).left[t.active[k]] < INT_LIMIT
  {
    if n > k + 1 {
      WalkNarrowed(t, ms, n - 1, k);
    }
  }

  lemma TickWhenNarrow(t: Timers, ms: int)
    requires InRange(t) && Distinct(t.active) && Narrows(t, ms) && 0 < ms < INT_LIMIT
    ensures Exact(t, ms, Tick(t, ms))
  {
    hide Walk, Filter;
    var n := |t.active|;
    WalkFilters(t, ms, n);
    assert t.active[..n] == t.active;
    forall x | 0 <= x < |t.left|
      ensures Walk(t, ms, n).left[x] == if x !in t.active then t.left[x] else if t.left[x] <= ms then 0 else t.left[x] - ms
    {
      DistinctCount(t.active, x);
      CountZero(t.active, x);
      if x in t.active {
        WalkOne(t, ms, n, x);
      } else {
        WalkLeft(t, ms, n, x);
      }
    }
  }

  lemma {:induction false} DistinctCount(list: seq<nat>, x: nat)
    requires Distinct(list)
    ensures Count(list, x) <= 1
  {
    if list != [] {
      var before := list[..|list| - 1];
      DistinctCount(before, x);
      if list[|list| - 1] == x {
        CountZero(before, x);
      }
    }
  }

  // ---------- an armed timer over time ----------

  predicate Undisturbed(ops: seq<Op>, thumper: nat) {
    forall k :: 0 <= k < |ops| ==> !(ops[k].StartTimer? && ops[k].thumper == thumper) && !(ops[k].StopTimer? && ops[k].thumper == thumper)
  }

  /** Listed once with `left` to go, or fired and gone. */
  predicate Armed(t: Timers, thumper: nat, left: int) {
    thumper < |t.left| &&
    if left > 0 then Count(t.active, thumper) == 1 && t.left[thumper] == left
    else Count(t.active, thumper) == 0
  }

  lemma {:induction false} CountCut(list: seq<nat>, i: nat, x: nat)
    requires i < |list|
    ensures Count(list[..i] + list[i + 1..], x) == Count(list, x) - (if list[i] == x then 1 else 0)
  {
    var m := |list| - 1;
    if i == m {
      assert list[..i] + list[i + 1..] == list[..m];
    } else {
      var cut := list[..i] + list[i + 1..];
      assert cut[..|cut| - 1] == list[..m][..i] + list[..m][i + 1..];
      CountCut(list[..m], i, x);
    }
  }

  lemma {:induction false} FirstOfIs(active: seq<nat>, thumper: nat)
    ensures FirstOf(active, thumper) < |active| ==> active[FirstOf(active, thumper)] == thumper
  {
    if active != [] {
      FirstOfIs(active[1..], thumper);
    }
  }

  lemma ArmedStep(t: Timers, op: Op, thumper: nat, left: int)
    requires InRange(t) && ValidOp(op, |t.left|) && Armed(t, thumper, left) && left < INT_LIMIT
    requires Undisturbed([op], thumper)
    ensures var ms := if op.Elapse? then op.ms else 0;
      Armed(Step(t, op), thumper, left - ms) &&
      (thumper in Fires(t, op) <==> op.Elapse? && 0 < left <= ms)
  {
    hide Walk;
    assert [op][0] == op;
    match op
    case Elapse(ms) =>
      var n := |t.active|;
      assert t.active[..n] == t.active;
      if left > 0 {
        WalkOne(t, ms, n, thumper);
      } else {
        CountZero(t.active, thumper);
        WalkAbsent(t, ms, n, thumper);
      }
      CountZero(Tick(t, ms).fired, thumper);
    case StartTimer(other, _, _) => CountPush(t.active, thumper, other);
    case StopTimer(other) =>
      FirstOfIs(t.active, other);
      var i := FirstOf(t.active, other);
      if i < |t.active| {
        CountCut(t.active, i, thumper);
      }
  }

  lemma {:induction false} WalkAbsent(t: Timers, ms: int, n: nat, x: nat)
    requires InRange(t) && n <= |t.active| && x !in t.active
    ensures Count(Walk(t, ms, n).fired, x) == Count(Walk(t, ms, n).kept, x) == 0
  {
    hide Remains, Walk;
    if n == 0 {
      WalkNone(t, ms);
    } else {
      WalkAbsent(t, ms, n - 1, x);
      WalkNext(t, ms, n - 1);
      CountPush(Walk(t, ms, n - 1).fired, x, t.active[n - 1]);
      CountPush(Walk(t, ms, n - 1).kept, x, t.active[n - 1]);
    }
  }

  lemma {:induction false} StaysArmed(t: Timers, ops: seq<Op>, thumper: nat, left: int)
    requires InRange(t) && ValidOps(ops, |t.left|) && Armed(t, thumper, left) && left < INT_LIMIT
    requires Undisturbed(ops, thumper)
    ensures Armed(Run(t, ops), thumper, left - Total(ops)) && Total(ops) >= 0
  {
    if ops != [] {
      var before, op := ops[..|ops| - 1], ops[|ops| - 1];
      StaysArmed(t, before, thumper, left);
      ArmedStep(Run(t, before), op, thumper, left - Total(before));
    }
  }

  lemma ArmedFires(t: Timers, ops: seq<Op>, thumper: nat, left: int, n: nat)
    requires InRange(t) && ValidOps(ops, |t.left|) && Armed(t, thumper, left) && left < INT_LIMIT
    requires Undisturbed(ops, thumper) && n < |ops|
    ensures ValidOps(ops[..n], |t.left|)
    ensures thumper in Fires(Run(t, ops[..n]), ops[n]) <==> Total(ops[..n]) < left <= Total(ops[..n + 1])
  {
    hide Step, Fires, Armed, ValidOp, Run;
    StaysArmed(t, ops[..n], thumper, left);
    TotalNext(ops, n);
    assert ValidOp(ops[n], |t.left|);
    ArmedStep(Run(t, ops[..n]), ops[n], thumper, left - Total(ops[..n]));
  }

  lemma TotalNext(ops: seq<Op>, n: nat)
    requires n < |ops|
    ensures Total(ops[..n + 1]) == Total(ops[..n]) + (if ops[n].Elapse? then ops[n].ms else 0)
  {
    assert ops[..n + 1][..n] == ops[..n];
  }

  lemma StartArms(t: Timers, thumper: nat, periodSec: nat, smart: bool)
    requires InRange(t) && thumper < |t.left| && thumper !in t.active
    requires t.left[thumper] == 0 || smart
    requires 0 < periodSec
    ensures InRange(Start(t, thumper, periodSec, smart))
    ensures Armed(Start(t, thumper, periodSec, smart), thumper, periodSec * 1000)
  {
    hide Count;
    CountZero(t.active, thumper);
    CountPush(t.active, thumper, thumper);
  }

  /** The `n`-th operation fires the timer exactly if it is the one by which the period
      has elapsed since the start. */
  predicate OnTimeAt(armed: Timers, ops: seq<Op>, n: nat, thumper: nat, period: int)
    requires InRange(armed) && ValidOps(ops, |armed.left|) && n < |ops|
  {
    thumper in Fires(Run(armed, ops[..n]), ops[n]) <==> Total(ops[..n]) < period <= Total(ops[..n + 1])
  }

  ghost predicate AlwaysOnTime(armed: Timers, thumper: nat, period: int)
    requires InRange(armed)
  {
    forall ops, n :: ValidOps(ops, |armed.left|) && Undisturbed(ops, thumper) && 0 <= n < |ops| ==>
      OnTimeAt(armed, ops, n, thumper, period)
  }

  /** A timer that is armed and left alone always fires at the first tick by which the
      period has elapsed, never earlier and never again, if and only if the period is
      below 2^31 milliseconds. What other timers do, even listed twice, does not
      matter. */
  lemma FiresOnTime(t: Timers, periodSec: nat, smart: bool, thumper: nat)
    requires InRange(t) && thumper < |t.left| && thumper !in t.active
    requires t.left[thumper] == 0 || smart
    requires 0 < periodSec
    ensures InRange(Start(t, thumper, periodSec, smart)) &&
      (AlwaysOnTime(Start(t, thumper, periodSec, smart), thumper, periodSec * 1000) <==> periodSec * 1000 < 0x8000_0000)
  {
    hide Fires, Armed, Run, Total, Undisturbed;
    StartArms(t, thumper, periodSec, smart);
    var armed, period := Start(t, thumper, periodSec, smart), periodSec * 1000;
    if period < INT_LIMIT {
      forall ops, n | ValidOps(ops, |armed.left|) && Undisturbed(ops, thumper) && 0 <= n < |ops|
        ensures OnTimeAt(armed, ops, n, thumper, period)
      {
        ArmedFires(armed, ops, thumper, period, n);
      }
    } else {
      assert period % 1000 == 0 && INT_LIMIT % 1000 != 0;
      FiresEarly(armed, thumper, period);
      var ops := EarlyTicks(period);
      assert !OnTimeAt(armed, ops, |ops| - 1, thumper, period);
    }
  }

  /** The ticks that show it: one millisecond, then what the narrowing left. */
  function EarlyTicks(period: nat): seq<Op> {
    var left := Remains(period, 1);
    if left <= 0 then [Elapse(1)] else [Elapse(1), Elapse(left)]
  }

  /** A longer timer fires before its period has elapsed. */
  lemma FiresEarly(armed: Timers, thumper: nat, period: nat)
    requires InRange(armed) && Armed(armed, thumper, period) && period > INT_LIMIT
    ensures var ops := EarlyTicks(period); var n := |ops| - 1;
      ValidOps(ops, |armed.left|) && Undisturbed(ops, thumper) && Total(ops[..n + 1]) < period &&
      thumper in Fires(Run(armed, ops[..n]), ops[n])
  {
    hide Run, Total, Fires;
    var ops, left := EarlyTicks(period), Remains(period, 1);
    RunTicks(armed, ops);
    TickNarrowed(armed, 1, thumper);
    assert left < period - 1 && left < INT_LIMIT;
    if left > 0 {
      ExpiresWhole(left);
      TickNarrowed(Step(armed, Elapse(1)), left, thumper);
    }
  }

  lemma ExpiresWhole(left: nat)
    requires 0 < left < INT_LIMIT
    ensures Remains(left, left) == 0
  {
  }

  lemma RunTicks(armed: Timers, ops: seq<Op>)
    requires InRange(armed) && 0 < |ops| <= 2 && ValidOps(ops, |armed.left|)
    ensures Run(armed, ops[..0]) == armed && Total(ops[..0]) == 0 && Total(ops[..1]) == (if ops[0].Elapse? then ops[0].ms else 0)
    ensures |ops| == 2 ==> ValidOps(ops[..1], |armed.left|) && Run(armed, ops[..1]) == Step(armed, ops[0])
    ensures |ops| == 2 ==> Total(ops[..2]) == Total(ops[..1]) + if ops[1].Elapse? then ops[1].ms else 0
  {
    assert ops[..1][..0] == [];
    if |ops| == 2 {
      assert ops[..2][..1] == ops[..1];
      assert ValidOp(ops[0], |armed.left|);
    }
  }

  /** One tick on a timer listed once, whatever it shows. */
  lemma TickNarrowed(t: Timers, ms: int, thumper: nat)
    requires InRange(t) && 0 < ms < INT_LIMIT && thumper < |t.left| && Count(t.active, thumper) == 1
    ensures var remains := Remains(t.left[thumper], ms); var r := Step(t, Elapse(ms));
      (thumper in Fires(t, Elapse(ms)) <==> remains <= 0) &&
      (remains > 0 ==> r.left[thumper] == remains && Count(r.active, thumper) == 1)
  {
    hide Walk, Remains;
    var n := |t.active|;
    assert t.active[..n] == t.active;
    WalkOnce(t, ms, n, thumper);
    CountZero(Tick(t, ms).fired, thumper);
  }

  // ---------- a stopped timer ----------

  /** Not running, but still showing time left. */
  predicate Stale(t: Timers, thumper: nat) {
    thumper < |t.left| && thumper !in t.active && t.left[thumper] > 0
  }

  /** Starting without smart heartbeat leaves a timer running exactly when it already
      ran or showed no time left; so a stale one is not started. */
  lemma StartRuns(t: Timers, thumper: nat, periodSec: nat)
    requires thumper < |t.left|
    ensures thumper in Start(t, thumper, periodSec, false).active <==>
      thumper in t.active || t.left[thumper] == 0
  {
  }

  /** Stopping leaves a timer stale exactly when it was running only once with time
      left, or was stale before. */
  lemma StopLeavesStale(t: Timers, thumper: nat)
    requires thumper < |t.left|
    ensures Stale(Stop(t, thumper), thumper) <==> t.left[thumper] > 0 && Count(t.active, thumper) <= 1
  {
    var i := FirstOf(t.active, thumper);
    FirstOfIs(t.active, thumper);
    CountZero(t.active, thumper);
    CountZero(Stop(t, thumper).active, thumper);
    if i < |t.active| {
      CountCut(t.active, i, thumper);
    } else {
      FirstOfMisses(t.active, thumper);
    }
  }

  lemma {:induction false} FirstOfMisses(active: seq<nat>, thumper: nat)
    requires FirstOf(active, thumper) == |active|
    ensures thumper !in active
  {
    if active != [] {
      FirstOfMisses(active[1..], thumper);
    }
  }

  predicate NeverSmart(ops: seq<Op>, thumper: nat) {
    forall k :: 0 <= k < |ops| ==> !(ops[k].StartTimer? && ops[k].thumper == thumper && ops[k].smart)
  }

  /** A stale timer stays stale and silent through any ticks, stops and starts
      without smart heartbeat: it is lost until a smart start. */
  lemma {:induction false} StaleForever(t: Timers, ops: seq<Op>, thumper: nat, n: nat)
    requires InRange(t) && ValidOps(ops, |t.left|) && Stale(t, thumper) && NeverSmart(ops, thumper) && n <= |ops|
    ensures Stale(Run(t, ops[..n]), thumper)
    ensures n < |ops| ==> thumper !in Fires(Run(t, ops[..n]), ops[n])
    decreases n
  {
    if n > 0 {
      StaleForever(t, ops, thumper, n - 1);
      var before := Run(t, ops[..n - 1]);
      assert ops[..n][..n - 1] == ops[..n - 1];
      StaleStep(before, ops[n - 1], thumper);
    }
    if n < |ops| {
      StaleStep(Run(t, ops[..n]), ops[n], thumper);
    }
  }

  lemma StaleStep(t: Timers, op: Op, thumper: nat)
    requires InRange(t) && ValidOp(op, |t.left|) && Stale(t, thumper)
    requires !(op.StartTimer? && op.thumper == thumper && op.smart)
    ensures Stale(Step(t, op), thumper) && thumper !in Fires(t, op)
  {
    hide Walk;
    match op
    case Elapse(ms) =>
      WalkAbsent(t, ms, |t.active|, thumper);
      WalkLeft(t, ms, |t.active|, thumper);
      CountZero(Tick(t, ms).fired, thumper);
      CountZero(Tick(t, ms).kept, thumper);
    case StartTimer(_, _, _) =>
    case StopTimer(other) =>
      CountZero(t.active, thumper);
      CountZero(Stop(t, other).active, thumper);
      if FirstOf(t.active, other) < |t.active| {
        CountCut(t.active, FirstOf(t.active, other), thumper);
      }
  }

  /** The list names every timer once as long as no smart start hits a running one. */
  lemma StartKeepsDistinct(t: Timers, thumper: nat, periodSec: nat, smart: bool)
    requires thumper < |t.left| && Distinct(t.active)
    ensures Distinct(Start(t, thumper, periodSec, smart).active) <==>
      thumper !in t.active || (t.left[thumper] > 0 && !smart)
  {
    if thumper in t.active {
      var k :| 0 <= k < |t.active| && t.active[k] == thumper;
      var r := Start(t, thumper, periodSec, smart);
      if !(t.left[thumper] > 0 && !smart) {
        assert r.active[k] == r.active[|t.active|];
      }
    }
  }

  // ---------- inputs that show it ----------

  const NO_TIMERS: Timers := Timers(seq(MAX_THUMPERS, _ => 0), [])

  /** A period of 25 days: the first tick fires it. */
  lemma LongPeriodFiresAtOnce()
    ensures 0 in Fires(Start(NO_TIMERS, 0, 25 * 24 * 3600, false), Elapse(1))
  {
    var armed := Start(NO_TIMERS, 0, 25 * 24 * 3600, false);
    assert armed.active == [0];
    assert [0][..0] == [];
    TickNarrowed(armed, 1, 0);
  }

  /** Five minutes are started and stopped: another start does nothing. */
  lemma StoppedStaysStopped()
    ensures var stopped := Stop(Start(NO_TIMERS, 0, 300, false), 0);
      Stale(stopped, 0) && Start(stopped, 0, 300, false) == stopped
  {
    assert Start(NO_TIMERS, 0, 300, false).active == [0];
    FirstOfAt([0], 0, 0);
    assert [0][..0] + [0][1..] == [];
  }

  /** A second smart start lists the timer twice. */
  lemma SmartRestartListsTwice()
    ensures var twice := Start(Start(NO_TIMERS, 0, 300, true), 0, 300, true);
      twice.active == [0, 0] && !Distinct(twice.active)
  {
    var once := Start(NO_TIMERS, 0, 300, true);
    assert once.active == [0];
    assert Start(once, 0, 300, true).active == [0, 0];
    assert [0, 0][0] == [0, 0][1];
  }
}
