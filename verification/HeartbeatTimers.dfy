/** The auto-heartbeat timers: times left per thumper, and an array of the indices
    whose timers run, which the tick handler shortens while it walks it. */
module HeartbeatTimers {
  import opened Common

  const MAX_THUMPERS: nat := 16
  const UNIT_IN_MILLI: nat := 1000
  const INT_LIMIT: int := 0x8000_0000

  // ---------- time left ----------

  /** `int remains = timer - elapsed`: the low 32 bits of the difference, signed. */
  function Remains(timer: nat, elapsed: int): int {
    var low := (timer - elapsed) % 0x1_0000_0000;
    if low < INT_LIMIT then low else low - 0x1_0000_0000
  }

  /** The time left is right exactly as long as it is below 2^31 milliseconds. */
  lemma RemainsIs(timer: nat, elapsed: int)
    requires 0 < elapsed < INT_LIMIT
    ensures Remains(timer, elapsed) == timer - elapsed <==> timer - elapsed < INT_LIMIT
  {
  }

  /** Expired in time, or the right time left. */
  predicate Decides(timer: nat, elapsed: int) {
    if timer <= elapsed then Remains(timer, elapsed) <= 0 else Remains(timer, elapsed) == timer - elapsed
  }

  /** Every tick decides a timer rightly exactly when it shows at most 2^31
      milliseconds. */
  lemma ExpiresOnTime(timer: nat)
    ensures (forall elapsed :: 0 < elapsed < INT_LIMIT ==> Decides(timer, elapsed)) <==> timer <= INT_LIMIT
  {
    hide Remains;
    forall elapsed | 0 < elapsed < INT_LIMIT ensures Remains(timer, elapsed) == timer - elapsed <==> timer - elapsed < INT_LIMIT {
      RemainsIs(timer, elapsed);
    }
    assert Decides(timer, 1) ==> timer <= INT_LIMIT;
  }

  // ---------- the tick as a function ----------

  /** `left[k]` is the time left for thumper `k`; `active` lists the running ones. */
  datatype Timers = Timers(left: seq<nat>, active: seq<nat>)

  predicate InRange(t: Timers) {
    forall k :: 0 <= k < |t.active| ==> t.active[k] < |t.left|
  }

  datatype Ticked = Ticked(fired: seq<nat>, kept: seq<nat>, left: seq<nat>)

  /** The walk over the first `n` entries, one by one, as the handler does it. */
  function Walk(t: Timers, elapsed: int, n: nat): (r: Ticked)
    requires InRange(t) && n <= |t.active|
    ensures |r.left| == |t.left| && |r.fired| + |r.kept| == n
  {
    if n == 0 then Ticked([], [], t.left)
    else
      var before := Walk(t, elapsed, n - 1);
      var thumper := t.active[n - 1];
      var remains := Remains(before.left[thumper], elapsed);
      if remains <= 0 then
        Ticked(before.fired + [thumper], before.kept, before.left[thumper := 0])
      else
        Ticked(before.fired, before.kept + [thumper], before.left[thumper := remains])
  }

  lemma WalkNext(t: Timers, elapsed: int, n: nat)
    requires InRange(t) && n < |t.active|
    ensures var before, thumper := Walk(t, elapsed, n), t.active[n];
      var remains := Remains(before.left[thumper], elapsed);
      Walk(t, elapsed, n + 1) ==
        if remains <= 0 then Ticked(before.fired + [thumper], before.kept, before.left[thumper := 0])
        else Ticked(before.fired, before.kept + [thumper], before.left[thumper := remains])
  {
  }

  function Tick(t: Timers, elapsed: int): Ticked
    requires InRange(t)
  {
    Walk(t, elapsed, |t.active|)
  }

  // ---------- starting and stopping as functions ----------

  function Start(t: Timers, thumper: nat, periodSec: nat, smart: bool): Timers
    requires thumper < |t.left|
  {
    if t.left[thumper] > 0 && !smart then t
    else Timers(t.left[thumper := periodSec * UNIT_IN_MILLI], t.active + [thumper])
  }

  /** Position of a thumper in the list, or its length. */
  function FirstOf(active: seq<nat>, thumper: nat): (i: nat)
    ensures i <= |active|
  {
    if active == [] then 0 else if active[0] == thumper then 0 else 1 + FirstOf(active[1..], thumper)
  }

  /** The time left is not cleared. */
  function Stop(t: Timers, thumper: nat): Timers {
    var i := FirstOf(t.active, thumper);
    if i == |t.active| then t else t.(active := t.active[..i] + t.active[i + 1..])
  }

  lemma {:induction false} FirstOfAt(active: seq<nat>, thumper: nat, i: nat)
    requires i < |active| && active[i] == thumper && forall k :: 0 <= k < i ==> active[k] != thumper
    ensures FirstOf(active, thumper) == i
  {
    if i > 0 {
      FirstOfAt(active[1..], thumper, i - 1);
    }
  }

  lemma {:induction false} FirstOfNone(active: seq<nat>, thumper: nat)
    requires forall k :: 0 <= k < |active| ==> active[k] != thumper
    ensures FirstOf(active, thumper) == |active|
  {
    if active != [] {
      FirstOfNone(active[1..], thumper);
    }
  }

  lemma WalkNone(t: Timers, elapsed: int)
    requires InRange(t)
    ensures Walk(t, elapsed, 0) == Ticked([], [], t.left)
  {
  }

  // ---------- the array the handler walks ----------

  /** Removes entry `i` of the first `dimension` by shifting the rest down. */
  method TakeTheNodeOut(indexes: array<nat>, i: nat, dimension: nat) returns (shorter: nat)
    requires i < dimension <= indexes.Length
    modifies indexes
    ensures shorter == dimension - 1
    ensures indexes[..shorter] == old(indexes[..i]) + old(indexes[i + 1..dimension])
    ensures forall k :: 0 <= k < indexes.Length ==>
      indexes[k] == if i <= k < shorter then old(indexes[k + 1]) else old(indexes[k])
  {
    shorter := dimension - 1;
    forall k | i <= k < shorter {
      indexes[k] := indexes[k + 1];
    }
  }

  lemma TickIs(t: Timers, elapsed: int)
    requires InRange(t)
    ensures Tick(t, elapsed) == Walk(t, elapsed, |t.active|)
  {
  }

  lemma HeadOf(indexes: seq<nat>, i: nat, active: nat, list: seq<nat>, n: nat)
    requires i < active <= |indexes| && n < |list| && indexes[i..active] == list[n..]
    ensures indexes[i] == list[n] && indexes[i + 1..active] == list[n + 1..] && indexes[i..active][1..] == list[n + 1..]
  {
    assert indexes[i] == indexes[i..active][0];
    assert indexes[i + 1..active] == indexes[i..active][1..];
  }

  class Watcher {
    const heartbeatTimers: array<nat>
    const timerIndexArray: array<nat>
    var activeTimers: nat

    ghost predicate Valid()
      reads this, timerIndexArray
    {
      heartbeatTimers != timerIndexArray &&
      heartbeatTimers.Length == timerIndexArray.Length == MAX_THUMPERS &&
      activeTimers <= MAX_THUMPERS &&
      forall k :: 0 <= k < activeTimers ==> timerIndexArray[k] < MAX_THUMPERS
    }

    ghost function Model(): Timers
      reads this, heartbeatTimers, timerIndexArray
      requires Valid()
    {
      Timers(heartbeatTimers[..], timerIndexArray[..activeTimers])
    }

    constructor ()
      ensures Valid() && fresh(heartbeatTimers) && fresh(timerIndexArray)
      ensures Model() == Timers(seq(MAX_THUMPERS, _ => 0), [])
    {
      heartbeatTimers := new nat[MAX_THUMPERS](_ => 0);
      timerIndexArray := new nat[MAX_THUMPERS](_ => 0);
      activeTimers := 0;
      new;
      assert heartbeatTimers[..] == seq(MAX_THUMPERS, _ => 0);
    }

    /** Fires expired timers and shortens the index array while walking it. */
    method HandleHeartbeatTimers(elapsed: int) returns (fired: seq<nat>)
      requires Valid()
      modifies this`activeTimers, heartbeatTimers, timerIndexArray
      ensures Valid()
      ensures var r := Tick(old(Model()), elapsed);
        fired == r.fired && Model() == Timers(r.left, r.kept)
    {
      hide Remains, Walk, Tick;
      ghost var was := Model();
      ghost var n := 0;
      WalkNone(was, elapsed);
      var i, active := 0, activeTimers;
      fired := [];
      while i < active
        invariant Valid() && activeTimers == |was.active|
        invariant i <= active <= activeTimers && n == |was.active| - (active - i) && n <= |was.active|
        invariant Walk(was, elapsed, n) == Ticked(fired, timerIndexArray[..i], heartbeatTimers[..])
        invariant timerIndexArray[..][i..active] == was.active[n..]
        decreases active - i
      {
        WalkNext(was, elapsed, n);
        var thumper := timerIndexArray[i];
        HeadOf(timerIndexArray[..], i, active, was.active, n);
        var remains := Remains(heartbeatTimers[thumper], elapsed);
        if remains <= 0 {
          heartbeatTimers[thumper] := 0;
          active := Expire(i, active);
          fired := fired + [thumper];
        } else {
          heartbeatTimers[thumper] := remains;
          assert timerIndexArray[..i + 1] == timerIndexArray[..i] + [thumper];
          i := i + 1;
        }
        n := n + 1;
      }
      activeTimers := active;
      TickIs(was, elapsed);
    }

    method Expire(i: nat, active: nat) returns (shorter: nat)
      requires Valid() && i < active <= activeTimers
      modifies timerIndexArray
      ensures Valid() && shorter == active - 1
      ensures timerIndexArray[..i] == old(timerIndexArray[..i])
      ensures timerIndexArray[..][i..shorter] == old(timerIndexArray[..][i..active])[1..]
    {
      shorter := TakeTheNodeOut(timerIndexArray, i, active);
    }

    /** Arms a thumper's timer; without smart heartbeat a timer that still shows
        time left counts as started. */
    method StartHeartbeatTimer(thumper: nat, periodSec: nat, smart: bool)
      requires Valid() && thumper < MAX_THUMPERS
      requires (heartbeatTimers[thumper] > 0 && !smart) || activeTimers < MAX_THUMPERS
      modifies this`activeTimers, heartbeatTimers, timerIndexArray
      ensures Valid() && Model() == Start(old(Model()), thumper, periodSec, smart)
    {
      if heartbeatTimers[thumper] > 0 && !smart { return; }
      ghost var was := timerIndexArray[..activeTimers];
      heartbeatTimers[thumper] := periodSec * UNIT_IN_MILLI;
      timerIndexArray[activeTimers] := thumper;
      activeTimers := activeTimers + 1;
      assert timerIndexArray[..activeTimers] == was + [thumper];
    }

    /** Takes a thumper's timer out of the running ones. */
    method AutoHeartbeatStopTimer(thumper: nat)
      requires Valid() && thumper < MAX_THUMPERS
      modifies this`activeTimers, timerIndexArray
      ensures Valid() && Model() == Stop(old(Model()), thumper)
    {
      ghost var was := timerIndexArray[..activeTimers];
      for i := 0 to activeTimers
        invariant Valid() && activeTimers == |was| && timerIndexArray[..activeTimers] == was
        invariant heartbeatTimers[..] == old(heartbeatTimers[..])
        invariant forall k :: 0 <= k < i ==> was[k] != thumper
      {
        if timerIndexArray[i] == thumper {
          FirstOfAt(was, thumper, i);
          activeTimers := TakeTheNodeOut(timerIndexArray, i, activeTimers);
          assert timerIndexArray[..activeTimers] == was[..i] + was[i + 1..];
          return;
        }
      }
      FirstOfNone(was, thumper);
    }
  }
}
