/** The sixteen thumper slots and the contexts that hold them. */
module ThumperSlots {
  import opened Common
  import opened HeartbeatTimers

  const MIN_HEARTBEAT_PERIOD: nat := 10

  type Pubnub = nat

  /** A slot keeps its thumper context when its holder leaves. */
  datatype Slot = Slot(pb: Option<Pubnub>, hasThumper: bool, periodSec: nat)

  /** `index` holds the thumper index of every context that has one. */
  datatype Slots = Slots(slots: seq<Slot>, inUse: nat, index: map<Pubnub, nat>)

  const VACANT: Slot := Slot(None, false, 0)

  function Vacant(n: nat): (slots: seq<Slot>)
    ensures |slots| == n && forall k :: 0 <= k < n ==> slots[k] == VACANT
  {
    if n == 0 then [] else [VACANT] + Vacant(n - 1)
  }

  const NO_THUMPERS := Slots(Vacant(MAX_THUMPERS), 0, map[])

  function Occupied(slots: seq<Slot>): (n: nat)
    ensures n <= |slots|
    ensures n < |slots| <==> FirstFree(slots) < |slots|
  {
    if slots == [] then 0 else (if slots[0].pb.Some? then 1 else 0) + Occupied(slots[1..])
  }

  function FirstFree(slots: seq<Slot>): (i: nat)
    ensures i <= |slots|
    ensures i < |slots| ==> slots[i].pb == None
    ensures forall k :: 0 <= k < i ==> slots[k].pb.Some?
  {
    if slots == [] then 0 else if slots[0].pb == None then 0 else 1 + FirstFree(slots[1..])
  }

  /** The counter counts the occupied slots, and slots and contexts point at each
      other, one to one. */
  predicate Consistent(s: Slots) {
    |s.slots| == MAX_THUMPERS && s.inUse == Occupied(s.slots) && |s.index| == s.inUse &&
    (forall pb :: pb in s.index ==> s.index[pb] < MAX_THUMPERS && s.slots[s.index[pb]].pb == Some(pb)) &&
    (forall i :: 0 <= i < |s.slots| && s.slots[i].pb.Some? ==> s.slots[i].pb.value in s.index && s.index[s.slots[i].pb.value] == i)
  }

  // ---------- the operations ----------

  /** A free slot is taken if there is one and its thumper exists or can be made. */
  function Form(s: Slots, pb: Pubnub, canAllocate: bool): (Slots, bool)
    requires |s.slots| == MAX_THUMPERS
  {
    var i := FirstFree(s.slots);
    if s.inUse >= MAX_THUMPERS then (s, false)
    else if i == |s.slots| then (s, true)
    else if !s.slots[i].hasThumper && !canAllocate then (s, false)
    else (Slots(s.slots[i := Slot(Some(pb), true, MIN_HEARTBEAT_PERIOD)], s.inUse + 1, s.index[pb := i]), true)
  }

  function SetPeriod(s: Slots, pb: Pubnub, periodSec: nat): (Slots, bool)
    requires pb in s.index ==> s.index[pb] < |s.slots|
  {
    if pb !in s.index then (s, false)
    else (s.(slots := s.slots[s.index[pb] := s.slots[s.index[pb]].(periodSec := periodSec)]), true)
  }

  function Enable(s: Slots, pb: Pubnub, periodSec: nat, canAllocate: bool): (Slots, bool)
    requires Consistent(s)
  {
    if pb in s.index then SetPeriod(s, pb, periodSec)
    else
      var (formed, ok) := Form(s, pb, canAllocate);
      if !ok then (formed, false)
      else
        FormKeeps(s, pb, canAllocate);
        SetPeriod(formed, pb, periodSec)
  }

  function Disable(s: Slots, pb: Pubnub): Slots
    requires Consistent(s)
  {
    if pb !in s.index then s
    else
      OccupiedFreed(s.slots, s.index[pb]);
      Slots(s.slots[s.index[pb] := s.slots[s.index[pb]].(pb := None)], s.inUse - 1, s.index - {pb})
  }

  // ---------- counting ----------

  lemma {:induction false} OccupiedTaken(slots: seq<Slot>, i: nat, slot: Slot)
    requires i < |slots| && slots[i].pb == None && slot.pb.Some?
    ensures Occupied(slots[i := slot]) == Occupied(slots) + 1
  {
    if i == 0 {
      assert slots[0 := slot][1..] == slots[1..];
    } else {
      assert slots[i := slot][1..] == slots[1..][i - 1 := slot];
      OccupiedTaken(slots[1..], i - 1, slot);
    }
  }

  lemma {:induction false} OccupiedFreed(slots: seq<Slot>, i: nat)
    requires i < |slots| && slots[i].pb.Some?
    ensures Occupied(slots[i := slots[i].(pb := None)]) == Occupied(slots) - 1
  {
    if i == 0 {
      assert slots[0 := slots[0].(pb := None)][1..] == slots[1..];
    } else {
      assert slots[i := slots[i].(pb := None)][1..] == slots[1..][i - 1 := slots[i].(pb := None)];
      OccupiedFreed(slots[1..], i - 1);
    }
  }

  lemma {:induction false} OccupiedSame(slots: seq<Slot>, i: nat, slot: Slot)
    requires i < |slots| && (slots[i].pb.Some? <==> slot.pb.Some?)
    ensures Occupied(slots[i := slot]) == Occupied(slots)
  {
    if i == 0 {
      assert slots[0 := slot][1..] == slots[1..];
    } else {
      assert slots[i := slot][1..] == slots[1..][i - 1 := slot];
      OccupiedSame(slots[1..], i - 1, slot);
    }
  }

  lemma FormKeeps(s: Slots, pb: Pubnub, canAllocate: bool)
    requires Consistent(s) && pb !in s.index
    ensures Consistent(Form(s, pb, canAllocate).0)
    ensures Form(s, pb, canAllocate).1 <==> pb in Form(s, pb, canAllocate).0.index
  {
    hide Occupied;
    var i := FirstFree(s.slots);
    if i < |s.slots| {
      OccupiedTaken(s.slots, i, Slot(Some(pb), true, MIN_HEARTBEAT_PERIOD));
    }
  }

  lemma SetPeriodKeeps(s: Slots, pb: Pubnub, periodSec: nat)
    requires Consistent(s)
    ensures Consistent(SetPeriod(s, pb, periodSec).0)
  {
    hide Occupied;
    if pb in s.index {
      var i := s.index[pb];
      OccupiedSame(s.slots, i, s.slots[i].(periodSec := periodSec));
    }
  }

  lemma EnableKeeps(s: Slots, pb: Pubnub, periodSec: nat, canAllocate: bool)
    requires Consistent(s)
    ensures Consistent(Enable(s, pb, periodSec, canAllocate).0)
  {
    hide Occupied, Form, SetPeriod;
    if pb in s.index {
      SetPeriodKeeps(s, pb, periodSec);
    } else {
      FormKeeps(s, pb, canAllocate);
      SetPeriodKeeps(Form(s, pb, canAllocate).0, pb, periodSec);
    }
  }

  lemma DisableKeeps(s: Slots, pb: Pubnub)
    requires Consistent(s)
    ensures Consistent(Disable(s, pb))
  {
    hide Occupied;
    if pb in s.index {
      var i := s.index[pb];
      OccupiedFreed(s.slots, i);
      IndexShrinks(s.index, pb);
    }
  }

  lemma IndexShrinks(index: map<Pubnub, nat>, pb: Pubnub)
    requires pb in index
    ensures |index - {pb}| == |index| - 1
  {
    assert (index - {pb}).Keys == index.Keys - {pb};
    assert |(index - {pb}).Keys| == |index.Keys| - 1;
  }

  // ---------- runs ----------

  datatype Op = EnableOp(pb: Pubnub, periodSec: nat, canAllocate: bool) | DisableOp(pb: Pubnub)

  function Step(s: Slots, op: Op): Slots
    requires Consistent(s)
  {
    match op
    case EnableOp(pb, periodSec, canAllocate) => Enable(s, pb, periodSec, canAllocate).0
    case DisableOp(pb) => Disable(s, pb)
  }

  function Run(ops: seq<Op>): (s: Slots)
    ensures Consistent(s)
  {
    if ops == [] then
      Empty(MAX_THUMPERS);
      NO_THUMPERS
    else
      var s := Run(ops[..|ops| - 1]);
      var op := ops[|ops| - 1];
      if op.EnableOp? then
        EnableKeeps(s, op.pb, op.periodSec, op.canAllocate);
        Step(s, op)
      else
        DisableKeeps(s, op.pb);
        Step(s, op)
  }

  lemma {:induction false} Empty(n: nat)
    ensures Occupied(Vacant(n)) == 0
  {
    if n > 0 {
      Empty(n - 1);
    }
  }

  /** After any history, a context can be enabled exactly when it already is, or
      fewer than sixteen are and the first free slot has, or can get, its thumper.
      The slot search never runs off the end. */
  lemma EnableSucceeds(ops: seq<Op>, pb: Pubnub, periodSec: nat, canAllocate: bool)
    ensures var s := Run(ops);
      (s.inUse < 16 <==> FirstFree(s.slots) < 16) &&
      (Enable(s, pb, periodSec, canAllocate).1 <==>
         pb in s.index ||
         (|s.index| < 16 && (canAllocate || s.slots[FirstFree(s.slots)].hasThumper)))
  {
    var s := Run(ops);
    if pb !in s.index {
      FormKeeps(s, pb, canAllocate);
    }
  }

  lemma EnableShape(s: Slots, pb: Pubnub, periodSec: nat, canAllocate: bool)
    requires Consistent(s) && pb !in s.index
    ensures var (r, ok) := Enable(s, pb, periodSec, canAllocate);
      if !ok then r == s
      else
        var i := FirstFree(s.slots);
        i < |s.slots| && r == Slots(s.slots[i := Slot(Some(pb), true, periodSec)], s.inUse + 1, s.index[pb := i])
  {
    hide Occupied, FirstFree, Form;
    FormShape(s, pb, canAllocate);
    FormKeeps(s, pb, canAllocate);
    if Form(s, pb, canAllocate).1 {
      var i := FirstFree(s.slots);
      assert s.slots[i := Slot(Some(pb), true, MIN_HEARTBEAT_PERIOD)][i := Slot(Some(pb), true, periodSec)] == s.slots[i := Slot(Some(pb), true, periodSec)];
    }
  }

  lemma FormShape(s: Slots, pb: Pubnub, canAllocate: bool)
    requires Consistent(s) && pb !in s.index
    ensures var (r, ok) := Form(s, pb, canAllocate);
      if !ok then r == s
      else
        var i := FirstFree(s.slots);
        i < |s.slots| && r == Slots(s.slots[i := Slot(Some(pb), true, MIN_HEARTBEAT_PERIOD)], s.inUse + 1, s.index[pb := i])
  {
  }

  /** Disabling undoes enabling: the same contexts hold the same slots as before. */
  lemma DisableUndoes(s: Slots, pb: Pubnub, periodSec: nat, canAllocate: bool)
    requires Consistent(s) && pb !in s.index
    ensures Consistent(Enable(s, pb, periodSec, canAllocate).0)
    ensures var r := Disable(Enable(s, pb, periodSec, canAllocate).0, pb);
      r.index == s.index && r.inUse == s.inUse && |r.slots| == |s.slots| &&
      forall i :: 0 <= i < |s.slots| ==> r.slots[i].pb == s.slots[i].pb
  {
    hide Occupied, Enable, Consistent;
    EnableKeeps(s, pb, periodSec, canAllocate);
    EnableShape(s, pb, periodSec, canAllocate);
    if Enable(s, pb, periodSec, canAllocate).1 {
      assert s.index[pb := FirstFree(s.slots)] - {pb} == s.index;
    }
  }

  // ---------- periods ----------

  /** `pb` holds a slot with this period. */
  predicate Beats(s: Slots, pb: Pubnub, periodSec: nat) {
    pb in s.index && s.index[pb] < |s.slots| &&
    s.slots[s.index[pb]].pb == Some(pb) && s.slots[s.index[pb]].periodSec == periodSec
  }

  /** Enabling stores the period, also for a context that is enabled already: it keeps
      its slot and takes no other. Nobody else's slot or period changes, and a refused
      call changes nothing. */
  lemma EnableStores(s: Slots, pb: Pubnub, periodSec: nat, canAllocate: bool)
    requires Consistent(s)
    ensures var (r, ok) := Enable(s, pb, periodSec, canAllocate);
      (if ok then Beats(r, pb, periodSec) else r == s) &&
      (pb in s.index ==> ok && r.index == s.index && r.inUse == s.inUse) &&
      (forall other, n: nat :: other != pb ==> (Beats(r, other, n) <==> Beats(s, other, n)))
  {
    hide Occupied, FirstFree, Form, Enable;
    if pb in s.index {
      EnableAgain(s, pb, periodSec, canAllocate);
    } else {
      EnableShape(s, pb, periodSec, canAllocate);
      FirstFreeVacant(s);
    }
  }

  lemma EnableAgain(s: Slots, pb: Pubnub, periodSec: nat, canAllocate: bool)
    requires Consistent(s) && pb in s.index
    ensures Enable(s, pb, periodSec, canAllocate) ==
      (s.(slots := s.slots[s.index[pb] := Slot(Some(pb), s.slots[s.index[pb]].hasThumper, periodSec)]), true)
  {
  }

  lemma FirstFreeVacant(s: Slots)
    requires Consistent(s)
    ensures forall other :: other in s.index ==> s.index[other] != FirstFree(s.slots)
  {
    hide Occupied;
  }

  lemma DisableSpares(s: Slots, pb: Pubnub)
    requires Consistent(s)
    ensures pb !in Disable(s, pb).index
    ensures forall other, n: nat :: other != pb ==> (Beats(Disable(s, pb), other, n) <==> Beats(s, other, n))
  {
    hide Occupied;
  }

  /** After any history, an enabled context beats at the period it was last enabled
      with, whatever happened to the others. */
  lemma {:induction false} PeriodOfLast(ops: seq<Op>, pb: Pubnub, k: nat)
    requires k < |ops| && ops[k].EnableOp? && ops[k].pb == pb && pb in Run(ops[..k + 1]).index
    requires forall j :: k < j < |ops| ==> ops[j].pb != pb
    ensures Beats(Run(ops), pb, ops[k].periodSec)
  {
    hide Consistent, Occupied, Enable, Disable, Beats;
    var before := ops[..|ops| - 1];
    var s, last := Run(before), ops[|ops| - 1];
    if k == |ops| - 1 {
      assert ops[..k + 1] == ops;
      EnabledBeats(s, pb, last.periodSec, last.canAllocate);
    } else {
      assert before[..k + 1] == ops[..k + 1];
      PeriodOfLast(before, pb, k);
      if last.EnableOp? {
        EnableStores(s, last.pb, last.periodSec, last.canAllocate);
      } else {
        DisableSpares(s, last.pb);
      }
    }
  }

  /** Every slot in use has its thumper context. */
  predicate Equipped(s: Slots) {
    forall i :: 0 <= i < |s.slots| && s.slots[i].pb.Some? ==> s.slots[i].hasThumper
  }

  lemma StepEquipped(s: Slots, op: Op)
    requires Consistent(s) && Equipped(s)
    ensures Equipped(Step(s, op)) && |Step(s, op).slots| == |s.slots|
    ensures forall i :: 0 <= i < |s.slots| && s.slots[i].hasThumper ==> Step(s, op).slots[i].hasThumper
  {
    hide Occupied, FirstFree, Enable, Form;
    if op.EnableOp? {
      if op.pb in s.index {
        EnableAgain(s, op.pb, op.periodSec, op.canAllocate);
      } else {
        EnableShape(s, op.pb, op.periodSec, op.canAllocate);
      }
    }
  }

  lemma {:induction false} RunEquipped(ops: seq<Op>)
    ensures Equipped(Run(ops))
  {
    hide Step, Consistent;
    if ops != [] {
      RunEquipped(ops[..|ops| - 1]);
      StepEquipped(Run(ops[..|ops| - 1]), ops[|ops| - 1]);
    }
  }

  /** A thumper context that was made once is never lost, whoever comes and goes: taking
      its slot again needs no memory. */
  lemma {:induction false} ThumpersStay(ops: seq<Op>, n: nat, i: nat)
    requires n <= |ops| && i < 16 && |Run(ops[..n]).slots| == 16
    requires Run(ops[..n]).slots[i].pb.Some? || Run(ops[..n]).slots[i].hasThumper
    ensures |Run(ops).slots| == 16 && Run(ops).slots[i].hasThumper
  {
    hide Step, Consistent;
    RunEquipped(ops[..n]);
    if n == |ops| {
      assert ops[..n] == ops;
    } else {
      var before := ops[..|ops| - 1];
      assert before[..n] == ops[..n];
      ThumpersStay(before, n, i);
      RunEquipped(before);
      StepEquipped(Run(before), ops[|ops| - 1]);
    }
  }

  lemma EnabledBeats(s: Slots, pb: Pubnub, periodSec: nat, canAllocate: bool)
    requires Consistent(s) && pb in Enable(s, pb, periodSec, canAllocate).0.index
    ensures Beats(Enable(s, pb, periodSec, canAllocate).0, pb, periodSec)
  {
    hide Consistent, Occupied, Enable, Beats;
    EnableStores(s, pb, periodSec, canAllocate);
  }

  // ---------- the watcher's slots ----------

  class SlotTable {
    const heartbeatData: array<Slot>
    var thumpersInUse: nat
    var thumperIndex: map<Pubnub, nat>

    ghost predicate Valid()
      reads this, heartbeatData
    {
      Consistent(Model())
    }

    ghost function Model(): Slots
      reads this, heartbeatData
    {
      Slots(heartbeatData[..], thumpersInUse, thumperIndex)
    }

    constructor ()
      ensures Valid() && Model() == NO_THUMPERS && fresh(heartbeatData)
    {
      heartbeatData := new Slot[MAX_THUMPERS](_ => VACANT);
      thumpersInUse := 0;
      thumperIndex := map[];
      new;
      Empty(MAX_THUMPERS);
      assert heartbeatData[..] == NO_THUMPERS.slots;
    }

    method FormHeartbeatThumper(pb: Pubnub, canAllocate: bool) returns (ok: bool)
      requires Valid() && pb !in thumperIndex
      modifies this, heartbeatData
      ensures Valid() && (Model(), ok) == Form(old(Model()), pb, canAllocate)
    {
      FormKeeps(Model(), pb, canAllocate);
      assert heartbeatData.Length == MAX_THUMPERS;
      hide Consistent, Occupied;
      if thumpersInUse >= MAX_THUMPERS { return false; }
      ghost var was := heartbeatData[..];
      for i := 0 to MAX_THUMPERS
        invariant heartbeatData[..] == was && thumpersInUse == old(thumpersInUse) && thumperIndex == old(thumperIndex)
        invariant forall k :: 0 <= k < i ==> was[k].pb.Some?
      {
        if heartbeatData[i].pb == None {
          assert FirstFree(was) == i;
          if !heartbeatData[i].hasThumper && !canAllocate { return false; }
          TakeSlot(i, pb);
          return true;
        }
      }
      return true;
    }

    method TakeSlot(i: nat, pb: Pubnub)
      requires i < heartbeatData.Length
      modifies this, heartbeatData
      ensures Model() == Slots(old(heartbeatData[..])[i := Slot(Some(pb), true, MIN_HEARTBEAT_PERIOD)],
                               old(thumpersInUse) + 1, old(thumperIndex)[pb := i])
    {
      ghost var was := heartbeatData[..];
      thumperIndex := thumperIndex[pb := i];
      heartbeatData[i] := Slot(Some(pb), true, MIN_HEARTBEAT_PERIOD);
      thumpersInUse := thumpersInUse + 1;
      assert heartbeatData[..] == was[i := Slot(Some(pb), true, MIN_HEARTBEAT_PERIOD)];
    }

    method SetHeartbeatPeriod(pb: Pubnub, periodSec: nat) returns (ok: bool)
      requires Valid()
      modifies heartbeatData
      ensures Valid() && (Model(), ok) == SetPeriod(old(Model()), pb, periodSec)
    {
      SetPeriodKeeps(Model(), pb, periodSec);
      if pb !in thumperIndex { return false; }
      var i := thumperIndex[pb];
      ghost var was := heartbeatData[..];
      heartbeatData[i] := heartbeatData[i].(periodSec := periodSec);
      assert heartbeatData[..] == was[i := was[i].(periodSec := periodSec)];
      return true;
    }

    method EnableAutoHeartbeat(pb: Pubnub, periodSec: nat, canAllocate: bool) returns (ok: bool)
      requires Valid()
      modifies this, heartbeatData
      ensures Valid() && (Model(), ok) == Enable(old(Model()), pb, periodSec, canAllocate)
    {
      if pb !in thumperIndex {
        ok := FormHeartbeatThumper(pb, canAllocate);
        if !ok { return false; }
      }
      ok := SetHeartbeatPeriod(pb, periodSec);
    }

    /** Takes the slot back and stops its heartbeat: the timer, or the heartbeat call
        that is under way. */
    method DisableAutoHeartbeat(pb: Pubnub, watcher: Watcher, canStart: bool) returns (cancelled: bool)
      requires Valid() && watcher.Valid()
      modifies this, heartbeatData, watcher`activeTimers, watcher.timerIndexArray
      ensures Valid() && Model() == Disable(old(Model()), pb)
      ensures cancelled <==> pb in old(thumperIndex) && !canStart
      ensures watcher.Valid() && watcher.Model() ==
        if pb in old(thumperIndex) && canStart then Stop(old(watcher.Model()), old(thumperIndex)[pb]) else old(watcher.Model())
    {
      DisableKeeps(Model(), pb);
      if pb !in thumperIndex { return false; }
      OccupiedFreed(heartbeatData[..], thumperIndex[pb]);
      cancelled := ReleaseThumper(thumperIndex[pb], watcher, canStart);
      thumperIndex := thumperIndex - {pb};
    }

    method ReleaseThumper(i: nat, watcher: Watcher, canStart: bool) returns (cancelled: bool)
      requires i < heartbeatData.Length <= MAX_THUMPERS && thumpersInUse > 0 && watcher.Valid()
      modifies this`thumpersInUse, heartbeatData, watcher`activeTimers, watcher.timerIndexArray
      ensures heartbeatData[..] == old(heartbeatData[..])[i := old(heartbeatData[i]).(pb := None)]
      ensures thumpersInUse == old(thumpersInUse) - 1
      ensures cancelled == !canStart
      ensures watcher.Valid() && watcher.Model() == if canStart then Stop(old(watcher.Model()), i) else old(watcher.Model())
    {
      heartbeatData[i] := heartbeatData[i].(pb := None);
      thumpersInUse := thumpersInUse - 1;
      cancelled := StopHeartbeat(i, watcher, canStart);
    }

    method StopHeartbeat(i: nat, watcher: Watcher, canStart: bool) returns (cancelled: bool)
      requires i < MAX_THUMPERS && watcher.Valid()
      modifies watcher`activeTimers, watcher.timerIndexArray
      ensures cancelled == !canStart
      ensures watcher.Valid() && watcher.Model() == if canStart then Stop(old(watcher.Model()), i) else old(watcher.Model())
    {
      if canStart {
        watcher.AutoHeartbeatStopTimer(i);
      }
      return !canStart;
    }
  }
}
