/** Reference counts of the event engine: who holds states and invocations, and what is
    freed when the last holder lets go. */
module EngineReferences {
  import opened Common

  /** An invocation and the array entry that carries it. Merging shares the entry and
      counts the invocation once more; letting go of the entry counts it once less only
      with the last array. */
  datatype Invocation = Invocation(counter: nat, entry: nat, merges: nat)

  /** A state owns its two lists of invocations. */
  datatype State = State(counter: nat, onEnter: nat, onExit: nat)

  datatype Heap = Heap(
    invs: seq<Invocation>,
    /** Arrays of invocations; a freed one is None. The queue is array 0. */
    arrays: seq<Option<seq<nat>>>,
    states: seq<State>,
    current: nat,
    /** References to states held by transitions and by running functions. */
    held: seq<nat>)

  const QUEUE: nat := 0

  function Count(s: seq<nat>, i: nat): nat {
    if s == [] then 0 else Count(s[..|s| - 1], i) + (if s[|s| - 1] == i then 1 else 0)
  }

  function Elements(cell: Option<seq<nat>>): seq<nat> {
    if cell.Some? then cell.value else []
  }

  /** How many live arrays hold an invocation, with multiplicity. */
  function Holders(arrays: seq<Option<seq<nat>>>, i: nat): nat {
    if arrays == [] then 0 else Holders(arrays[..|arrays| - 1], i) + Count(Elements(arrays[|arrays| - 1]), i)
  }

  predicate Live(h: Heap, a: nat) {
    a < |h.arrays| && h.arrays[a].Some?
  }

  // ---------- primitive steps ----------

  function Share(inv: Invocation): Invocation {
    Invocation(inv.counter + 1, inv.entry + 1, inv.merges + 1)
  }

  function LetGo(inv: Invocation): Invocation {
    var entry := if inv.entry > 0 then inv.entry - 1 else 0;
    inv.(entry := entry, counter := if entry == 0 && inv.counter > 0 then inv.counter - 1 else inv.counter)
  }

  function ShareAll(invs: seq<Invocation>, ids: seq<nat>): (r: seq<Invocation>)
    ensures |r| == |invs|
  {
    if ids == [] then invs
    else
      var r, i := ShareAll(invs, ids[..|ids| - 1]), ids[|ids| - 1];
      if i < |r| then r[i := Share(r[i])] else r
  }

  function LetAllGo(invs: seq<Invocation>, ids: seq<nat>): (r: seq<Invocation>)
    ensures |r| == |invs|
  {
    if ids == [] then invs
    else
      var r, i := LetAllGo(invs, ids[..|ids| - 1]), ids[|ids| - 1];
      if i < |r| then r[i := LetGo(r[i])] else r
  }

  function NewArray(h: Heap): Heap {
    h.(arrays := h.arrays + [Some([])])
  }

  /** A new invocation in an array that exists. */
  function NewInvocation(h: Heap, a: nat): Heap
    requires Live(h, a)
  {
    h.(invs := h.invs + [Invocation(1, 1, 0)], arrays := h.arrays[a := Some(h.arrays[a].value + [|h.invs|])])
  }

  function Merge(h: Heap, to: nat, from: nat): Heap
    requires Live(h, to) && Live(h, from)
  {
    h.(invs := ShareAll(h.invs, h.arrays[from].value),
       arrays := h.arrays[to := Some(h.arrays[to].value + h.arrays[from].value)])
  }

  function RemoveAt(h: Heap, a: nat, k: nat): Heap
    requires Live(h, a) && k < |h.arrays[a].value|
  {
    var s := h.arrays[a].value;
    h.(invs := LetAllGo(h.invs, [s[k]]), arrays := h.arrays[a := Some(s[..k] + s[k + 1..])])
  }

  function FreeArray(h: Heap, a: nat): Heap {
    if !Live(h, a) then h
    else h.(invs := LetAllGo(h.invs, h.arrays[a].value), arrays := h.arrays[a := None])
  }

  /** A new state with its two lists, held by the function that made it. */
  function NewState(h: Heap): Heap {
    var n := |h.arrays|;
    h.(arrays := h.arrays + [Some([])] + [Some([])], states := h.states + [State(1, n, n + 1)], held := h.held + [|h.states|])
  }

  function CopyState(h: Heap, s: nat): Heap
    requires s < |h.states|
  {
    h.(states := h.states[s := h.states[s].(counter := h.states[s].counter + 1)], held := h.held + [s])
  }

  /** One reference less; with the last one the lists go. */
  function FreeState(h: Heap, s: nat): Heap
    requires s < |h.states|
  {
    var st := h.states[s];
    var counter := if st.counter > 0 then st.counter - 1 else 0;
    var less := h.(states := h.states[s := st.(counter := counter)]);
    if counter == 0 then FreeArray(FreeArray(less, st.onEnter), st.onExit) else less
  }

  function WithoutOne(s: seq<nat>, i: nat): seq<nat> {
    if s == [] then [] else if s[|s| - 1] == i then s[..|s| - 1] else WithoutOne(s[..|s| - 1], i) + [s[|s| - 1]]
  }

  function Release(h: Heap, s: nat): Heap
    requires s < |h.states|
  {
    FreeState(h.(held := WithoutOne(h.held, s)), s)
  }

  /** The old state is let go, the new one counted once more. */
  function SetCurrent(h: Heap, s: nat): Heap
    requires s < |h.states| && h.current < |h.states|
  {
    var less := FreeState(h, h.current);
    less.(states := less.states[s := less.states[s].(counter := less.states[s].counter + 1)], current := s)
  }

  // ---------- what every step keeps ----------

  predicate CountsInvocation(h: Heap, i: nat)
    requires i < |h.invs|
  {
    var inv := h.invs[i];
    inv.entry == Holders(h.arrays, i) && inv.entry <= inv.merges + 1 && inv.counter == inv.merges + if inv.entry > 0 then 1 else 0
  }

  predicate InRange(h: Heap) {
    forall a, k :: 0 <= a < |h.arrays| && 0 <= k < |Elements(h.arrays[a])| ==> Elements(h.arrays[a])[k] < |h.invs|
  }

  predicate InvocationsCounted(h: Heap) {
    InRange(h) && forall i :: 0 <= i < |h.invs| ==> CountsInvocation(h, i)
  }

  lemma {:induction false} CountAppend(s: seq<nat>, t: seq<nat>, i: nat)
    ensures Count(s + t, i) == Count(s, i) + Count(t, i)
  {
    if t == [] {
      assert s + t == s;
    } else {
      assert (s + t)[..|s + t| - 1] == s + t[..|t| - 1];
      CountAppend(s, t[..|t| - 1], i);
    }
  }

  lemma CountOne(x: nat, i: nat)
    ensures Count([x], i) == if x == i then 1 else 0
  {
    assert [x][..0] == [];
  }

  lemma {:induction false} CountAbsent(s: seq<nat>, i: nat)
    requires forall k :: 0 <= k < |s| ==> s[k] != i
    ensures Count(s, i) == 0
  {
    if s != [] {
      CountAbsent(s[..|s| - 1], i);
    }
  }

  lemma {:induction false} CountPresent(s: seq<nat>, k: nat)
    requires k < |s|
    ensures Count(s, s[k]) > 0
  {
    if k < |s| - 1 {
      CountPresent(s[..|s| - 1], k);
    }
  }

  lemma {:induction false} HoldersUpdate(arrays: seq<Option<seq<nat>>>, a: nat, cell: Option<seq<nat>>, i: nat)
    requires a < |arrays|
    ensures Holders(arrays[a := cell], i) == Holders(arrays, i) - Count(Elements(arrays[a]), i) + Count(Elements(cell), i)
  {
    var now, last := arrays[a := cell], |arrays| - 1;
    if a == last {
      assert now[..last] == arrays[..last];
    } else {
      assert now[..last] == arrays[..last][a := cell];
      HoldersUpdate(arrays[..last], a, cell, i);
    }
  }

  lemma HoldersAppend(arrays: seq<Option<seq<nat>>>, i: nat)
    ensures Holders(arrays + [Some([])], i) == Holders(arrays, i)
  {
    assert (arrays + [Some([])])[..|arrays|] == arrays;
  }

  lemma {:induction false} HoldersIn(arrays: seq<Option<seq<nat>>>, a: nat, i: nat)
    requires a < |arrays|
    ensures Holders(arrays, i) >= Count(Elements(arrays[a]), i)
  {
    if a < |arrays| - 1 {
      HoldersIn(arrays[..|arrays| - 1], a, i);
    }
  }

  lemma {:induction false} HoldersAbsent(arrays: seq<Option<seq<nat>>>, i: nat)
    requires forall a, k :: 0 <= a < |arrays| && 0 <= k < |Elements(arrays[a])| ==> Elements(arrays[a])[k] != i
    ensures Holders(arrays, i) == 0
  {
    if arrays != [] {
      var last := |arrays| - 1;
      assert forall k :: 0 <= k < |Elements(arrays[last])| ==> Elements(arrays[last])[k] != i;
      CountAbsent(Elements(arrays[last]), i);
      HoldersAbsent(arrays[..last], i);
    }
  }

  lemma {:induction false} SharedBy(invs: seq<Invocation>, ids: seq<nat>, i: nat)
    requires i < |invs|
    ensures var c := Count(ids, i);
      ShareAll(invs, ids)[i] == Invocation(invs[i].counter + c, invs[i].entry + c, invs[i].merges + c)
  {
    if ids != [] {
      SharedBy(invs, ids[..|ids| - 1], i);
    }
  }

  /** Letting go of an entry `c` times out of at least `c`. */
  lemma {:induction false} LetGoBy(invs: seq<Invocation>, ids: seq<nat>, i: nat)
    requires i < |invs| && Count(ids, i) <= invs[i].entry
    requires invs[i].counter == invs[i].merges + if invs[i].entry > 0 then 1 else 0
    ensures var r, c := LetAllGo(invs, ids)[i], Count(ids, i);
      r.entry == invs[i].entry - c && r.merges == invs[i].merges && r.counter == r.merges + if r.entry > 0 then 1 else 0
  {
    if ids != [] {
      LetGoBy(invs, ids[..|ids| - 1], i);
    }
  }

  lemma NewArrayKeeps(h: Heap)
    requires InvocationsCounted(h)
    ensures InvocationsCounted(NewArray(h))
  {
    var r := NewArray(h);
    forall i | 0 <= i < |r.invs| ensures CountsInvocation(r, i) {
      assert CountsInvocation(h, i);
      HoldersAppend(h.arrays, i);
    }
  }

  lemma NewInvocationKeeps(h: Heap, a: nat)
    requires InvocationsCounted(h) && Live(h, a)
    ensures InvocationsCounted(NewInvocation(h, a))
  {
    var r, n, s := NewInvocation(h, a), |h.invs|, h.arrays[a].value;
    forall b, k | 0 <= b < |r.arrays| && 0 <= k < |Elements(r.arrays[b])| ensures Elements(r.arrays[b])[k] < |r.invs| {
      if b == a && k < |s| {
        assert Elements(h.arrays[a])[k] < |h.invs|;
      }
    }
    forall i | 0 <= i <= n ensures CountsInvocation(r, i) {
      HoldersUpdate(h.arrays, a, Some(s + [n]), i);
      CountAppend(s, [n], i);
      CountOne(n, i);
      if i < n {
        assert CountsInvocation(h, i);
      } else {
        HoldersAbsent(h.arrays, n);
      }
    }
  }

  lemma MergeKeeps(h: Heap, to: nat, from: nat)
    requires InvocationsCounted(h) && Live(h, to) && Live(h, from)
    ensures InvocationsCounted(Merge(h, to, from))
  {
    var r, s, t := Merge(h, to, from), h.arrays[to].value, h.arrays[from].value;
    forall b, k | 0 <= b < |r.arrays| && 0 <= k < |Elements(r.arrays[b])| ensures Elements(r.arrays[b])[k] < |r.invs| {
      assert Elements(h.arrays[to]) == s && Elements(h.arrays[from]) == t;
      if b == to {
        assert (s + t)[k] == if k < |s| then s[k] else t[k - |s|];
      }
    }
    forall i | 0 <= i < |r.invs| ensures CountsInvocation(r, i) {
      assert CountsInvocation(h, i);
      HoldersUpdate(h.arrays, to, Some(s + t), i);
      CountAppend(s, t, i);
      SharedBy(h.invs, t, i);
      HoldersIn(h.arrays, from, i);
    }
  }

  /** An array gives up the elements `ids`. */
  lemma GiveUp(h: Heap, a: nat, ids: seq<nat>, rest: Option<seq<nat>>)
    requires InvocationsCounted(h) && Live(h, a)
    requires forall i :: 0 <= i < |h.invs| ==> Count(h.arrays[a].value, i) == Count(ids, i) + Count(Elements(rest), i)
    requires forall k :: 0 <= k < |Elements(rest)| ==> Elements(rest)[k] < |h.invs|
    ensures InvocationsCounted(h.(invs := LetAllGo(h.invs, ids), arrays := h.arrays[a := rest]))
  {
    hide Count, Holders, LetAllGo;
    var r := h.(invs := LetAllGo(h.invs, ids), arrays := h.arrays[a := rest]);
    forall b, k | 0 <= b < |r.arrays| && 0 <= k < |Elements(r.arrays[b])| ensures Elements(r.arrays[b])[k] < |r.invs| {
      if b != a {
        assert r.arrays[b] == h.arrays[b];
      }
    }
    forall i | 0 <= i < |r.invs| ensures CountsInvocation(r, i) {
      assert CountsInvocation(h, i);
      HoldersUpdate(h.arrays, a, rest, i);
      HoldersIn(h.arrays, a, i);
      LetGoBy(h.invs, ids, i);
    }
  }

  lemma RemoveAtKeeps(h: Heap, a: nat, k: nat)
    requires InvocationsCounted(h) && Live(h, a) && k < |h.arrays[a].value|
    ensures InvocationsCounted(RemoveAt(h, a, k))
  {
    var s := h.arrays[a].value;
    forall i | 0 <= i < |h.invs| ensures Count(s, i) == Count([s[k]], i) + Count(s[..k] + s[k + 1..], i) {
      assert s == s[..k] + ([s[k]] + s[k + 1..]);
      CountAppend(s[..k], [s[k]] + s[k + 1..], i);
      CountAppend([s[k]], s[k + 1..], i);
      CountAppend(s[..k], s[k + 1..], i);
    }
    var rest := s[..k] + s[k + 1..];
    forall j | 0 <= j < |rest| ensures rest[j] < |h.invs| {
      assert Elements(h.arrays[a]) == s;
      assert rest[j] == if j < k then s[j] else s[j + 1];
    }
    GiveUp(h, a, [s[k]], Some(rest));
  }

  lemma FreeArrayKeeps(h: Heap, a: nat)
    requires InvocationsCounted(h)
    ensures InvocationsCounted(FreeArray(h, a))
  {
    if Live(h, a) {
      GiveUp(h, a, h.arrays[a].value, None);
    }
  }

  /** What a live array reaches is not freed, and its counter is at least the number of
      arrays that hold it. */
  lemma ReachedIsCounted(h: Heap, a: nat, k: nat)
    requires InvocationsCounted(h) && Live(h, a) && k < |h.arrays[a].value|
    ensures var i := h.arrays[a].value[k];
      i < |h.invs| && h.invs[i].counter >= Holders(h.arrays, i) && h.invs[i].counter > 0
  {
    var i := h.arrays[a].value[k];
    assert Elements(h.arrays[a])[k] == i;
    CountPresent(h.arrays[a].value, k);
    HoldersIn(h.arrays, a, i);
    assert CountsInvocation(h, i);
  }

  /** The counter reaches zero exactly for an invocation no array holds and that was
      never merged: one that was in a transition once is never freed. */
  lemma FreedExactlyIfNeverMerged(h: Heap, i: nat)
    requires InvocationsCounted(h) && i < |h.invs|
    ensures h.invs[i].counter == 0 <==> Holders(h.arrays, i) == 0 && h.invs[i].merges == 0
  {
    assert CountsInvocation(h, i);
  }

  // ---------- states ----------

  predicate StateCounted(h: Heap, s: nat)
    requires s < |h.states|
  {
    h.states[s].counter == Count(h.held, s) + if h.current == s then 1 else 0
  }

  predicate StatesCounted(h: Heap) {
    h.current < |h.states| && (forall k :: 0 <= k < |h.held| ==> h.held[k] < |h.states|) &&
    forall s :: 0 <= s < |h.states| ==> StateCounted(h, s)
  }

  /** Every state has lists of its own, live as long as it is counted. */
  predicate ListsOwned(h: Heap) {
    Live(h, QUEUE) &&
    (forall s :: 0 <= s < |h.states| ==> QUEUE < h.states[s].onEnter < h.states[s].onExit < |h.arrays|) &&
    (forall s, t :: 0 <= s < t < |h.states| ==> h.states[s].onExit < h.states[t].onEnter) &&
    forall s :: 0 <= s < |h.states| && h.states[s].counter > 0 ==> Live(h, h.states[s].onEnter) && Live(h, h.states[s].onExit)
  }

  predicate Valid(h: Heap) {
    InvocationsCounted(h) && StatesCounted(h) && ListsOwned(h)
  }

  /** The array belongs to the queue or to a state. */
  predicate Owned(h: Heap, a: nat) {
    a == QUEUE || exists s :: 0 <= s < |h.states| && (h.states[s].onEnter == a || h.states[s].onExit == a)
  }

  datatype Step =
    | AddArray
    | AddInvocation(a: nat)
    | MergeArrays(to: nat, from: nat)
    | RemoveElement(a: nat, k: nat)
    | FreeLoose(a: nat)
    | AddState
    | CopyRef(s: nat)
    | DropRef(s: nat)
    | Enter(s: nat)

  /** What a function of the engine may do with what it holds. */
  predicate Enabled(h: Heap, step: Step) {
    match step
    case AddArray => true
    case AddInvocation(a) => Live(h, a)
    case MergeArrays(to, from) => Live(h, to) && Live(h, from)
    case RemoveElement(a, k) => Live(h, a) && k < |h.arrays[a].value|
    case FreeLoose(a) => !Owned(h, a)
    case AddState => true
    case CopyRef(s) => s < |h.states| && h.states[s].counter > 0
    case DropRef(s) => s < |h.states| && s in h.held
    case Enter(s) => s < |h.states| && s in h.held && h.current < |h.states|
  }

  function Apply(h: Heap, step: Step): Heap
    requires Enabled(h, step)
  {
    match step
    case AddArray => NewArray(h)
    case AddInvocation(a) => NewInvocation(h, a)
    case MergeArrays(to, from) => Merge(h, to, from)
    case RemoveElement(a, k) => RemoveAt(h, a, k)
    case FreeLoose(a) => FreeArray(h, a)
    case AddState => NewState(h)
    case CopyRef(s) => CopyState(h, s)
    case DropRef(s) => Release(h, s)
    case Enter(s) => SetCurrent(h, s)
  }

  const START: Heap := Heap([], [Some([]), Some([]), Some([])], [State(1, 1, 2)], 0, [])

  /** Steps in any order; one that is not enabled is skipped. */
  function Run(steps: seq<Step>): Heap {
    if steps == [] then START
    else
      var h, step := Run(steps[..|steps| - 1]), steps[|steps| - 1];
      if Enabled(h, step) then Apply(h, step) else h
  }

  lemma StatesUntouched(h: Heap, r: Heap)
    requires StatesCounted(h) && r.states == h.states && r.held == h.held && r.current == h.current
    ensures StatesCounted(r)
  {
    forall s | 0 <= s < |r.states| ensures StateCounted(r, s) {
      assert StateCounted(h, s);
    }
  }

  lemma ListsUntouched(h: Heap, r: Heap)
    requires ListsOwned(h) && r.states == h.states && |r.arrays| >= |h.arrays|
    requires forall a :: Live(h, a) && Owned(h, a) ==> Live(r, a)
    ensures ListsOwned(r)
  {
    assert Owned(h, QUEUE);
    forall s | 0 <= s < |r.states| && r.states[s].counter > 0 ensures Live(r, r.states[s].onEnter) && Live(r, r.states[s].onExit) {
      assert Owned(h, h.states[s].onEnter) && Owned(h, h.states[s].onExit);
    }
  }

  lemma ArrayStepKeeps(h: Heap, step: Step)
    requires Valid(h) && Enabled(h, step) && !step.AddState? && !step.CopyRef? && !step.DropRef? && !step.Enter?
    ensures Valid(Apply(h, step))
  {
    hide InvocationsCounted, StatesCounted, ListsOwned, LetAllGo, ShareAll, Owned;
    var r := Apply(h, step);
    match step {
      case AddArray => NewArrayKeeps(h);
      case AddInvocation(a) => NewInvocationKeeps(h, a);
      case MergeArrays(to, from) => MergeKeeps(h, to, from);
      case RemoveElement(a, k) => RemoveAtKeeps(h, a, k);
      case FreeLoose(a) => FreeArrayKeeps(h, a);
    }
    StatesUntouched(h, r);
    ListsUntouched(h, r);
  }

  lemma InvocationsOnly(h: Heap, r: Heap)
    requires InvocationsCounted(h) && r.invs == h.invs && r.arrays == h.arrays
    ensures InvocationsCounted(r)
  {
    forall i | 0 <= i < |r.invs| ensures CountsInvocation(r, i) {
      assert CountsInvocation(h, i);
    }
  }

  lemma NewStateKeeps(h: Heap)
    requires Valid(h)
    ensures Valid(NewState(h))
  {
    var two := NewArray(NewArray(h));
    NewArrayKeeps(h);
    NewArrayKeeps(NewArray(h));
    var r := NewState(h);
    InvocationsOnly(two, r);
    var n := |h.states|;
    assert |r.states| == n + 1;
    forall s | 0 <= s <= n ensures StateCounted(r, s) {
      CountAppend(h.held, [n], s);
      CountOne(n, s);
      if s < n {
        assert StateCounted(h, s);
      } else {
        CountAbsent(h.held, n);
      }
    }
  }

  lemma CopyKeeps(h: Heap, s: nat)
    requires Valid(h) && s < |h.states| && h.states[s].counter > 0
    ensures Valid(CopyState(h, s))
  {
    var r := CopyState(h, s);
    InvocationsOnly(h, r);
    forall t | 0 <= t < |r.states| ensures StateCounted(r, t) {
      assert StateCounted(h, t);
      CountAppend(h.held, [s], t);
      CountOne(s, t);
    }
  }

  lemma {:induction false} WithoutOneCounts(s: seq<nat>, x: nat, i: nat)
    requires x in s
    ensures Count(WithoutOne(s, x), i) == Count(s, i) - if x == i then 1 else 0
    ensures forall k :: 0 <= k < |WithoutOne(s, x)| ==> WithoutOne(s, x)[k] in s
  {
    var front, last := s[..|s| - 1], s[|s| - 1];
    assert s == front + [last];
    if last != x {
      WithoutOneCounts(front, x, i);
      CountAppend(WithoutOne(front, x), [last], i);
      CountOne(last, i);
    }
  }

  /** The lists of a state that is no longer counted may go. */
  lemma ListsGone(h: Heap, r: Heap, s: nat)
    requires ListsOwned(h) && s < |h.states| && r.states == h.states && |r.arrays| == |h.arrays| && h.states[s].counter == 0
    requires forall a: nat :: Live(h, a) && a != h.states[s].onEnter && a != h.states[s].onExit ==> Live(r, a)
    ensures ListsOwned(r)
  {
    forall t | 0 <= t < |r.states| && r.states[t].counter > 0 ensures Live(r, r.states[t].onEnter) && Live(r, r.states[t].onExit) {
      assert t < s || s < t;
    }
  }

  lemma LessCounted(h: Heap, less: Heap, s: nat, counter: nat)
    requires ListsOwned(h) && s < |h.states| && less == h.(states := h.states[s := h.states[s].(counter := counter)])
    requires counter > 0 ==> h.states[s].counter > 0
    ensures ListsOwned(less)
  {
  }

  /** Letting a state go, before the reference is struck from its holder. */
  lemma FreeStateKeeps(h: Heap, s: nat)
    requires InvocationsCounted(h) && ListsOwned(h) && s < |h.states|
    ensures var r := FreeState(h, s);
      InvocationsCounted(r) && ListsOwned(r) && |r.states| == |h.states| && r.held == h.held && r.current == h.current &&
      forall t :: 0 <= t < |h.states| ==>
        r.states[t] == h.states[t].(counter := if t == s && h.states[t].counter > 0 then h.states[t].counter - 1 else h.states[t].counter)
  {
    hide InvocationsCounted, LetAllGo, ListsOwned;
    var st := h.states[s];
    var counter := if st.counter > 0 then st.counter - 1 else 0;
    var less := h.(states := h.states[s := st.(counter := counter)]);
    InvocationsOnly(h, less);
    LessCounted(h, less, s, counter);
    if counter == 0 {
      FreeArrayKeeps(less, st.onEnter);
      FreeArrayKeeps(FreeArray(less, st.onEnter), st.onExit);
      ListsGone(less, FreeState(h, s), s);
    }
  }

  lemma ReleaseKeeps(h: Heap, s: nat)
    requires Valid(h) && s < |h.states| && s in h.held
    ensures Valid(Release(h, s)) && Release(h, s).current == h.current
  {
    hide InvocationsCounted, ListsOwned, FreeState, Count, WithoutOne;
    var less := h.(held := WithoutOne(h.held, s));
    assert InvocationsCounted(less) by { InvocationsOnly(h, less); }
    assert ListsOwned(less) by { ListsUntouched(h, less); }
    FreeStateKeeps(less, s);
    var r := Release(h, s);
    WithoutOneCounts(h.held, s, s);
    forall k | 0 <= k < |r.held| ensures r.held[k] < |r.states| {
      assert r.held[k] in h.held;
    }
    forall t | 0 <= t < |r.states| ensures StateCounted(r, t) {
      assert StateCounted(h, t);
      WithoutOneCounts(h.held, s, t);
    }
  }

  lemma {:induction false} CountIn(s: seq<nat>, i: nat)
    requires i in s
    ensures Count(s, i) > 0
  {
    if s[|s| - 1] != i {
      assert s == s[..|s| - 1] + [s[|s| - 1]];
      CountIn(s[..|s| - 1], i);
    }
  }

  lemma SetCurrentKeeps(h: Heap, s: nat)
    requires Valid(h) && s < |h.states| && s in h.held
    ensures Valid(SetCurrent(h, s))
  {
    hide InvocationsCounted, FreeState, Count;
    FreeStateKeeps(h, h.current);
    var less, r := FreeState(h, h.current), SetCurrent(h, s);
    InvocationsOnly(less, r);
    CountIn(h.held, s);
    assert StateCounted(h, s) && StateCounted(h, h.current);
    assert less.states[s].counter > 0;
    forall t | 0 <= t < |r.states| ensures StateCounted(r, t) {
      assert StateCounted(h, t);
    }
  }

  lemma StepKeeps(h: Heap, step: Step)
    requires Valid(h) && Enabled(h, step)
    ensures Valid(Apply(h, step))
  {
    hide Valid;
    match step
    case AddState => NewStateKeeps(h);
    case CopyRef(s) => CopyKeeps(h, s);
    case DropRef(s) => ReleaseKeeps(h, s);
    case Enter(s) => SetCurrentKeeps(h, s);
    case _ => ArrayStepKeeps(h, step);
  }

  lemma StartValid()
    ensures Valid(START)
  {
    assert START.arrays[..2] == [Some([]), Some([])] && START.arrays[..2][..1] == [Some([])] && START.arrays[..2][..1][..0] == [];
    assert StateCounted(START, 0);
  }

  lemma {:induction false} RunKeeps(steps: seq<Step>)
    ensures Valid(Run(steps))
  {
    if steps == [] {
      StartValid();
    } else {
      hide Valid, Enabled, Apply;
      RunKeeps(steps[..|steps| - 1]);
      var h, step := Run(steps[..|steps| - 1]), steps[|steps| - 1];
      if Enabled(h, step) {
        StepKeeps(h, step);
      }
    }
  }

  /** In every run: the current state and every state still referred to is allocated,
      counted exactly, and its lists are live; every invocation in the queue or in
      those lists is allocated and counted at least once for each array that holds it. */
  lemma NothingReachableIsFreed(steps: seq<Step>)
    ensures var h := Run(steps);
      h.current < |h.states| && Live(h, QUEUE) &&
      (forall s :: 0 <= s < |h.states| && (s == h.current || s in h.held) ==>
         h.states[s].counter == Count(h.held, s) + (if h.current == s then 1 else 0) && h.states[s].counter > 0 &&
         Live(h, h.states[s].onEnter) && Live(h, h.states[s].onExit)) &&
      (forall a: nat, k: nat :: Live(h, a) && k < |h.arrays[a].value| ==>
         var i := h.arrays[a].value[k]; i < |h.invs| && h.invs[i].counter > 0 && h.invs[i].counter >= Holders(h.arrays, i))
  {
    var h := Run(steps);
    RunKeeps(steps);
    forall s | 0 <= s < |h.states| && (s == h.current || s in h.held)
      ensures h.states[s].counter == Count(h.held, s) + (if h.current == s then 1 else 0) && h.states[s].counter > 0 &&
        Live(h, h.states[s].onEnter) && Live(h, h.states[s].onExit)
    {
      assert StateCounted(h, s);
      if s in h.held {
        CountIn(h.held, s);
      }
    }
    forall a: nat, k: nat | Live(h, a) && k < |h.arrays[a].value|
      ensures var i := h.arrays[a].value[k]; i < |h.invs| && h.invs[i].counter > 0 && h.invs[i].counter >= Holders(h.arrays, i)
    {
      ReachedIsCounted(h, a, k);
    }
  }
}
