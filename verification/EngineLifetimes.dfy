/** Handling events with every reference counted: which states are ever freed. */
module EngineLifetimes {
  import opened Common
  import opened EngineReferences

  /** The reference its maker took is the only one left on a state beside the current
      one's. */
  predicate OnlyMakersRefs(h: Heap) {
    |h.held| == |h.states| - 1 && forall k :: 0 <= k < |h.held| ==> h.held[k] == k + 1
  }

  lemma {:induction false} MakersCount(held: seq<nat>, s: nat)
    requires forall k :: 0 <= k < |held| ==> held[k] == k + 1
    ensures Count(held, s) == if 0 < s <= |held| then 1 else 0
  {
    if held != [] {
      MakersCount(held[..|held| - 1], s);
    }
  }

  /** The last of several references to the same state is struck. */
  lemma {:induction false} StruckLast(a: seq<nat>, x: nat, b: seq<nat>)
    requires x !in b
    ensures WithoutOne(a + [x] + b, x) == a + b
  {
    var all := a + [x] + b;
    if b == [] {
      assert all[..|all| - 1] == a;
      assert a + b == a;
    } else {
      var front, last := b[..|b| - 1], b[|b| - 1];
      assert all[..|all| - 1] == a + [x] + front;
      StruckLast(a, x, front);
      assert a + b == a + front + [last];
    }
  }

  ghost predicate StayLive(h: Heap, r: Heap) {
    forall a: nat :: Live(h, a) ==> Live(r, a)
  }

  datatype Op = Event(emits: nat, works: bool) | Removal(k: nat)

  class CountedEngine {
    var h: Heap

    constructor ()
      ensures Valid(h) && OnlyMakersRefs(h) && h == START
    {
      h := START;
      StartValid();
    }

    /** Puts `n` new invocations into an array. */
    method AddInvocations(a: nat, n: nat)
      requires Valid(h) && Live(h, a)
      modifies this
      ensures Valid(h) && Live(h, a) && h.states == old(h.states) && h.held == old(h.held) && h.current == old(h.current) &&
        |h.arrays| == |old(h.arrays)| && StayLive(old(h), h)
    {
      hide Valid;
      var i := 0;
      while i < n
        invariant Valid(h) && Live(h, a) && h.states == old(h.states) && h.held == old(h.held) && h.current == old(h.current)
        invariant |h.arrays| == |old(h.arrays)| && StayLive(old(h), h)
      {
        StepKeeps(h, AddInvocation(a));
        h := NewInvocation(h, a);
        i := i + 1;
      }
    }

    /** The transition collects its own invocations, those of the state that is left and
        those of the state that is entered. */
    method Gather(transition: nat, own: nat, exit: nat, enter: nat)
      requires Valid(h) && Live(h, transition) && Live(h, own) && Live(h, exit) && Live(h, enter) && !Owned(h, own) && own != transition
      modifies this
      ensures Valid(h) && Live(h, transition) && h.states == old(h.states) && h.held == old(h.held) && h.current == old(h.current) &&
        |h.arrays| == |old(h.arrays)| && forall b: nat :: Live(old(h), b) && b != own ==> Live(h, b)
    {
      hide Valid, Owned, ShareAll, LetAllGo;
      StepKeeps(h, MergeArrays(transition, own));
      h := Merge(h, transition, own);
      StepKeeps(h, MergeArrays(transition, exit));
      h := Merge(h, transition, exit);
      StepKeeps(h, MergeArrays(transition, enter));
      h := Merge(h, transition, enter);
      SameOwners(old(h), h, own);
      StepKeeps(h, FreeLoose(own));
      h := FreeArray(h, own);
    }

    /** A loose array with the invocations of the transition itself. */
    method MakeOwn(emits: nat) returns (own: nat)
      requires Valid(h)
      modifies this
      ensures Valid(h) && h.states == old(h.states) && h.held == old(h.held) && h.current == old(h.current)
      ensures own == |old(h.arrays)| < |h.arrays| && Live(h, own) && !Owned(h, own)
      ensures StayLive(old(h), h)
    {
      hide InvocationsCounted, StatesCounted;
      own := |h.arrays|;
      StepKeeps(h, AddArray);
      h := NewArray(h);
      AddInvocations(own, emits);
    }

    /** The target state; one that works carries an invocation in either list. */
    method MakeTarget(works: bool) returns (target: nat)
      requires Valid(h)
      modifies this
      ensures Valid(h) && target == |old(h.states)| && |h.states| == target + 1 && h.states[..target] == old(h.states)
      ensures h.held == old(h.held) + [target] && h.current == old(h.current)
      ensures h.states[target].counter == 1 && h.states[target].onEnter == |old(h.arrays)| && Live(h, h.states[target].onEnter)
      ensures h.states[target].onExit == |old(h.arrays)| + 1
      ensures StayLive(old(h), h)
    {
      hide InvocationsCounted, StatesCounted, ListsOwned;
      target := |h.states|;
      var enter := |h.arrays|;
      StepKeeps(h, AddState);
      h := NewState(h);
      if works {
        AddInvocations(enter, 1);
        AddInvocations(enter + 1, 1);
      }
    }

    method CopyReference(s: nat)
      requires Valid(h) && s < |h.states| && h.states[s].counter > 0
      modifies this
      ensures Valid(h) && |h.states| == |old(h.states)| && h.held == old(h.held) + [s] && h.current == old(h.current) && StayLive(old(h), h)
      ensures forall t :: 0 <= t < |h.states| ==> h.states[t].onEnter == old(h.states)[t].onEnter && h.states[t].onExit == old(h.states)[t].onExit
    {
      hide Valid;
      StepKeeps(h, CopyRef(s));
      h := CopyState(h, s);
    }

    /** One event that changes the state: the new state becomes the current one, and its
        maker's reference stays. */
    method HandleEvent(emits: nat, works: bool)
      requires Valid(h)
      modifies this
      ensures Valid(h) && |h.states| == |old(h.states)| + 1 && h.current == |old(h.states)| && h.held == old(h.held) + [h.current]
    {
      hide Valid, Owned, Count, Live;
      CurrentLives(h);
      var from := h.current;
      var exit := h.states[from].onExit;
      CopyReference(from);
      var own := MakeOwn(emits);
      ghost var g1 := h;
      var target := MakeTarget(works);
      ghost var g2 := h;
      var enter := h.states[target].onEnter;
      NewOwners(g1, g2, own);
      CopyReference(target);
      ghost var g3 := h;
      SameOwners(g2, g3, own);
      assert Live(h, own) && Live(h, exit) && Live(h, enter);
      LiveInRange(g3, own);
      var transition := MakeOwn(0);
      SameOwners(g3, h, own);
      ghost var g4 := h;
      assert Live(g3, own) && Live(g3, exit) && Live(g3, enter) && StayLive(g3, g4);
      assert Live(h, own) && Live(h, exit) && Live(h, enter);
      Gather(transition, own, exit, enter);
      SameOwners(g4, h, transition);
      Finish(from, target, transition);
    }

    method Finish(from: nat, target: nat, transition: nat)
      requires Valid(h) && from == h.current && from < target < |h.states| && Live(h, transition) && !Owned(h, transition)
      requires |h.held| > 2 && h.held[|h.held| - 3..] == [from, target, target]
      modifies this
      ensures Valid(h) && |h.states| == |old(h.states)| && h.current == target && h.held == old(h.held)[..|old(h.held)| - 3] + [target]
    {
      hide Valid, Owned, ShareAll, LetAllGo, Release, SetCurrent, WithoutOne;
      ghost var rest := h.held[..|h.held| - 3];
      assert h.held == rest + [from] + [target, target];
      StruckLast(rest, from, [target, target]);
      ReleaseSpares(h, from, transition);
      StepKeeps(h, DropRef(from));
      h := Release(h, from);
      QueueLives(h);
      StepKeeps(h, MergeArrays(QUEUE, transition));
      SameOwners(h, Merge(h, QUEUE, transition), transition);
      h := Merge(h, QUEUE, transition);
      assert h.held == rest + [target] + [target] + [];
      SetCurrentSpares(h, target, transition);
      StepKeeps(h, Enter(target));
      h := SetCurrent(h, target);
      StepKeeps(h, FreeLoose(transition));
      h := FreeArray(h, transition);
      assert h.held == rest + [target] + [target] + [];
      StruckLast(rest + [target], target, []);
      ReleaseSpares(h, target, transition);
      StepKeeps(h, DropRef(target));
      h := Release(h, target);
      assert h.held == rest + [target];
    }

    method Remove(k: nat)
      requires Valid(h) && Live(h, QUEUE) && k < |h.arrays[QUEUE].value|
      modifies this
      ensures Valid(h) && h.states == old(h.states) && h.held == old(h.held) && h.current == old(h.current)
    {
      StepKeeps(h, RemoveElement(QUEUE, k));
      h := RemoveAt(h, QUEUE, k);
    }
  }

  lemma LiveInRange(h: Heap, a: nat)
    requires Live(h, a)
    ensures a < |h.arrays|
  {
  }

  lemma CurrentLives(h: Heap)
    requires Valid(h)
    ensures h.current < |h.states| && h.states[h.current].counter > 0 && Live(h, h.states[h.current].onExit)
  {
    assert StateCounted(h, h.current);
  }

  /** A new state's lists are new arrays. */
  lemma NewOwners(h: Heap, r: Heap, a: nat)
    requires |r.states| == |h.states| + 1 && r.states[..|h.states|] == h.states && a < |h.arrays|
    requires r.states[|h.states|].onEnter >= |h.arrays| && r.states[|h.states|].onExit >= |h.arrays|
    ensures Owned(h, a) <==> Owned(r, a)
  {
    assert forall s :: 0 <= s < |h.states| ==> r.states[s] == h.states[s];
  }

  lemma QueueLives(h: Heap)
    requires Valid(h)
    ensures Live(h, QUEUE)
  {
  }

  /** Letting a state go leaves alone what it does not own. */
  lemma FreeSpares(h: Heap, s: nat, a: nat)
    requires s < |h.states|
    ensures var r := FreeState(h, s);
      (Live(h, a) && !Owned(h, a) ==> Live(r, a)) && (Owned(h, a) <==> Owned(r, a)) &&
      |r.states| == |h.states| && r.held == h.held && r.current == h.current
  {
    hide LetAllGo;
    SameOwners(h, FreeState(h, s), a);
  }

  lemma ReleaseSpares(h: Heap, s: nat, a: nat)
    requires s < |h.states|
    ensures var r := Release(h, s);
      (Live(h, a) && !Owned(h, a) ==> Live(r, a)) && (Owned(h, a) <==> Owned(r, a)) &&
      |r.states| == |h.states| && r.held == WithoutOne(h.held, s) && r.current == h.current
  {
    hide FreeState, Owned, WithoutOne;
    var less := h.(held := WithoutOne(h.held, s));
    SameOwners(h, less, a);
    FreeSpares(less, s, a);
  }

  lemma SetCurrentSpares(h: Heap, s: nat, a: nat)
    requires s < |h.states| && h.current < |h.states|
    ensures var r := SetCurrent(h, s);
      (Live(h, a) && !Owned(h, a) ==> Live(r, a)) && (Owned(h, a) <==> Owned(r, a)) &&
      |r.states| == |h.states| && r.held == h.held && r.current == s
  {
    hide FreeState, Owned;
    FreeSpares(h, h.current, a);
    SameOwners(FreeState(h, h.current), SetCurrent(h, s), a);
  }

  lemma SameOwners(h: Heap, r: Heap, a: nat)
    requires |r.states| == |h.states|
    requires forall s :: 0 <= s < |h.states| ==> r.states[s].onEnter == h.states[s].onEnter && r.states[s].onExit == h.states[s].onExit
    ensures Owned(h, a) <==> Owned(r, a)
  {
  }

  /** After any events and removals: the initial state is freed once it has been left,
      and no other state ever is. */
  method HandleAll(ops: seq<Op>) returns (engine: CountedEngine)
    ensures fresh(engine) && Valid(engine.h)
    ensures forall s :: 0 <= s < |engine.h.states| ==>
      engine.h.states[s].counter == (if s > 0 then 1 else 0) + (if s == engine.h.current then 1 else 0)
  {
    engine := new CountedEngine();
    var k := 0;
    while k < |ops|
      invariant fresh(engine) && Valid(engine.h) && OnlyMakersRefs(engine.h)
    {
      hide Valid;
      match ops[k] {
        case Event(emits, works) =>
          engine.HandleEvent(emits, works);
        case Removal(j) =>
          QueueLives(engine.h);
          if j < |engine.h.arrays[QUEUE].value| {
            engine.Remove(j);
          }
      }
      k := k + 1;
    }
    MakersCounted(engine.h);
  }

  lemma MakersCounted(h: Heap)
    requires Valid(h) && OnlyMakersRefs(h)
    ensures forall s :: 0 <= s < |h.states| ==> h.states[s].counter == (if s > 0 then 1 else 0) + (if s == h.current then 1 else 0)
  {
    forall s | 0 <= s < |h.states| ensures h.states[s].counter == (if s > 0 then 1 else 0) + (if s == h.current then 1 else 0) {
      assert StateCounted(h, s);
      MakersCount(h.held, s);
    }
  }
}
