/** What is left when a whole set goes away, or one subscription of a set that stays. */
module LeaveSets {
  import opened Common
  import opened LeaveLists

  /** The first element of a name. */
  function Lookup(s: seq<Subscribable>, name: string): Option<Subscribable> {
    if s == [] then None
    else
      var before := Lookup(s[..|s| - 1], name);
      if before.Some? then before else if s[|s| - 1].name == name then Some(s[|s| - 1]) else None
  }

  predicate DistinctNames(s: seq<Subscribable>) {
    forall j, k :: 0 <= j < k < |s| ==> s[j].name != s[k].name
  }

  /** What the first subscription that uses a name uses it for. */
  function FirstUse(subs: seq<Subscription>, name: string): Option<Subscribable> {
    if subs == [] then None
    else
      var before, last := FirstUse(subs[..|subs| - 1], name), subs[|subs| - 1];
      if before.Some? then before
      else if last.name == name then Some(Subscribable(name, last.group, false))
      else if last.presence && last.name + PRESENCE_SUFFIX == name then Some(Subscribable(name, last.group, true))
      else None
  }

  lemma LookupNext(s: seq<Subscribable>, e: Subscribable, name: string)
    ensures Lookup(s + [e], name) ==
      if Lookup(s, name).Some? then Lookup(s, name) else if e.name == name then Some(e) else None
  {
    assert (s + [e])[..|s|] == s;
  }

  lemma {:induction false} LookupHas(s: seq<Subscribable>, name: string)
    ensures Lookup(s, name).Some? <==> Has(s, name)
    ensures Lookup(s, name).Some? ==> Lookup(s, name).value in s && Lookup(s, name).value.name == name
  {
    if s != [] {
      var front, last := s[..|s| - 1], s[|s| - 1];
      LookupHas(front, name);
      AppendHas(front, last, name);
      assert s == front + [last];
    }
  }

  lemma {:induction false} UnionLookup(s: seq<Subscribable>, t: seq<Subscribable>, name: string)
    ensures Lookup(Union(s, t), name) == if Lookup(s, name).Some? then Lookup(s, name) else Lookup(t, name)
  {
    if t != [] {
      hide Has;
      var front, last := t[..|t| - 1], t[|t| - 1];
      UnionLookup(s, front, name);
      var u := Union(s, front);
      LookupNext(u, last, name);
      LookupHas(u, last.name);
    }
  }

  lemma {:induction false} UnionDistinct(s: seq<Subscribable>, t: seq<Subscribable>)
    requires DistinctNames(s)
    ensures DistinctNames(Union(s, t))
  {
    if t != [] {
      UnionDistinct(s, t[..|t| - 1]);
    }
  }

  lemma {:induction false} OfAllLookup(subs: seq<Subscription>, name: string)
    ensures Lookup(OfAll(subs), name) == FirstUse(subs, name) && DistinctNames(OfAll(subs))
  {
    if subs != [] {
      var front, last := subs[..|subs| - 1], subs[|subs| - 1];
      OfAllLookup(front, name);
      UnionLookup(OfAll(front), SubscribablesOf(last), name);
      UnionDistinct(OfAll(front), SubscribablesOf(last));
      OneLookup(last, name);
    }
  }

  lemma OneLookup(sub: Subscription, name: string)
    ensures Lookup(SubscribablesOf(sub), name) ==
      if sub.name == name then Some(Subscribable(name, sub.group, false))
      else if sub.presence && sub.name + PRESENCE_SUFFIX == name then Some(Subscribable(name, sub.group, true))
      else None
  {
    var regular := Subscribable(sub.name, sub.group, false);
    var presence := Subscribable(sub.name + PRESENCE_SUFFIX, sub.group, true);
    LookupNext([], regular, name);
    LookupNext([regular], presence, name);
    assert [] + [regular] == [regular] && [regular] + [] == [regular];
  }

  lemma KindOfLookup(s: seq<Subscribable>, name: string, group: bool)
    requires DistinctNames(s)
    ensures HasKind(s, name, group, false) <==>
      Lookup(s, name).Some? && Lookup(s, name).value.group == group && !Lookup(s, name).value.presence
  {
    LookupHas(s, name);
    if Lookup(s, name).Some? {
      var j :| 0 <= j < |s| && s[j] == Lookup(s, name).value;
    }
  }

  /** The leave list of one kind when the set goes away. */
  function SetLeaves(gone: seq<Subscription>, subs: seq<Subscription>, sets: seq<SubscriptionSet>, group: bool): seq<string> {
    NamesOf(Minus(OfAll(gone), Loop(subs, sets)), group, false)
  }

  /** A name is left with a set exactly when the set's first use of it is as a channel
      or group of that kind and nothing uses it any more. */
  lemma LeaveOfSet(gone: seq<Subscription>, subs: seq<Subscription>, sets: seq<SubscriptionSet>, name: string, group: bool)
    ensures name in SetLeaves(gone, subs, sets, group) <==>
      FirstUse(gone, name) == Some(Subscribable(name, group, false)) && !Held(subs, sets, name)
  {
    hide OfAll, Loop, Held, Has, HasKind, FirstUse, Lookup, DistinctNames;
    NeverLeftWhileHeld(OfAll(gone), Loop(subs, sets), name, group, false);
    LoopHas(subs, sets, name);
    OfAllLookup(gone, name);
    KindOfLookup(OfAll(gone), name, group);
    LookupHas(OfAll(gone), name);
  }

  predicate NoRepeats(names: seq<string>) {
    forall j, k :: 0 <= j < k < |names| ==> names[j] != names[k]
  }

  /** No name is listed twice. */
  lemma {:induction false} ListedOnce(s: seq<Subscribable>, t: seq<Subscribable>, group: bool)
    requires DistinctNames(s)
    ensures NoRepeats(NamesOf(Minus(s, t), group, false))
  {
    if s != [] {
      hide Has, NamesOf;
      var front, last := s[..|s| - 1], s[|s| - 1];
      ListedOnce(front, t, group);
      var left := Minus(front, t);
      NamesNext(left, last, group, false);
      assert left + [] == left;
      NotListed(front, last, t, group);
      assert NamesOf(left, group, false) + [] == NamesOf(left, group, false);
    }
  }

  lemma NotListed(s: seq<Subscribable>, e: Subscribable, t: seq<Subscribable>, group: bool)
    requires forall k :: 0 <= k < |s| ==> s[k].name != e.name
    ensures e.name !in NamesOf(Minus(s, t), group, false)
  {
    hide Minus, NamesOf;
    NeverLeftWhileHeld(s, t, e.name, group, false);
  }

  lemma SetListedOnce(gone: seq<Subscription>, subs: seq<Subscription>, sets: seq<SubscriptionSet>, group: bool)
    ensures NoRepeats(SetLeaves(gone, subs, sets, group))
  {
    OfAllLookup(gone, "");
    ListedOnce(OfAll(gone), Loop(subs, sets), group);
  }

  /** A channel or group of the set that no subscription is for any more. */
  predicate DroppedOut(gone: seq<Subscription>, subs: seq<Subscription>, sets: seq<SubscriptionSet>, name: string, group: bool) {
    !HeldAs(subs, sets, name, group) && exists k :: 0 <= k < |gone| && gone[k].name == name && gone[k].group == group
  }

  ghost predicate LeavesWhatDropsOut(gone: seq<Subscription>, subs: seq<Subscription>, sets: seq<SubscriptionSet>) {
    forall name, group :: name in SetLeaves(gone, subs, sets, group) <==> DroppedOut(gone, subs, sets, name, group)
  }

  /** Whatever drops out has its name to itself: nothing that stays uses it, and in the
      set nothing of another kind, and no presence channel, used it first. */
  predicate NoClash(gone: seq<Subscription>, subs: seq<Subscription>, sets: seq<SubscriptionSet>) {
    forall k :: 0 <= k < |gone| && !HeldAs(subs, sets, gone[k].name, gone[k].group) ==>
      !Held(subs, sets, gone[k].name) && FirstUse(gone, gone[k].name) == Some(Subscribable(gone[k].name, gone[k].group, false))
  }

  lemma {:induction false} FirstUseIs(gone: seq<Subscription>, name: string, group: bool)
    requires FirstUse(gone, name) == Some(Subscribable(name, group, false))
    ensures exists k :: 0 <= k < |gone| && gone[k].name == name && gone[k].group == group
  {
    var front, last := gone[..|gone| - 1], gone[|gone| - 1];
    if FirstUse(front, name).Some? {
      FirstUseIs(front, name, group);
      var k :| 0 <= k < |front| && front[k].name == name && front[k].group == group;
      assert gone[k] == front[k];
    }
  }

  /** When a set goes away, both leave lists are exactly the channels and groups that
      nobody holds any more if and only if no name clashes. */
  lemma SetLeftExactlyWithoutNameClash(gone: seq<Subscription>, subs: seq<Subscription>, sets: seq<SubscriptionSet>)
    ensures LeavesWhatDropsOut(gone, subs, sets) <==> NoClash(gone, subs, sets)
  {
    hide SetLeaves, Held, HeldAs, FirstUse;
    forall name, group
      ensures name in SetLeaves(gone, subs, sets, group) <==>
        FirstUse(gone, name) == Some(Subscribable(name, group, false)) && !Held(subs, sets, name)
      ensures name in SetLeaves(gone, subs, sets, group) ==> DroppedOut(gone, subs, sets, name, group)
    {
      LeaveOfSet(gone, subs, sets, name, group);
      if name in SetLeaves(gone, subs, sets, group) {
        FirstUseIs(gone, name, group);
        if HeldAs(subs, sets, name, group) {
          HeldAsIsHeld(subs, sets, name, group);
        }
      }
    }
    if LeavesWhatDropsOut(gone, subs, sets) {
      forall k | 0 <= k < |gone| && !HeldAs(subs, sets, gone[k].name, gone[k].group)
        ensures !Held(subs, sets, gone[k].name) && FirstUse(gone, gone[k].name) == Some(Subscribable(gone[k].name, gone[k].group, false))
      {
        assert DroppedOut(gone, subs, sets, gone[k].name, gone[k].group);
        assert gone[k].name in SetLeaves(gone, subs, sets, gone[k].group);
      }
    }
  }

  // ---------- one subscription of a set that stays ----------

  /** A set holds one subscription for a name. */
  function WithoutName(subs: seq<Subscription>, name: string): seq<Subscription> {
    if subs == [] then []
    else WithoutName(subs[..|subs| - 1], name) + (if subs[|subs| - 1].name == name then [] else [subs[|subs| - 1]])
  }

  function Shrunk(sets: seq<SubscriptionSet>, i: nat, name: string): seq<SubscriptionSet>
    requires i < |sets|
  {
    sets[i := sets[i].(subs := WithoutName(sets[i].subs, name))]
  }

  lemma {:induction false} WithoutNameUses(subs: seq<Subscription>, name: string, used: string)
    ensures AnyUses(WithoutName(subs, name), used) <==> exists k :: 0 <= k < |subs| && subs[k].name != name && Uses(subs[k], used)
  {
    if subs != [] {
      hide Uses;
      var front, last := subs[..|subs| - 1], subs[|subs| - 1];
      WithoutNameUses(front, name, used);
      assert subs == front + [last];
      var d := WithoutName(front, name);
      assert (d + [last])[|d|] == last;
      assert forall k :: 0 <= k < |d| ==> (d + [last])[k] == d[k];
      assert d + [] == d;
    }
  }

  /** The names removed are those of the loop before that are not in the loop after. */
  lemma OneOfSetDropsOut(subs: seq<Subscription>, sets: seq<SubscriptionSet>, i: nat, sub: Subscription, name: string)
    requires i < |sets| && sub in sets[i].subs && forall s :: s in sets[i].subs && s.name == sub.name ==> s == sub
    ensures var before, after := Loop(subs, sets), Loop(subs, Shrunk(sets, i, sub.name));
      Has(Minus(SubscribablesOf(sub), after), name) <==> Has(before, name) && !Has(after, name)
  {
    hide Has, Loop, Minus, Uses, AnyUses, SubscribablesOf, WithoutName;
    var rest := Shrunk(sets, i, sub.name);
    MinusHas(SubscribablesOf(sub), Loop(subs, rest), name);
    OfHas(sub, name);
    LoopHas(subs, sets, name);
    LoopHas(subs, rest, name);
    ShrunkUses(sets[i].subs, sub, name);
    forall k | 0 <= k < |sets| && k != i ensures rest[k] == sets[k] {
    }
    if AnySetUses(sets, name) {
      var k :| 0 <= k < |sets| && AnyUses(sets[k].subs, name);
      assert k != i ==> AnyUses(rest[k].subs, name);
      assert k == i && !Uses(sub, name) ==> AnyUses(rest[i].subs, name);
    }
    if AnySetUses(rest, name) {
      var k :| 0 <= k < |rest| && AnyUses(rest[k].subs, name);
      assert AnyUses(sets[k].subs, name);
    }
    assert Uses(sub, name) ==> AnyUses(sets[i].subs, name);
  }

  lemma ShrunkUses(subs: seq<Subscription>, sub: Subscription, name: string)
    requires sub in subs && forall s :: s in subs && s.name == sub.name ==> s == sub
    ensures AnyUses(subs, name) <==> AnyUses(WithoutName(subs, sub.name), name) || Uses(sub, name)
  {
    hide Uses;
    WithoutNameUses(subs, sub.name, name);
    if AnyUses(subs, name) {
      var k :| 0 <= k < |subs| && Uses(subs[k], name);
      assert subs[k] in subs;
    }
    var j :| 0 <= j < |subs| && subs[j] == sub;
    assert Uses(sub, name) ==> Uses(subs[j], name);
  }

  // ---------- inputs that show it ----------

  /** A channel and a group of the same name: the channel goes and is not left. */
  lemma GroupHidesChannel()
    ensures var channel, other := Subscription(1, "x", false, false), Subscription(2, "x", true, false);
      LeaveNames(channel, [other], [], false) == [] && !HeldAs([other], [], "x", false)
  {
    var channel, other := Subscription(1, "x", false, false), Subscription(2, "x", true, false);
    LeaveOfOne(channel, [other], [], false);
    assert Uses([other][0], "x");
    assert Held([other], [], "x");
  }

  /** A set with presence for "x" and the channel "x-pnpres": the channel is not left. */
  lemma PresenceHidesChannel()
    ensures var gone := [Subscription(1, "x", false, true), Subscription(2, "x-pnpres", false, false)];
      "x-pnpres" !in SetLeaves(gone, [], [], false) && DroppedOut(gone, [], [], "x-pnpres", false)
  {
    var gone := [Subscription(1, "x", false, true), Subscription(2, "x-pnpres", false, false)];
    LeaveOfSet(gone, [], [], "x-pnpres", false);
    assert gone[..1] == [gone[0]] && [gone[0]][..0] == [];
    assert "x" + PRESENCE_SUFFIX == "x-pnpres";
    assert gone[1].name == "x-pnpres";
  }

  // ---------- what is asked for ----------

  lemma {:induction false} MinusNone(s: seq<Subscribable>)
    ensures Minus(s, []) == s
  {
    if s != [] {
      MinusNone(s[..|s| - 1]);
      assert s == s[..|s| - 1] + [s[|s| - 1]];
    }
  }

  lemma {:induction false} LoopDistinct(subs: seq<Subscription>, sets: seq<SubscriptionSet>)
    ensures DistinctNames(Loop(subs, sets))
  {
    if sets == [] {
      OfAllLookup(subs, "");
    } else {
      hide OfAll, Union;
      LoopDistinct(subs, sets[..|sets| - 1]);
      UnionDistinct(Loop(subs, sets[..|sets| - 1]), OfAll(sets[|sets| - 1].subs));
    }
  }

  lemma {:induction false} ListedOnceAll(s: seq<Subscribable>, group: bool)
    requires DistinctNames(s)
    ensures NoRepeats(NamesOf(s, group, true))
  {
    if s != [] {
      var front, last := s[..|s| - 1], s[|s| - 1];
      ListedOnceAll(front, group);
      MinusNone(front);
      NeverLeftWhileHeld(front, [], last.name, group, true);
    }
  }

  /** The subscribe call asks for every name some subscription uses, presence names
      included, and for no other; each stands once, and in one of the two lists. */
  lemma AskedExactly(subs: seq<Subscription>, sets: seq<SubscriptionSet>, name: string)
    ensures var channels, groups := NamesOf(Loop(subs, sets), false, true), NamesOf(Loop(subs, sets), true, true);
      (Held(subs, sets, name) <==> name in channels || name in groups) &&
      !(name in channels && name in groups) && NoRepeats(channels) && NoRepeats(groups)
  {
    hide Loop, Held, NamesOf, Minus, NoRepeats;
    var loop := Loop(subs, sets);
    LoopHas(subs, sets, name);
    LoopDistinct(subs, sets);
    MinusNone(loop);
    NeverLeftWhileHeld(loop, [], name, false, true);
    NeverLeftWhileHeld(loop, [], name, true, true);
    ListedOnceAll(loop, false);
    ListedOnceAll(loop, true);
  }
}
