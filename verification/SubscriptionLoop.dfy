/** The subscriptions and subscription sets in the loop, the set of names they need,
    and the lists written for the subscribe and leave calls. */
module SubscriptionLoop {
  import opened Common
  import opened NameLists
  import opened LeaveLists
  import opened LeaveSets

  /** The text of a list and the NUL behind it. */
  predicate HoldsText(a: array<char>, text: string)
    reads a
  {
    |text| < a.Length && a[..|text|] == text && a[|text|] == NUL
  }

  predicate SubscriptionIn(subs: seq<Subscription>, id: nat) {
    exists k :: 0 <= k < |subs| && subs[k].id == id
  }

  predicate NameIn(subs: seq<Subscription>, name: string) {
    exists k :: 0 <= k < |subs| && subs[k].name == name
  }

  lemma PrefixName(s: seq<Subscribable>, i: nat, group: bool, presence: bool)
    requires i < |s|
    ensures NamesOf(s[..i + 1], group, presence) ==
      NamesOf(s[..i], group, presence) + if s[i].group == group && (presence || !s[i].presence) then [s[i].name] else []
  {
    assert s[..i + 1][..i] == s[..i];
  }

  lemma {:induction false} PrefixOfNames(s: seq<Subscribable>, i: nat, group: bool, presence: bool)
    requires i <= |s|
    ensures NamesOf(s[..i], group, presence) <= NamesOf(s, group, presence)
    decreases |s| - i
  {
    if i == |s| {
      assert s[..i] == s;
    } else {
      PrefixName(s, i, group, presence);
      PrefixOfNames(s, i + 1, group, presence);
    }
  }

  lemma LengthsNext(names: seq<string>, name: string)
    ensures Lengths(names + [name]) == Lengths(names) + |name|
    ensures Joined(names + [name]) == Joined(names) + (if Joined(names) == "" then "" else ",") + name
  {
    assert (names + [name])[..|names|] == names;
  }

  /** First pass: the size of one list, a comma counted with every name, and a NUL. */
  method ListSize(s: seq<Subscribable>, group: bool, presence: bool) returns (length: nat, size: nat)
    ensures var names := NamesOf(s, group, presence);
      length == Lengths(names) && size == Lengths(names) + |names| + 1
  {
    var count := 0;
    length := 0;
    var i := 0;
    while i < |s|
      invariant i <= |s| && length == Lengths(NamesOf(s[..i], group, presence)) && count == |NamesOf(s[..i], group, presence)|
    {
      PrefixName(s, i, group, presence);
      LengthsNext(NamesOf(s[..i], group, presence), s[i].name);
      assert NamesOf(s[..i], group, presence) + [] == NamesOf(s[..i], group, presence);
      if s[i].group == group && (presence || !s[i].presence) {
        length := length + |s[i].name|;
        count := count + 1;
      }
      i := i + 1;
    }
    assert s[..i] == s;
    size := length + count + 1;
  }

  /** Writes one name, with a comma before it once something stands there, and the NUL. */
  method AppendName(a: array<char>, offset: nat, name: string) returns (end: nat)
    requires offset + (if offset > 0 then 1 else 0) + |name| < a.Length
    modifies a
    ensures end == offset + (if offset > 0 then 1 else 0) + |name|
    ensures a[..end] == old(a[..offset]) + (if offset > 0 then "," else "") + name && a[end] == NUL
  {
    end := offset;
    if offset > 0 {
      a[end] := ',';
      end := end + 1;
    }
    forall k | 0 <= k < |name| {
      a[end + k] := name[k];
    }
    end := end + |name|;
    a[end] := NUL;
  }

  /** Second pass: the names of one kind, joined, in a buffer of the computed size. */
  method WriteList(s: seq<Subscribable>, group: bool, presence: bool) returns (a: array<char>, length: nat)
    ensures fresh(a) && HoldsText(a, Joined(NamesOf(s, group, presence))) && length == Lengths(NamesOf(s, group, presence))
  {
    var size: nat;
    length, size := ListSize(s, group, presence);
    ghost var names := NamesOf(s, group, presence);
    a := new char[size];
    a[0] := NUL;
    var offset, i := 0, 0;
    while i < |s|
      invariant i <= |s| && offset == |Joined(NamesOf(s[..i], group, presence))|
      invariant HoldsText(a, Joined(NamesOf(s[..i], group, presence)))
    {
      hide Joined, Lengths;
      ghost var done := NamesOf(s[..i], group, presence);
      PrefixName(s, i, group, presence);
      assert done + [] == done;
      if s[i].group == group && (presence || !s[i].presence) {
        RoomForName(s, i, group, presence);
        LengthsNext(done, s[i].name);
        offset := AppendName(a, offset, s[i].name);
      }
      i := i + 1;
    }
    assert s[..i] == s;
  }

  lemma RoomForName(s: seq<Subscribable>, i: nat, group: bool, presence: bool)
    requires i <= |s|
    ensures var names := NamesOf(s, group, presence);
      i < |s| ==> |Joined(NamesOf(s[..i + 1], group, presence))| < Lengths(names) + |names| + 1
  {
    hide Joined, Lengths;
    if i < |s| {
      var names := NamesOf(s, group, presence);
      PrefixOfNames(s, i + 1, group, presence);
      var front := NamesOf(s[..i + 1], group, presence);
      assert names[..|front|] == front;
      AlwaysRoom(names, |front|);
    }
  }

  datatype Outcome = NotFound | Left | NothingToLeave

  class LoopKeeper {
    var subscriptions: seq<Subscription>
    var sets: seq<SubscriptionSet>
    /** The names of the loop as of the last change. */
    var subscribables: seq<Subscribable>

    ghost predicate Valid()
      reads this
    {
      subscribables == Loop(subscriptions, sets)
    }

    method AddSubscribables(more: seq<Subscribable>)
      modifies this`subscribables
      ensures subscribables == Union(old(subscribables), more)
    {
      var i := 0;
      assert more[..0] == [];
      while i < |more|
        invariant i <= |more| && subscribables == Union(old(subscribables), more[..i])
      {
        assert more[..i + 1][..i] == more[..i];
        if !Has(subscribables, more[i].name) {
          subscribables := subscribables + [more[i]];
        }
        i := i + 1;
      }
      assert more[..i] == more;
    }

    /** Collected afresh from every subscription and every set. */
    method UpdateSubscribables()
      modifies this`subscribables
      ensures Valid()
    {
      subscribables := [];
      var i := 0;
      while i < |subscriptions|
        invariant i <= |subscriptions| && subscribables == OfAll(subscriptions[..i])
      {
        assert subscriptions[..i + 1][..i] == subscriptions[..i];
        AddSubscribables(SubscribablesOf(subscriptions[i]));
        i := i + 1;
      }
      assert subscriptions[..i] == subscriptions;
      i := 0;
      while i < |sets|
        invariant i <= |sets| && subscribables == WithSets(OfAll(subscriptions), sets[..i])
      {
        assert sets[..i + 1][..i] == sets[..i];
        AddSubscribables(OfAll(sets[i].subs));
        i := i + 1;
      }
      assert sets[..i] == sets;
    }

    /** Takes out what the loop still holds. */
    method DropHeld(removed: seq<Subscribable>) returns (left: seq<Subscribable>)
      ensures left == Minus(removed, subscribables)
    {
      left := [];
      var i := 0;
      while i < |removed|
        invariant i <= |removed| && left == Minus(removed[..i], subscribables)
      {
        assert removed[..i + 1][..i] == removed[..i];
        if !Has(subscribables, removed[i].name) {
          left := left + [removed[i]];
        }
        i := i + 1;
      }
      assert removed[..i] == removed;
    }

    method SubscribeWithSubscription(sub: Subscription)
      modifies this
      ensures subscriptions == old(subscriptions) + [sub] && sets == old(sets) && Valid()
    {
      subscriptions := subscriptions + [sub];
      UpdateSubscribables();
    }

    method SubscribeWithSet(set_: SubscriptionSet)
      modifies this
      ensures sets == old(sets) + [set_] && subscriptions == old(subscriptions) && Valid()
    {
      sets := sets + [set_];
      UpdateSubscribables();
    }

    /** The lists for the leave call; nothing is to be left when both are empty. */
    method Unsubscribe(removed: seq<Subscribable>) returns (outcome: Outcome, channels: array<char>, groups: array<char>)
      modifies this`subscribables
      ensures Valid() && fresh(channels) && fresh(groups)
      ensures var left := Minus(removed, Loop(subscriptions, sets));
        HoldsText(channels, Joined(NamesOf(left, false, false))) && HoldsText(groups, Joined(NamesOf(left, true, false))) &&
        outcome == if Lengths(NamesOf(left, false, false)) == 0 && Lengths(NamesOf(left, true, false)) == 0 then NothingToLeave else Left
    {
      UpdateSubscribables();
      var left := DropHeld(removed);
      var n, m: nat;
      channels, n := WriteList(left, false, false);
      groups, m := WriteList(left, true, false);
      outcome := if n == 0 && m == 0 then NothingToLeave else Left;
    }

    method DropSubscription(id: nat)
      modifies this`subscriptions
      ensures subscriptions == Dropped(old(subscriptions), id)
    {
      var kept, i := [], 0;
      while i < |subscriptions|
        invariant i <= |subscriptions| && kept == Dropped(subscriptions[..i], id)
        invariant subscriptions == old(subscriptions)
      {
        assert subscriptions[..i + 1][..i] == subscriptions[..i];
        if subscriptions[i].id != id {
          kept := kept + [subscriptions[i]];
        }
        i := i + 1;
      }
      assert subscriptions[..i] == subscriptions;
      subscriptions := kept;
    }

    /** The leave lists name the subscription's own channel or group, if nothing else
        holds the name; the subscribe list then carries what is still held. */
    method UnsubscribeWithSubscription(sub: Subscription) returns (outcome: Outcome, channels: array?<char>, groups: array?<char>)
      requires Valid()
      modifies this
      ensures Valid() && sets == old(sets)
      ensures !SubscriptionIn(old(subscriptions), sub.id) <==> outcome == NotFound
      ensures outcome == NotFound ==> subscriptions == old(subscriptions) && channels == null && groups == null
      ensures outcome != NotFound ==>
        subscriptions == Dropped(old(subscriptions), sub.id) && channels != null && groups != null &&
        var left := !Held(subscriptions, sets, sub.name);
        HoldsText(channels, if left && !sub.group then sub.name else "") &&
        HoldsText(groups, if left && sub.group then sub.name else "") &&
        (outcome == Left <==> left && sub.name != "")
    {
      hide Loop, Held, Minus, SubscribablesOf, Joined, Lengths, Dropped, NamesOf, HoldsText, SubscriptionIn;
      channels, groups, outcome := null, null, NotFound;
      if SubscriptionIn(subscriptions, sub.id) {
        DropSubscription(sub.id);
        outcome, channels, groups := Unsubscribe(SubscribablesOf(sub));
        TextOfOne(sub, subscriptions, sets, false);
        TextOfOne(sub, subscriptions, sets, true);
      }
    }

    /** A whole set goes away. */
    method UnsubscribeWithSet(set_: SubscriptionSet) returns (outcome: Outcome, channels: array?<char>, groups: array?<char>)
      requires Valid()
      modifies this
      ensures Valid() && subscriptions == old(subscriptions)
      ensures !SetIn(old(sets), set_.id) <==> outcome == NotFound
      ensures outcome == NotFound ==> sets == old(sets) && channels == null && groups == null
      ensures outcome != NotFound ==>
        sets == DroppedSets(old(sets), set_.id) && channels != null && groups != null &&
        var left, leftGroups := SetLeaves(set_.subs, subscriptions, sets, false), SetLeaves(set_.subs, subscriptions, sets, true);
        HoldsText(channels, Joined(left)) && HoldsText(groups, Joined(leftGroups)) &&
        (outcome == NothingToLeave <==> Lengths(left) == 0 && Lengths(leftGroups) == 0)
    {
      channels, groups := null, null;
      if !SetIn(sets, set_.id) {
        return NotFound, null, null;
      }
      hide Loop, Minus;
      var kept, i := [], 0;
      while i < |sets|
        invariant i <= |sets| && kept == DroppedSets(sets[..i], set_.id)
      {
        assert sets[..i + 1][..i] == sets[..i];
        if sets[i].id != set_.id {
          kept := kept + [sets[i]];
        }
        i := i + 1;
      }
      assert sets[..i] == sets;
      sets := kept;
      outcome, channels, groups := Unsubscribe(OfAll(set_.subs));
    }

    /** One subscription of the i-th set goes away and the set stays. */
    method UnsubscribeFromSet(i: nat, sub: Subscription) returns (outcome: Outcome, channels: array?<char>, groups: array?<char>)
      requires Valid() && i < |sets|
      modifies this
      ensures Valid() && subscriptions == old(subscriptions)
      ensures NameIn(old(sets)[i].subs, sub.name) <==> outcome != NotFound
      ensures outcome == NotFound ==> sets == old(sets) && channels == null && groups == null
      ensures outcome != NotFound ==>
        sets == Shrunk(old(sets), i, sub.name) && channels != null && groups != null &&
        var left := !Held(subscriptions, sets, sub.name);
        HoldsText(channels, if left && !sub.group then sub.name else "") &&
        HoldsText(groups, if left && sub.group then sub.name else "") &&
        (outcome == Left <==> left && sub.name != "")
    {
      hide Loop, Held, Minus, SubscribablesOf, Joined, Lengths, NamesOf, HoldsText, NameIn;
      channels, groups, outcome := null, null, NotFound;
      if NameIn(sets[i].subs, sub.name) {
        var kept := KeepOthers(sets[i].subs, sub.name);
        sets := sets[i := sets[i].(subs := kept)];
        outcome, channels, groups := Unsubscribe(SubscribablesOf(sub));
        TextOfOne(sub, subscriptions, sets, false);
        TextOfOne(sub, subscriptions, sets, true);
      }
    }

    method KeepOthers(subs: seq<Subscription>, name: string) returns (kept: seq<Subscription>)
      ensures kept == WithoutName(subs, name)
    {
      kept := [];
      var i := 0;
      while i < |subs|
        invariant i <= |subs| && kept == WithoutName(subs[..i], name)
      {
        assert subs[..i + 1][..i] == subs[..i];
        if subs[i].name != name {
          kept := kept + [subs[i]];
        }
        i := i + 1;
      }
      assert subs[..i] == subs;
    }

    /** The lists for the subscribe call; absent when the loop is empty. */
    method SubscribeLists() returns (channels: array?<char>, groups: array?<char>)
      requires Valid() && forall k :: 0 <= k < |subscribables| ==> subscribables[k].name != ""
      ensures channels == null <==> subscribables == []
      ensures groups == null <==> subscribables == []
      ensures channels != null && groups != null ==>
        HoldsText(channels, Joined(NamesOf(Loop(subscriptions, sets), false, true))) &&
        HoldsText(groups, Joined(NamesOf(Loop(subscriptions, sets), true, true)))
    {
      var n, m: nat;
      channels, n := WriteList(subscribables, false, true);
      groups, m := WriteList(subscribables, true, true);
      NothingListed(subscribables);
      if n == 0 && m == 0 {
        channels, groups := null, null;
      }
    }
  }

  lemma TextOfOne(sub: Subscription, subs: seq<Subscription>, sets: seq<SubscriptionSet>, group: bool)
    ensures var names := NamesOf(Minus(SubscribablesOf(sub), Loop(subs, sets)), group, false);
      var text := if !Held(subs, sets, sub.name) && sub.group == group then sub.name else "";
      Joined(names) == text && Lengths(names) == |text|
  {
    hide Held, Loop, SubscribablesOf, Minus, NamesOf;
    LeaveOfOne(sub, subs, sets, group);
    OneJoined(sub.name);
  }

  lemma OneJoined(name: string)
    ensures Joined([name]) == name && Lengths([name]) == |name|
    ensures Joined([]) == "" && Lengths([]) == 0
  {
    assert [name][..0] == [];
    assert "" + "" + name == name;
  }

  predicate SetIn(sets: seq<SubscriptionSet>, id: nat) {
    exists k :: 0 <= k < |sets| && sets[k].id == id
  }
}
