/** Which channels and groups are left when a subscription or a set of them goes away:
    the names it used that nothing else in the subscription loop uses. */
module LeaveLists {
  import opened Common
  import opened NameLists

  datatype Subscribable = Subscribable(name: string, group: bool, presence: bool)
  datatype Subscription = Subscription(id: nat, name: string, group: bool, presence: bool)
  datatype SubscriptionSet = SubscriptionSet(id: nat, subs: seq<Subscription>)

  const PRESENCE_SUFFIX: string := "-pnpres"

  // ---------- sets keyed by name ----------

  predicate Has(s: seq<Subscribable>, name: string) {
    exists k :: 0 <= k < |s| && s[k].name == name
  }

  function Insert(s: seq<Subscribable>, e: Subscribable): seq<Subscribable> {
    if Has(s, e.name) then s else s + [e]
  }

  /** Elements whose name is already there are dropped. */
  function Union(s: seq<Subscribable>, t: seq<Subscribable>): seq<Subscribable> {
    if t == [] then s else Insert(Union(s, t[..|t| - 1]), t[|t| - 1])
  }

  function Minus(s: seq<Subscribable>, t: seq<Subscribable>): seq<Subscribable> {
    if s == [] then []
    else Minus(s[..|s| - 1], t) + (if Has(t, s[|s| - 1].name) then [] else [s[|s| - 1]])
  }

  // ---------- the subscription loop ----------

  function SubscribablesOf(sub: Subscription): seq<Subscribable> {
    [Subscribable(sub.name, sub.group, false)] +
    (if sub.presence then [Subscribable(sub.name + PRESENCE_SUFFIX, sub.group, true)] else [])
  }

  function OfAll(subs: seq<Subscription>): seq<Subscribable> {
    if subs == [] then [] else Union(OfAll(subs[..|subs| - 1]), SubscribablesOf(subs[|subs| - 1]))
  }

  function WithSets(s: seq<Subscribable>, sets: seq<SubscriptionSet>): seq<Subscribable> {
    if sets == [] then s else Union(WithSets(s, sets[..|sets| - 1]), OfAll(sets[|sets| - 1].subs))
  }

  function Loop(subs: seq<Subscription>, sets: seq<SubscriptionSet>): seq<Subscribable> {
    WithSets(OfAll(subs), sets)
  }

  /** Every occurrence of the same object is removed. */
  function Dropped(subs: seq<Subscription>, id: nat): seq<Subscription> {
    if subs == [] then []
    else Dropped(subs[..|subs| - 1], id) + (if subs[|subs| - 1].id == id then [] else [subs[|subs| - 1]])
  }

  function DroppedSets(sets: seq<SubscriptionSet>, id: nat): seq<SubscriptionSet> {
    if sets == [] then []
    else DroppedSets(sets[..|sets| - 1], id) + (if sets[|sets| - 1].id == id then [] else [sets[|sets| - 1]])
  }

  // ---------- the lists ----------

  /** Names of one kind, presence names only when asked for. */
  function NamesOf(s: seq<Subscribable>, group: bool, presence: bool): seq<string> {
    if s == [] then []
    else
      var last := s[|s| - 1];
      NamesOf(s[..|s| - 1], group, presence) + (if last.group == group && (presence || !last.presence) then [last.name] else [])
  }

  /** Joined as it is written: a comma goes before a name once something stands there. */
  function Joined(names: seq<string>): string {
    if names == [] then ""
    else
      var before := Joined(names[..|names| - 1]);
      before + (if before == "" then "" else ",") + names[|names| - 1]
  }

  // ---------- who holds a name ----------

  predicate Uses(sub: Subscription, name: string) {
    sub.name == name || (sub.presence && sub.name + PRESENCE_SUFFIX == name)
  }

  predicate AnyUses(subs: seq<Subscription>, name: string) {
    exists k :: 0 <= k < |subs| && Uses(subs[k], name)
  }

  predicate AnySetUses(sets: seq<SubscriptionSet>, name: string) {
    exists k :: 0 <= k < |sets| && AnyUses(sets[k].subs, name)
  }

  /** Some subscription, alone or in a set, uses the name. */
  predicate Held(subs: seq<Subscription>, sets: seq<SubscriptionSet>, name: string) {
    AnyUses(subs, name) || AnySetUses(sets, name)
  }

  lemma {:induction false} UnionHas(s: seq<Subscribable>, t: seq<Subscribable>, name: string)
    ensures Has(Union(s, t), name) <==> Has(s, name) || Has(t, name)
  {
    if t != [] {
      var front, last := t[..|t| - 1], t[|t| - 1];
      UnionHas(s, front, name);
      assert Has(t, name) <==> Has(front, name) || last.name == name by {
        assert t == front + [last];
        AppendHas(front, last, name);
      }
      AppendHas(Union(s, front), last, name);
    }
  }

  lemma AppendHas(s: seq<Subscribable>, e: Subscribable, name: string)
    ensures Has(s + [e], name) <==> Has(s, name) || e.name == name
  {
    assert (s + [e])[|s|] == e;
    assert forall k :: 0 <= k < |s| ==> (s + [e])[k] == s[k];
  }

  lemma OfHas(sub: Subscription, name: string)
    ensures Has(SubscribablesOf(sub), name) <==> Uses(sub, name)
  {
    var regular := Subscribable(sub.name, sub.group, false);
    AppendHas([], regular, name);
    assert [] + [regular] == [regular];
    AppendHas([regular], Subscribable(sub.name + PRESENCE_SUFFIX, sub.group, true), name);
    assert [regular] + [] == [regular];
  }

  lemma {:induction false} OfAllHas(subs: seq<Subscription>, name: string)
    ensures Has(OfAll(subs), name) <==> AnyUses(subs, name)
  {
    if subs != [] {
      var front, last := subs[..|subs| - 1], subs[|subs| - 1];
      OfAllHas(front, name);
      OfHas(last, name);
      UnionHas(OfAll(front), SubscribablesOf(last), name);
      assert AnyUses(subs, name) <==> AnyUses(front, name) || Uses(last, name);
    }
  }

  /** The loop holds exactly the names some subscription uses. */
  lemma {:induction false} LoopHas(subs: seq<Subscription>, sets: seq<SubscriptionSet>, name: string)
    ensures Has(Loop(subs, sets), name) <==> Held(subs, sets, name)
  {
    if sets == [] {
      OfAllHas(subs, name);
    } else {
      var front, last := sets[..|sets| - 1], sets[|sets| - 1];
      LoopHas(subs, front, name);
      OfAllHas(last.subs, name);
      UnionHas(Loop(subs, front), OfAll(last.subs), name);
      assert AnySetUses(sets, name) <==> AnySetUses(front, name) || AnyUses(last.subs, name);
    }
  }

  // ---------- what is left ----------

  lemma {:induction false} MinusHas(s: seq<Subscribable>, t: seq<Subscribable>, name: string)
    ensures Has(Minus(s, t), name) <==> Has(s, name) && !Has(t, name)
  {
    if s != [] {
      var front, last := s[..|s| - 1], s[|s| - 1];
      MinusHas(front, t, name);
      AppendHas(front, last, name);
      AppendHas(Minus(front, t), last, name);
      assert s == front + [last];
      assert Minus(front, t) + [] == Minus(front, t);
    }
  }

  predicate HasKind(s: seq<Subscribable>, name: string, group: bool, presence: bool) {
    exists k :: 0 <= k < |s| && s[k].name == name && s[k].group == group && (presence || !s[k].presence)
  }

  /** What is listed: the names of the kind among the elements removed, without those
      still held. */
  lemma {:induction false} NeverLeftWhileHeld(removed: seq<Subscribable>, after: seq<Subscribable>, name: string, group: bool, presence: bool)
    ensures name in NamesOf(Minus(removed, after), group, presence) <==> HasKind(removed, name, group, presence) && !Has(after, name)
  {
    if removed != [] {
      hide Has;
      var front, last := removed[..|removed| - 1], removed[|removed| - 1];
      NeverLeftWhileHeld(front, after, name, group, presence);
      HasKindNext(removed, name, group, presence);
      var before := Minus(front, after);
      if Has(after, last.name) {
        assert before + [] == before;
      } else {
        assert (before + [last])[..|before|] == before;
      }
    }
  }

  lemma HasKindNext(s: seq<Subscribable>, name: string, group: bool, presence: bool)
    requires s != []
    ensures var front, last := s[..|s| - 1], s[|s| - 1];
      HasKind(s, name, group, presence) <==>
        HasKind(front, name, group, presence) || (last.name == name && last.group == group && (presence || !last.presence))
  {
    var front, last := s[..|s| - 1], s[|s| - 1];
    assert s == front + [last];
  }

  lemma {:induction false} DroppedUses(subs: seq<Subscription>, sub: Subscription, name: string)
    requires sub in subs && forall s :: s in subs && s.id == sub.id ==> s == sub
    ensures AnyUses(subs, name) <==> AnyUses(Dropped(subs, sub.id), name) || Uses(sub, name)
  {
    DroppedOthers(subs, sub.id, name);
    if AnyUses(subs, name) {
      var k :| 0 <= k < |subs| && Uses(subs[k], name);
      assert subs[k] in subs;
    }
    var j :| 0 <= j < |subs| && subs[j] == sub;
    assert Uses(sub, name) ==> Uses(subs[j], name);
  }

  lemma {:induction false} DroppedOthers(subs: seq<Subscription>, id: nat, name: string)
    ensures AnyUses(Dropped(subs, id), name) <==> exists k :: 0 <= k < |subs| && subs[k].id != id && Uses(subs[k], name)
  {
    if subs != [] {
      hide Uses;
      var front, last := subs[..|subs| - 1], subs[|subs| - 1];
      DroppedOthers(front, id, name);
      assert subs == front + [last];
      var d := Dropped(front, id);
      assert (d + [last])[|d|] == last;
      assert forall k :: 0 <= k < |d| ==> (d + [last])[k] == d[k];
      assert d + [] == d;
    }
  }

  /** The names removed by unsubscribing are those of the loop before that are not in
      the loop after. */
  lemma DropsOut(subs: seq<Subscription>, sets: seq<SubscriptionSet>, sub: Subscription, name: string)
    requires sub in subs && forall s :: s in subs && s.id == sub.id ==> s == sub
    ensures var before, after := Loop(subs, sets), Loop(Dropped(subs, sub.id), sets);
      Has(Minus(SubscribablesOf(sub), after), name) <==> Has(before, name) && !Has(after, name)
  {
    hide Has, Loop, Minus, Uses, AnyUses, AnySetUses, SubscribablesOf;
    var after := Loop(Dropped(subs, sub.id), sets);
    MinusHas(SubscribablesOf(sub), after, name);
    OfHas(sub, name);
    LoopHas(subs, sets, name);
    LoopHas(Dropped(subs, sub.id), sets, name);
    DroppedUses(subs, sub, name);
  }

  lemma {:induction false} DroppedSetsOthers(sets: seq<SubscriptionSet>, id: nat, name: string)
    ensures AnySetUses(DroppedSets(sets, id), name) <==> exists k :: 0 <= k < |sets| && sets[k].id != id && AnyUses(sets[k].subs, name)
  {
    if sets != [] {
      hide AnyUses;
      var front, last := sets[..|sets| - 1], sets[|sets| - 1];
      DroppedSetsOthers(front, id, name);
      assert sets == front + [last];
      var d := DroppedSets(front, id);
      assert (d + [last])[|d|] == last;
      assert forall k :: 0 <= k < |d| ==> (d + [last])[k] == d[k];
      assert d + [] == d;
    }
  }

  /** The same for a whole set of subscriptions. */
  lemma SetDropsOut(subs: seq<Subscription>, sets: seq<SubscriptionSet>, gone: SubscriptionSet, name: string)
    requires gone in sets && forall s :: s in sets && s.id == gone.id ==> s == gone
    ensures var before, after := Loop(subs, sets), Loop(subs, DroppedSets(sets, gone.id));
      Has(Minus(OfAll(gone.subs), after), name) <==> Has(before, name) && !Has(after, name)
  {
    hide Has, Loop, Minus, Uses, AnyUses, OfAll, DroppedSets;
    var rest := DroppedSets(sets, gone.id);
    MinusHas(OfAll(gone.subs), Loop(subs, rest), name);
    OfAllHas(gone.subs, name);
    LoopHas(subs, sets, name);
    LoopHas(subs, rest, name);
    DroppedSetsOthers(sets, gone.id, name);
    var j :| 0 <= j < |sets| && sets[j] == gone;
    assert AnyUses(gone.subs, name) ==> AnyUses(sets[j].subs, name);
    if AnySetUses(sets, name) && !AnySetUses(rest, name) {
      var k :| 0 <= k < |sets| && AnyUses(sets[k].subs, name);
      assert sets[k] in sets;
    }
  }

  /** Some subscription is for this very channel or group. */
  predicate HeldAs(subs: seq<Subscription>, sets: seq<SubscriptionSet>, name: string, group: bool) {
    (exists k :: 0 <= k < |subs| && subs[k].name == name && subs[k].group == group) ||
    (exists k, j :: 0 <= k < |sets| && 0 <= j < |sets[k].subs| && sets[k].subs[j].name == name && sets[k].subs[j].group == group)
  }

  function LeaveNames(sub: Subscription, subs: seq<Subscription>, sets: seq<SubscriptionSet>, group: bool): seq<string> {
    NamesOf(Minus(SubscribablesOf(sub), Loop(subs, sets)), group, false)
  }

  lemma MinusNext(s: seq<Subscribable>, e: Subscribable, t: seq<Subscribable>)
    ensures Minus(s + [e], t) == Minus(s, t) + if Has(t, e.name) then [] else [e]
  {
    assert (s + [e])[..|s|] == s;
  }

  lemma NamesNext(s: seq<Subscribable>, e: Subscribable, group: bool, presence: bool)
    ensures NamesOf(s + [e], group, presence) ==
      NamesOf(s, group, presence) + if e.group == group && (presence || !e.presence) then [e.name] else []
  {
    assert (s + [e])[..|s|] == s;
  }

  lemma LeaveOfOne(sub: Subscription, subs: seq<Subscription>, sets: seq<SubscriptionSet>, group: bool)
    ensures LeaveNames(sub, subs, sets, group) == if group == sub.group && !Held(subs, sets, sub.name) then [sub.name] else []
  {
    hide Has, Loop, Held;
    var after := Loop(subs, sets);
    LoopHas(subs, sets, sub.name);
    var regular := Subscribable(sub.name, sub.group, false);
    var presence := Subscribable(sub.name + PRESENCE_SUFFIX, sub.group, true);
    MinusNext([], regular, after);
    NamesNext([], regular, group, false);
    assert [] + [regular] == [regular];
    assert [regular] + [] == [regular];
    if sub.presence {
      MinusNext([regular], presence, after);
      var left := Minus([regular], after);
      NamesNext(left, presence, group, false);
      assert NamesOf(left, group, false) + [] == NamesOf(left, group, false);
      assert left + [] == left;
    }
  }

  lemma HeldAsIsHeld(subs: seq<Subscription>, sets: seq<SubscriptionSet>, name: string, group: bool)
    requires HeldAs(subs, sets, name, group)
    ensures Held(subs, sets, name)
  {
    if k :| 0 <= k < |subs| && subs[k].name == name && subs[k].group == group {
      assert Uses(subs[k], name);
    } else {
      var k, j :| 0 <= k < |sets| && 0 <= j < |sets[k].subs| && sets[k].subs[j].name == name && sets[k].subs[j].group == group;
      assert Uses(sets[k].subs[j], name);
      assert AnyUses(sets[k].subs, name);
    }
  }

  /** A channel or group nobody holds any more is left, and one still held is not,
      exactly when its name is not used for something else: names of channels, groups
      and presence channels share one set. */
  lemma LeftExactlyWithoutNameClash(sub: Subscription, subs: seq<Subscription>, sets: seq<SubscriptionSet>)
    ensures LeaveNames(sub, subs, sets, sub.group) == (if HeldAs(subs, sets, sub.name, sub.group) then [] else [sub.name])
       <==> (Held(subs, sets, sub.name) ==> HeldAs(subs, sets, sub.name, sub.group))
  {
    hide Held, HeldAs, LeaveNames;
    LeaveOfOne(sub, subs, sets, sub.group);
    if HeldAs(subs, sets, sub.name, sub.group) {
      HeldAsIsHeld(subs, sets, sub.name, sub.group);
    }
  }

  // ---------- the text of a list ----------

  predicate GoodName(name: string) {
    name != "" && ',' !in name
  }

  lemma {:induction false} CommaPast(text: string, name: string)
    requires ',' !in name
    ensures CommaAt(text + ("," + name)) == CommaAt(text)
  {
    if text == "" {
      assert text + ("," + name) == "," + name;
    } else {
      assert (text + ("," + name))[1..] == text[1..] + ("," + name);
      CommaPast(text[1..], name);
    }
  }

  lemma {:induction false} NoCommaAt(name: string)
    ensures CommaAt(name) == |name| <==> ',' !in name
  {
    if name != "" && name[0] != ',' {
      NoCommaAt(name[1..]);
      assert name == [name[0]] + name[1..];
    }
  }

  lemma NamesUnfold(list: string)
    ensures var i := CommaAt(list); Names(list) == if i == |list| then [list] else [list[..i]] + Names(list[i + 1..])
  {
    hide CommaAt;
  }

  lemma PastText(text: string, name: string, i: nat)
    requires i < |text|
    ensures var all := text + ("," + name); all[..i] == text[..i] && all[i + 1..] == text[i + 1..] + ("," + name)
  {
  }

  lemma {:induction false} NamesAppend(text: string, name: string)
    requires ',' !in name
    ensures Names(text + ("," + name)) == Names(text) + [name]
    decreases |text|
  {
    hide Names, CommaAt;
    var all := text + ("," + name);
    CommaPast(text, name);
    NamesUnfold(text);
    NamesUnfold(all);
    var i := CommaAt(text);
    if i == |text| {
      NoCommaAt(name);
      NamesUnfold(name);
      assert all[..i] == text && all[i + 1..] == name;
    } else {
      PastText(text, name, i);
      NamesAppend(text[i + 1..], name);
      assert ([text[..i]] + Names(text[i + 1..])) + [name] == [text[..i]] + (Names(text[i + 1..]) + [name]);
    }
  }

  /** Splitting the text at its commas gives back exactly the names. */
  lemma {:induction false} JoinedSplits(names: seq<string>)
    requires names != [] && forall k :: 0 <= k < |names| ==> GoodName(names[k])
    ensures Joined(names) != "" && Names(Joined(names)) == names
  {
    hide Names;
    var front, last := names[..|names| - 1], names[|names| - 1];
    assert GoodName(last);
    assert front + [last] == names;
    if front == [] {
      NoCommaAt(last);
      OneName(last);
      assert "" + "" + last == last;
    } else {
      JoinedSplits(front);
      NamesAppend(Joined(front), last);
      assert Joined(front) + "," + last == Joined(front) + ("," + last);
    }
  }

  lemma OneName(name: string)
    requires CommaAt(name) == |name|
    ensures Names(name) == [name]
  {
  }

  /** The computed size, a comma counted with every name, has room for every prefix of
      the list and the terminator. */
  lemma {:induction false} AlwaysRoom(names: seq<string>, n: nat)
    requires n <= |names|
    ensures |Joined(names[..n])| <= Lengths(names[..n]) + n && Lengths(names[..n]) + n <= Lengths(names) + |names|
  {
    if n == |names| {
      assert names[..n] == names;
    }
    if 0 < |names| {
      var front := names[..|names| - 1];
      if n < |names| {
        AlwaysRoom(front, n);
        assert front[..n] == names[..n];
      } else {
        AlwaysRoom(front, |front|);
        assert front[..|front|] == front;
      }
    }
  }

  lemma {:induction false} NothingListed(s: seq<Subscribable>)
    requires forall k :: 0 <= k < |s| ==> s[k].name != ""
    ensures Lengths(NamesOf(s, false, true)) == 0 && Lengths(NamesOf(s, true, true)) == 0 <==> s == []
  {
    if s != [] {
      var last := s[|s| - 1];
      var names := NamesOf(s[..|s| - 1], last.group, true);
      assert (names + [last.name])[..|names|] == names;
    }
  }
}
