/** The presence state sent with a subscribe call: one JSON object that repeats the
    same state under every channel and group name, built in a buffer whose size is
    computed beforehand. */
module PresenceState {
  import opened Common
  import opened NameLists

  // ---------- names ----------

  /** The names that are walked: a channel list starting with a comma is skipped. */
  function Walked(channel: Option<string>, group: Option<string>): seq<string> {
    (if channel.Some? && (channel.value == "" || channel.value[0] != ',') then Names(channel.value) else []) +
    (if group.Some? then Names(group.value) else [])
  }

  function NonEmptyNames(names: seq<string>): seq<string> {
    if names == [] then []
    else
      var last := names[|names| - 1];
      NonEmptyNames(names[..|names| - 1]) + (if last == "" then [] else [last])
  }

  // ---------- what should be built ----------

  function Pair(name: string, state: string): string {
    "\"" + name + "\":" + state
  }

  function Pairs(names: seq<string>, state: string): string {
    if names == [] then ""
    else if |names| == 1 then Pair(names[0], state)
    else Pairs(names[..|names| - 1], state) + "," + Pair(names[|names| - 1], state)
  }

  /** `{"n1":S,...,"nk":S}` over the non-empty names. */
  function Object(names: seq<string>, state: string): string {
    "{" + Pairs(NonEmptyNames(names), state) + "}"
  }

  // ---------- what is built ----------

  predicate EndsInComma(text: string) {
    text != "" && text[|text| - 1] == ','
  }

  /** The text after `n` names: a comma before every name but the first, unless one
      is there already; nothing for an empty name. */
  function Built(names: seq<string>, n: nat, state: string): (text: string)
    requires n <= |names|
    ensures |text| > 0 && text[0] == '{'
  {
    if n == 0 then "{"
    else
      var before := Built(names, n - 1, state);
      var separated := if n > 1 && !EndsInComma(before) then before + "," else before;
      if names[n - 1] == "" then separated else separated + Pair(names[n - 1], state)
  }

  function Closed(text: string): string {
    (if EndsInComma(text) then text[..|text| - 1] else text) + "}"
  }

  function Result(names: seq<string>, state: string): string {
    Closed(Built(names, |names|, state))
  }

  /** An empty first name with a name behind it costs a comma right after the brace. */
  predicate LeadingComma(names: seq<string>) {
    names != [] && names[0] == "" && NonEmptyNames(names) != []
  }

  lemma PairEnds(name: string, state: string)
    ensures !EndsInComma(Pair(name, state)) <==> !EndsInComma(state)
    ensures |Pair(name, state)| == |name| + 3 + |state|
  {
  }

  lemma AfterPair(text: string, name: string, state: string)
    ensures EndsInComma(text + Pair(name, state)) <==> EndsInComma(state)
  {
    PairEnds(name, state);
    var pair := Pair(name, state);
    assert (text + pair)[|text + pair| - 1] == pair[|pair| - 1];
  }

  /** Names in front of the n-th, without the empty ones. */
  function Kept(names: seq<string>, n: nat): seq<string>
    requires n <= |names|
  {
    NonEmptyNames(names[..n])
  }

  lemma KeptNext(names: seq<string>, n: nat)
    requires n < |names|
    ensures Kept(names, n + 1) == Kept(names, n) + (if names[n] == "" then [] else [names[n]])
  {
    assert names[..n + 1][..n] == names[..n];
  }

  lemma PairsNext(names: seq<string>, name: string, state: string)
    ensures Pairs(names + [name], state) == if names == [] then Pair(name, state) else Pairs(names, state) + "," + Pair(name, state)
  {
    assert (names + [name])[..|names|] == names;
  }

  /** A comma stands at the end between names, and none after a name. */
  function Tail(names: seq<string>, n: nat): string
    requires 0 < n <= |names|
  {
    if Kept(names, n) != [] && names[n - 1] == "" then "," else ""
  }

  function Front(names: seq<string>): string {
    if names != [] && names[0] == "" then "," else ""
  }

  /** What `Built` is proved to be. */
  function Shape(names: seq<string>, n: nat, state: string): string
    requires 0 < n <= |names|
  {
    if Kept(names, n) == [] then (if n == 1 then "{" else "{,")
    else "{" + Front(names) + Pairs(Kept(names, n), state) + Tail(names, n)
  }

  lemma ShapeFirst(names: seq<string>, state: string)
    requires names != []
    ensures Built(names, 1, state) == Shape(names, 1, state)
  {
    hide Pair;
    KeptNext(names, 0);
    assert names[..0] == [];
  }

  /** Nothing but empty names so far: a comma is due before whatever comes. */
  lemma ShapeAfterEmpty(names: seq<string>, n: nat, state: string)
    requires 1 < n <= |names| && Kept(names, n - 1) == []
    requires Built(names, n - 1, state) == Shape(names, n - 1, state)
    ensures Built(names, n, state) == Shape(names, n, state)
  {
    hide Pair, NonEmptyNames;
    KeptNext(names, n - 1);
    FirstEmpty(names, n - 1);
    var name := names[n - 1];
    if name != "" {
      assert Kept(names, n) == [name];
      assert "{" + "," == "{,";
      assert "{," + Pair(name, state) + "" == "{," + Pair(name, state);
    }
  }

  lemma Separated(front: string, pairs: string, tail: string)
    requires pairs != "" && !EndsInComma(pairs) && (tail == "" || tail == ",")
    ensures var before := front + pairs + tail;
      (if EndsInComma(before) then before else before + ",") == front + pairs + ","
  {
    TextEnds(front, pairs, tail);
    assert front + pairs + "" == front + pairs;
  }

  lemma Rejoined(front: string, pairs: string, pair: string)
    ensures (front + pairs + ",") + pair == front + (pairs + "," + pair) + ""
  {
  }

  lemma ShapeAfterPair(names: seq<string>, n: nat, state: string)
    requires 1 < n <= |names| && Kept(names, n - 1) != [] && !EndsInComma(state)
    requires Built(names, n - 1, state) == Shape(names, n - 1, state)
    ensures Built(names, n, state) == Shape(names, n, state)
  {
    hide Pair, Pairs, Kept, EndsInComma, Front;
    KeptNext(names, n - 1);
    var kept, name := Kept(names, n - 1), names[n - 1];
    var front, pairs := "{" + Front(names), Pairs(kept, state);
    PairsEnd(kept, state);
    Separated(front, pairs, Tail(names, n - 1));
    if name != "" {
      PairsNext(kept, name, state);
      Rejoined(front, pairs, Pair(name, state));
    } else {
      assert kept + [] == kept;
    }
  }

  lemma {:induction false} BuiltIs(names: seq<string>, n: nat, state: string)
    requires 0 < n <= |names| && !EndsInComma(state)
    ensures Built(names, n, state) == Shape(names, n, state)
  {
    hide Built, Shape, Kept;
    if n == 1 {
      ShapeFirst(names, state);
    } else {
      BuiltIs(names, n - 1, state);
      if Kept(names, n - 1) == [] {
        ShapeAfterEmpty(names, n, state);
      } else {
        ShapeAfterPair(names, n, state);
      }
    }
  }

  lemma {:induction false} FirstEmpty(names: seq<string>, n: nat)
    requires 0 < n <= |names| && Kept(names, n) == []
    ensures names[0] == ""
  {
    KeptNext(names, n - 1);
    if n > 1 {
      FirstEmpty(names, n - 1);
    }
  }

  lemma {:induction false} PairsEnd(names: seq<string>, state: string)
    requires names != [] && !EndsInComma(state)
    ensures Pairs(names, state) != "" && !EndsInComma(Pairs(names, state))
  {
    PairEnds(names[|names| - 1], state);
    if |names| > 1 {
      AfterPair(Pairs(names[..|names| - 1], state) + ",", names[|names| - 1], state);
    }
  }

  lemma TextEnds(front: string, pairs: string, tail: string)
    requires pairs != "" && !EndsInComma(pairs) && (tail == "" || tail == ",")
    ensures EndsInComma(front + pairs + tail) <==> tail == ","
  {
    var text := front + pairs + tail;
    if tail == "" {
      assert text == front + pairs;
      assert text[|text| - 1] == pairs[|pairs| - 1];
    } else {
      assert text[|text| - 1] == ',';
    }
  }

  /** For a state that does not end in a comma the result is the object, with one
      leading comma exactly when the first name is empty and another is not. */
  lemma ResultIs(names: seq<string>, state: string)
    requires !EndsInComma(state)
    ensures Result(names, state) ==
      "{" + (if LeadingComma(names) then "," else "") + Pairs(NonEmptyNames(names), state) + "}"
  {
    var n := |names|;
    assert names[..n] == names;
    if n > 0 {
      BuiltIs(names, n, state);
      var kept := NonEmptyNames(names);
      if kept != [] {
        PairsEnd(kept, state);
        var text := "{" + Front(names) + Pairs(kept, state);
        TextEnds("{" + Front(names), Pairs(kept, state), Tail(names, n));
        assert Tail(names, n) == "," ==> (text + ",")[..|text + ","| - 1] == text;
        assert text + "" == text;
      }
    }
  }

  // ---------- lengths ----------

  lemma {:induction false} KeptLengths(names: seq<string>)
    ensures Lengths(NonEmptyNames(names)) == Lengths(names)
    ensures |NonEmptyNames(names)| <= |names|
    ensures LeadingComma(names) ==> |NonEmptyNames(names)| < |names|
  {
    if names != [] {
      var before, last := names[..|names| - 1], names[|names| - 1];
      KeptLengths(before);
      var kept := NonEmptyNames(before);
      assert (kept + [last])[..|kept|] == kept;
      assert kept + [] == kept;
      if before != [] {
        assert before[0] == names[0];
      }
    }
  }

  lemma {:induction false} PairsLength(names: seq<string>, state: string)
    ensures |Pairs(names, state)| == Lengths(names) + |names| * (3 + |state|) + (if names == [] then 0 else |names| - 1)
  {
    if names != [] {
      var n := |names|;
      PairsLength(names[..n - 1], state);
      PairEnds(names[n - 1], state);
      assert n * (3 + |state|) == (n - 1) * (3 + |state|) + 3 + |state|;
      if n == 1 {
        assert names[..0] == [];
      }
    }
  }

  /** A state that ends in a comma separates the pairs itself. */
  lemma {:induction false} EndsOnCommas(names: seq<string>, n: nat, state: string)
    requires 0 < n <= |names| && EndsInComma(state)
    ensures EndsInComma(Built(names, n, state)) <==> n > 1 || names[0] != ""
  {
    hide Pair;
    var before := Built(names, n - 1, state);
    AfterPair(before, names[n - 1], state);
    AfterPair(before + ",", names[n - 1], state);
    if n > 1 {
      EndsOnCommas(names, n - 1, state);
    }
  }

  lemma BuiltNext(names: seq<string>, n: nat, state: string)
    requires 0 < n <= |names| && EndsInComma(state)
    ensures var before, text := Built(names, n - 1, state), Built(names, n, state);
      |text| == |before| + (if n == 2 && names[0] == "" then 1 else 0) + (if names[n - 1] == "" then 0 else |names[n - 1]| + 3 + |state|) &&
      (n > 2 ==> text[..2] == before[..2])
  {
    hide Pair, EndsInComma;
    PairEnds(names[n - 1], state);
    if n > 1 {
      EndsOnCommas(names, n - 1, state);
      if n > 2 {
        EndsOnCommas(names, n - 2, state);
        LongEnough(names, n - 1, state);
      }
    }
  }

  lemma LongEnough(names: seq<string>, n: nat, state: string)
    requires 1 < n <= |names| && EndsInComma(state)
    ensures |Built(names, n, state)| >= 2
  {
    hide Built;
    EndsOnCommas(names, n, state);
    var text := Built(names, n, state);
    assert text[0] == '{' && text[|text| - 1] == ',';
  }

  lemma KeptWeight(names: seq<string>, n: nat, m: nat)
    requires 0 < n <= |names|
    ensures Lengths(Kept(names, n)) + |Kept(names, n)| * m ==
      Lengths(Kept(names, n - 1)) + |Kept(names, n - 1)| * m + (if names[n - 1] == "" then 0 else |names[n - 1]| + m)
  {
    hide Kept;
    KeptNext(names, n - 1);
    var kept, name := Kept(names, n - 1), names[n - 1];
    assert kept + [] == kept;
    assert (kept + [name])[..|kept|] == kept;
    assert (|kept| + 1) * m == |kept| * m + m;
  }

  lemma {:induction false} LengthOnCommas(names: seq<string>, n: nat, state: string)
    requires 0 < n <= |names| && EndsInComma(state)
    ensures var kept := Kept(names, n);
      |Built(names, n, state)| == 1 + (if names[0] == "" && n > 1 then 1 else 0) + (Lengths(kept) + |kept| * (3 + |state|))
  {
    hide Built, Pair, EndsInComma, Kept, Lengths;
    BuiltNext(names, n, state);
    KeptWeight(names, n, 3 + |state|);
    if n == 1 {
      JustBrace(names, state);
    } else {
      LengthOnCommas(names, n - 1, state);
    }
  }

  lemma JustBrace(names: seq<string>, state: string)
    ensures Built(names, 0, state) == "{" && Kept(names, 0) == [] && Lengths([]) == 0
  {
  }

  /** A comma right after the brace when the first name is empty. */
  lemma {:induction false} LeadOnCommas(names: seq<string>, n: nat, state: string)
    requires 1 < n <= |names| && EndsInComma(state) && names[0] == ""
    ensures |Built(names, n, state)| >= 2 && Built(names, n, state)[1] == ','
  {
    hide Pair, EndsInComma;
    LongEnough(names, n, state);
    if n == 2 {
      EndsOnCommas(names, 1, state);
    } else {
      LeadOnCommas(names, n - 1, state);
      BuiltNext(names, n, state);
      assert Built(names, n, state)[1] == Built(names, n, state)[..2][1];
      assert Built(names, n - 1, state)[1] == Built(names, n - 1, state)[..2][1];
    }
  }

  lemma PairStarts(name: string, state: string)
    ensures Pair(name, state) != "" && Pair(name, state)[0] == '"'
  {
  }

  lemma ResultLength(names: seq<string>, state: string)
    ensures var kept := NonEmptyNames(names);
      |Result(names, state)| == 2 + (if LeadingComma(names) then 1 else 0) + Lengths(names) + |kept| * (3 + |state|) +
        (if kept == [] then 0 else if EndsInComma(state) then -1 else |kept| - 1)
  {
    hide Built, Pairs;
    var kept := NonEmptyNames(names);
    KeptLengths(names);
    if !EndsInComma(state) {
      ResultIs(names, state);
      PairsLength(kept, state);
    } else if names == [] {
      NothingBuilt(names, state);
    } else {
      assert names[..|names|] == names;
      LengthOnCommas(names, |names|, state);
      EndsOnCommas(names, |names|, state);
      if kept == [] {
        FirstEmpty(names, |names|);
      }
      if |names| == 1 {
        assert names == [names[0]];
      }
    }
  }

  lemma NothingBuilt(names: seq<string>, state: string)
    requires names == []
    ensures Result(names, state) == "{}"
  {
  }

  // ---------- the result is the object ----------

  /** Over the names walked: the text is the object exactly when none is non-empty,
      or the first name is not empty and the state does not end in a comma. */
  lemma WalkBuildsObject(names: seq<string>, state: string)
    ensures Result(names, state) == Object(names, state) <==>
      NonEmptyNames(names) == [] || (names[0] != "" && !EndsInComma(state))
  {
    hide Result, Pairs, Built;
    var kept := NonEmptyNames(names);
    ResultLength(names, state);
    PairsLength(kept, state);
    KeptLengths(names);
    if !EndsInComma(state) {
      ResultIs(names, state);
    } else if kept != [] {
      if names[0] == "" { SecondOnCommas(names, state); }
      PairsStart(kept, state);
    }
    if names == [] {
      NothingBuilt(names, state);
    }
    if kept == [] && names != [] && EndsInComma(state) {
      NothingKept(names, state);
    }
  }

  lemma {:induction false} PairsStart(names: seq<string>, state: string)
    requires names != []
    ensures Pairs(names, state) != "" && Pairs(names, state)[0] == '"'
  {
    PairStarts(names[0], state);
    if |names| > 1 {
      PairsStart(names[..|names| - 1], state);
    }
  }

  lemma SecondOnCommas(names: seq<string>, state: string)
    requires NonEmptyNames(names) != [] && EndsInComma(state) && names[0] == ""
    ensures |Result(names, state)| > 1 && Result(names, state)[1] == ','
  {
    hide Built, Lengths, NonEmptyNames;
    SingleEmpty(names);
    ResultLength(names, state);
    TooShort(0, |NonEmptyNames(names)|, 3 + |state|);
    LeadOnCommas(names, |names|, state);
    EndsOnCommas(names, |names|, state);
  }

  lemma SingleEmpty(names: seq<string>)
    requires NonEmptyNames(names) != [] && names[0] == ""
    ensures |names| > 1
  {
    assert names[..1] == [names[0]];
    assert names[..|names|] == names;
  }

  lemma NothingKept(names: seq<string>, state: string)
    requires names != [] && NonEmptyNames(names) == [] && EndsInComma(state)
    ensures Result(names, state) == "{}"
  {
    hide Built;
    assert names[..|names|] == names;
    LengthOnCommas(names, |names|, state);
    FirstEmpty(names, |names|);
    EndsOnCommas(names, |names|, state);
    var text := Built(names, |names|, state);
    if |names| == 1 {
      assert |text| == 1 && text == "{";
    } else {
      assert |text| == 2 && text == "{,";
    }
  }

  // ---------- the object over the arguments ----------

  function NamesIn(list: Option<string>): seq<string> {
    if list.Some? then Names(list.value) else []
  }

  /** All names given, channels first. */
  function Given(channel: Option<string>, group: Option<string>): seq<string> {
    NamesIn(channel) + NamesIn(group)
  }

  predicate StartsEmpty(list: string) {
    list == "" || list[0] == ','
  }

  /** The channel list is passed over because it starts with a comma. */
  predicate Skipped(channel: Option<string>) {
    channel.Some? && channel.value != "" && channel.value[0] == ','
  }

  function FirstWalked(channel: Option<string>, group: Option<string>): string {
    if channel.Some? && !Skipped(channel) then channel.value else if group.Some? then group.value else ""
  }

  /** The text is the object over all names given if and only if there are none, or no
      channel is passed over, the first list walked does not start with an empty name,
      and the state does not end in a comma. */
  lemma BuildsObject(channel: Option<string>, group: Option<string>, state: string)
    ensures Result(Walked(channel, group), state) == Object(Given(channel, group), state) <==>
      NonEmptyNames(Given(channel, group)) == [] ||
      (!(Skipped(channel) && NonEmptyNames(NamesIn(channel)) != []) &&
       !StartsEmpty(FirstWalked(channel, group)) && !EndsInComma(state))
  {
    hide Result, Object, Names, NonEmptyNames, EndsInComma, StartsEmpty;
    var names := Walked(channel, group);
    KeptJoin(NamesIn(channel), NamesIn(group));
    if Skipped(channel) && NonEmptyNames(NamesIn(channel)) != [] {
      assert [] + NamesIn(group) == NamesIn(group);
      LosesChannels(NamesIn(channel), NamesIn(group), state);
    } else {
      assert NonEmptyNames(names) == NonEmptyNames(Given(channel, group)) by {
        assert [] + NonEmptyNames(NamesIn(group)) == NonEmptyNames(NamesIn(group));
        assert [] + NamesIn(group) == NamesIn(group);
      }
      WalkBuildsObject(names, state);
      SameObject(names, Given(channel, group), state);
      FirstNameWalked(channel, group);
      NothingKeptOf(names);
    }
  }

  lemma NothingKeptOf(names: seq<string>)
    ensures NonEmptyNames(names) != [] ==> names != []
  {
  }

  lemma SameObject(a: seq<string>, b: seq<string>, state: string)
    requires NonEmptyNames(a) == NonEmptyNames(b)
    ensures Object(a, state) == Object(b, state)
  {
  }

  lemma {:induction false} KeptJoin(a: seq<string>, b: seq<string>)
    ensures NonEmptyNames(a + b) == NonEmptyNames(a) + NonEmptyNames(b)
  {
    if b == [] {
      assert a + b == a;
    } else {
      var front, last := b[..|b| - 1], b[|b| - 1];
      assert (a + b)[..|a + b| - 1] == a + front;
      KeptJoin(a, front);
    }
  }

  lemma FirstNameOf(list: string)
    ensures Names(list)[0] == "" <==> StartsEmpty(list)
  {
  }

  lemma FirstNameWalked(channel: Option<string>, group: Option<string>)
    ensures Walked(channel, group) != [] ==>
      (Walked(channel, group)[0] == "" <==> StartsEmpty(FirstWalked(channel, group)))
  {
    hide Names, StartsEmpty;
    if channel.Some? { FirstNameOf(channel.value); }
    if group.Some? { FirstNameOf(group.value); }
  }

  /** Without the channels the text is too short. */
  lemma LosesChannels(channels: seq<string>, groups: seq<string>, state: string)
    requires NonEmptyNames(channels) != []
    ensures Result(groups, state) != Object(channels + groups, state)
  {
    hide Result, Pairs, Built, NonEmptyNames, Lengths, EndsInComma;
    var lost, kept, all := NonEmptyNames(channels), NonEmptyNames(groups), NonEmptyNames(channels + groups);
    KeptJoin(channels, groups);
    ResultLength(groups, state);
    PairsLength(all, state);
    KeptLengths(groups);
    KeptLengths(channels + groups);
    LengthsJoin(channels, groups);
    ObjectLength(channels + groups, state);
    TooShort(|kept|, |lost|, 3 + |state|);
  }

  lemma TooShort(kept: nat, lost: nat, m: nat)
    requires lost > 0 && m >= 3
    ensures (kept + lost) * m >= kept * m + 3
  {
    assert (kept + lost) * m == kept * m + lost * m;
    assert lost * m >= m;
  }

  lemma ObjectLength(names: seq<string>, state: string)
    ensures |Object(names, state)| == 2 + |Pairs(NonEmptyNames(names), state)|
  {
  }

  /** A channel is lost behind a leading comma. */
  lemma LeadingCommaLosesChannel(state: string)
    ensures Result(Walked(Some(",a"), None), state) == "{}" != Object(Given(Some(",a"), None), state)
  {
    NothingBuilt([], state);
    assert Walked(Some(",a"), None) == [];
    assert ",a"[..0] == "" && ",a"[1..] == "a";
    assert NamesIn(Some(",a")) == ["", "a"];
    assert ["", "a"][..1] == [""] && [""][..0] == [];
    assert NonEmptyNames(["", "a"]) == ["a"];
    LosesChannels(["", "a"], [], state);
    assert ["", "a"] + [] == ["", "a"];
  }

  // ---------- the buffer is large enough ----------

  function Total(list: Option<string>): nat {
    if list.Some? then |Names(list.value)| else 0
  }

  /** Names, two quotes and a colon each, and the commas counted twice. */
  function KeysLength(list: Option<string>): nat {
    if list.Some? then |list.value| + Total(list) * 3 + (Total(list) - 1) else 0
  }

  function BufferSize(channel: Option<string>, group: Option<string>, state: string): nat {
    (Total(channel) + Total(group)) * |state| + KeysLength(channel) + KeysLength(group) + 2 + 1
  }

  /** One channel, one group, neither name empty: the comma between them is not
      counted. */
  predicate Tight(channel: Option<string>, group: Option<string>, state: string) {
    channel.Some? && group.Some? && channel.value != "" && group.value != "" &&
    Total(channel) == 1 && Total(group) == 1 && !EndsInComma(state)
  }

  /** Lists, names, kept names, their lengths and the state's length. */
  lemma RoomLeft(lists: nat, total: nat, kept: nat, s: nat, all: nat, walked: nat, lead: nat, ends: int)
    requires lists <= total && lists <= 2 && kept <= total && walked <= all && lead <= 1 && (lead == 1 ==> 0 < kept < total)
    requires (ends == 0 && kept == 0) || (kept > 0 && (ends == -1 || ends == kept - 1))
    requires kept == total ==> walked == all
    ensures 3 + lead + walked + kept * (3 + s) + ends <= total * s + all + 3 * total + 2 * (total - lists) + 3
       <==> !(kept == total == 2 && lists == 2 && ends == 1)
    ensures 2 + lead + walked + kept * (3 + s) + ends <= total * s + all + 3 * total + 2 * (total - lists) + 3
  {
    assert total * s + 3 * total == kept * (3 + s) + (total - kept) * (3 + s);
    if kept < total {
      assert (total - kept) * (3 + s) >= 3;
    }
  }

  /** The text and its terminator fit the computed size in all cases but one; then
      only the terminator does not. */
  lemma FitsUnlessTight(channel: Option<string>, group: Option<string>, state: string)
    ensures |Result(Walked(channel, group), state)| + 1 <= BufferSize(channel, group, state)
       <==> !Tight(channel, group, state)
    ensures |Result(Walked(channel, group), state)| <= BufferSize(channel, group, state)
  {
    hide Result, Names, Walked, NonEmptyNames, Lengths, EndsInComma;
    var names := Walked(channel, group);
    ResultLength(names, state);
    KeptLengths(names);
    NothingKeptIsShort(NonEmptyNames(names));
    var all := (if channel.Some? then Lengths(Names(channel.value)) else 0) + (if group.Some? then Lengths(Names(group.value)) else 0);
    if channel.Some? { NamesLengths(channel.value); }
    if group.Some? { NamesLengths(group.value); }
    WalkedCounts(channel, group);
    var kept := NonEmptyNames(names);
    RoomLeft((if channel.Some? then 1 else 0) + (if group.Some? then 1 else 0), Total(channel) + Total(group), |kept|, |state|,
             all, Lengths(names), if LeadingComma(names) then 1 else 0,
             if kept == [] then 0 else if EndsInComma(state) then -1 else |kept| - 1);
  }

  lemma NothingKeptIsShort(kept: seq<string>)
    ensures kept == [] <==> |kept| == 0
  {
  }

  lemma {:induction false} AllKept(names: seq<string>)
    ensures |NonEmptyNames(names)| == |names| <==> "" !in names
  {
    if names != [] {
      KeptLengths(names[..|names| - 1]);
      AllKept(names[..|names| - 1]);
      assert names == names[..|names| - 1] + [names[|names| - 1]];
    }
  }

  lemma SingleName(list: string)
    requires |Names(list)| == 1
    ensures Names(list) == [list]
  {
  }

  lemma ManyNames(list: string)
    requires list != "" && list[0] == ','
    ensures |Names(list)| > 1
  {
  }

  lemma WalkedCounts(channel: Option<string>, group: Option<string>)
    ensures var names := Walked(channel, group);
      var all := (if channel.Some? then Lengths(Names(channel.value)) else 0) + (if group.Some? then Lengths(Names(group.value)) else 0);
      |names| <= Total(channel) + Total(group) && Lengths(names) <= all &&
      (|names| == Total(channel) + Total(group) ==> Lengths(names) == all)
    ensures |NonEmptyNames(Walked(channel, group))| == Total(channel) + Total(group) == 2 && channel.Some? && group.Some? <==>
      channel.Some? && group.Some? && channel.value != "" && group.value != "" && Total(channel) == 1 && Total(group) == 1
  {
    hide Names, NonEmptyNames, Lengths;
    NoNames();
    LengthsJoin(if Skipped(channel) then [] else NamesIn(channel), NamesIn(group));
    AllKept(Walked(channel, group));
    KeptLengths(Walked(channel, group));
    if Skipped(channel) {
      ManyNames(channel.value);
    }
    if channel.Some? && group.Some? && Total(channel) == 1 && Total(group) == 1 {
      SingleName(channel.value);
      SingleName(group.value);
      assert Walked(channel, group) == [channel.value, group.value];
    }
  }

  lemma NoNames()
    ensures Lengths([]) == 0
  {
  }

  /** One channel and one group: the terminator falls behind the buffer. */
  lemma OneByteShort(state: string)
    requires !EndsInComma(state)
    ensures |Result(Walked(Some("a"), Some("g")), state)| == BufferSize(Some("a"), Some("g"), state)
  {
    hide Result;
    assert Names("a") == ["a"] && Names("g") == ["g"];
    FitsUnlessTight(Some("a"), Some("g"), state);
  }
}
