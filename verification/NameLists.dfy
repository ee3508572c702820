/** Comma-separated lists of channel and channel-group names. */
module NameLists {
  /** Index of the first comma, or the length. */
  function CommaAt(list: string): (i: nat)
    ensures i <= |list|
    ensures i < |list| ==> list[i] == ','
    ensures forall k :: 0 <= k < i ==> list[k] != ','
  {
    if list == "" || list[0] == ',' then 0 else 1 + CommaAt(list[1..])
  }

  /** The comma-separated names, empty ones included. */
  function Names(list: string): (names: seq<string>)
    ensures names != []
    decreases |list|
  {
    var i := CommaAt(list);
    if i == |list| then [list] else [list[..i]] + Names(list[i + 1..])
  }

  function Lengths(names: seq<string>): nat {
    if names == [] then 0 else Lengths(names[..|names| - 1]) + |names[|names| - 1]|
  }

  lemma {:induction false} LengthsJoin(a: seq<string>, b: seq<string>)
    ensures Lengths(a + b) == Lengths(a) + Lengths(b)
  {
    if b == [] {
      assert a + b == a;
    } else {
      assert (a + b)[..|a + b| - 1] == a + b[..|b| - 1];
      LengthsJoin(a, b[..|b| - 1]);
    }
  }

  lemma {:induction false} NamesLengths(list: string)
    ensures |list| == Lengths(Names(list)) + |Names(list)| - 1
    decreases |list|
  {
    var i := CommaAt(list);
    if i == |list| {
      assert [list][..0] == [];
    } else {
      hide CommaAt;
      NamesLengths(list[i + 1..]);
      LengthsJoin([list[..i]], Names(list[i + 1..]));
      assert [list[..i]][..0] == [];
    }
  }
}
