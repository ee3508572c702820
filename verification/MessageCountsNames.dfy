/** When the search for the requested names stays inside the channel list. */
module MessageCountsNames {
  import opened Common
  import opened MessageCounts

  /** Commas in the longest end of the list that holds only commas and blanks. */
  function TrailingCommas(s: string): nat {
    if s == "" || s[|s| - 1] !in " ," then 0
    else TrailingCommas(s[..|s| - 1]) + if s[|s| - 1] == ',' then 1 else 0
  }

  predicate Separators(s: string) {
    forall k :: 0 <= k < |s| ==> s[k] in " ,"
  }

  /** No name starts at the terminator, from where the search would go on behind it. */
  predicate StaysInside(channel: string) {
    forall k :: 0 < k < |Starts(channel)| ==> Starts(channel)[k] < |channel|
  }

  lemma {:induction false} TrailingJoin(a: string, b: string)
    ensures TrailingCommas(a + b) == if Separators(b) then TrailingCommas(a) + TrailingCommas(b) else TrailingCommas(b)
  {
    if b == "" {
      assert a + b == a;
    } else {
      var front, last := b[..|b| - 1], b[|b| - 1];
      assert (a + b)[..|a + b| - 1] == a + front;
      TrailingJoin(a, front);
      assert b == front + [last];
      assert Separators(b) <==> Separators(front) && last in " ,";
    }
  }

  lemma {:induction false} BlanksTrail(s: string)
    requires forall k :: 0 <= k < |s| ==> s[k] == ' '
    ensures TrailingCommas(s) == 0 && Separators(s)
  {
    if s != "" {
      BlanksTrail(s[..|s| - 1]);
    }
  }

  lemma {:induction false} NoneTrail(s: string)
    requires ',' !in s
    ensures TrailingCommas(s) == 0
  {
    if s != "" {
      NoneTrail(s[..|s| - 1]);
    }
  }

  lemma {:induction false} CommaFound(t: string, p: nat)
    requires p <= |t|
    ensures var k := CommaFrom(t, p, |t|); p <= k <= |t| && ',' !in t[p..k] && (k < |t| ==> t[k] == ',')
    decreases |t| - p
  {
    if p < |t| && t[p] != ',' {
      CommaFound(t, p + 1);
      var k := CommaFrom(t, p, |t|);
      assert t[p..k] == [t[p]] + t[p + 1..k];
    }
  }

  lemma {:induction false} BlanksSkipped(t: string, p: nat)
    requires p <= |t|
    ensures var s := SkipBlanks(t, p); p <= s <= |t| && (forall k :: p <= k < s ==> t[k] == ' ') && (s < |t| ==> t[s] != ' ')
    decreases |t| - p
  {
    if p < |t| && t[p] == ' ' {
      BlanksSkipped(t, p + 1);
    }
  }

  /** The search from `p` on runs into the terminator with a comma behind it. */
  predicate Leaves(t: string, p: nat)
    decreases |t| - p
  {
    p <= |t| &&
    var k := CommaFrom(t, p, |t|);
    k < |t| && var s := SkipBlanks(t, k + 1); s == |t| || Leaves(t, s + 1)
  }

  lemma {:induction false} LeavesStarts(t: string, p: nat)
    requires p <= |t|
    ensures Leaves(t, p) <==> exists k :: 0 <= k < |StartsFrom(t, p)| && StartsFrom(t, p)[k] >= |t|
    decreases |t| - p
  {
    hide CommaFrom, SkipBlanks, StartsFrom;
    CommaFound(t, p);
    StartsUnfold(t, p);
    var k := CommaFrom(t, p, |t|);
    if k < |t| {
      var s := SkipBlanks(t, k + 1);
      var starts, rest := StartsFrom(t, p), StartsFrom(t, s + 1);
      assert starts == [s] + rest;
      if s < |t| {
        LeavesStarts(t, s + 1);
        assert forall j :: 0 <= j < |rest| ==> starts[j + 1] == rest[j];
        assert forall j :: 0 < j < |starts| ==> starts[j] == rest[j - 1];
      } else {
        NoStarts(t, s + 1);
        assert Leaves(t, p);
        assert 0 < |StartsFrom(t, p)| && StartsFrom(t, p)[0] >= |t|;
      }
    }
  }

  /** A comma with its blanks is left behind; a name or a comma behind it is passed. */
  lemma OneName(t: string, p: nat)
    requires p <= |t|
    ensures var k := CommaFrom(t, p, |t|);
      if k == |t| then TrailingCommas(t[p..]) == 0
      else
        var s := SkipBlanks(t, k + 1);
        if s == |t| then TrailingCommas(t[p..]) == 1
        else TrailingCommas(t[p..]) % 2 == TrailingCommas(t[s + 1..]) % 2
  {
    hide CommaFrom, SkipBlanks, TrailingCommas, Separators;
    CommaFound(t, p);
    var k := CommaFrom(t, p, |t|);
    NamePassed(t, p, k);
    if k < |t| {
      BlanksSkipped(t, k + 1);
      var s := SkipBlanks(t, k + 1);
      var blanks := t[k + 1..s];
      assert t[k..] == ("," + blanks) + t[s..];
      CommaTrails(blanks);
      if s == |t| {
        assert t[k..] == "," + blanks;
      } else {
        PassedBehind(blanks, t[s..]);
        assert t[s..][1..] == t[s + 1..];
      }
    }
  }

  lemma NamePassed(t: string, p: nat, k: nat)
    requires p <= k <= |t| && ',' !in t[p..k]
    ensures TrailingCommas(t[p..]) == TrailingCommas(t[k..]) && TrailingCommas("") == 0 && t[|t|..] == ""
  {
    NoneTrail(t[p..k]);
    assert t[p..] == t[p..k] + t[k..];
    TrailingJoin(t[p..k], t[k..]);
  }

  /** What stands first behind a comma and its blanks is passed, name or comma. */
  lemma PassedBehind(blanks: string, rest: string)
    requires (forall k :: 0 <= k < |blanks| ==> blanks[k] == ' ') && rest != "" && rest[0] != ' '
    ensures TrailingCommas(("," + blanks) + rest) % 2 == TrailingCommas(rest[1..]) % 2
  {
    hide TrailingCommas, Separators;
    CommaTrails(blanks);
    TrailingJoin("," + blanks, rest);
    OneTrails(rest[0]);
    assert rest == [rest[0]] + rest[1..];
    TrailingJoin([rest[0]], rest[1..]);
    SeparatorsJoin([rest[0]], rest[1..]);
  }

  lemma SeparatorsJoin(a: string, b: string)
    ensures Separators(a + b) <==> Separators(a) && Separators(b)
  {
    if Separators(a + b) {
      forall k | 0 <= k < |a| ensures a[k] in " ," { assert (a + b)[k] == a[k]; }
      forall k | 0 <= k < |b| ensures b[k] in " ," { assert (a + b)[|a| + k] == b[k]; }
    }
  }

  lemma CommaTrails(blanks: string)
    requires forall k :: 0 <= k < |blanks| ==> blanks[k] == ' '
    ensures TrailingCommas("," + blanks) == 1 && Separators("," + blanks)
  {
    BlanksTrail(blanks);
    TrailingJoin(",", blanks);
    OneTrails(',');
  }

  lemma OneTrails(c: char)
    ensures TrailingCommas([c]) == (if c == ',' then 1 else 0) && (Separators([c]) <==> c in " ,")
  {
    assert [c][..0] == "";
    assert [c][0] == c;
  }

  lemma {:induction false} LeavesOnOdd(t: string, p: nat)
    requires p <= |t|
    ensures Leaves(t, p) <==> TrailingCommas(t[p..]) % 2 == 1
    decreases |t| - p
  {
    hide CommaFrom, SkipBlanks, TrailingCommas;
    OneName(t, p);
    CommaFound(t, p);
    var k := CommaFrom(t, p, |t|);
    if k < |t| {
      var s := SkipBlanks(t, k + 1);
      if s < |t| {
        LeavesOnOdd(t, s + 1);
      }
    }
  }

  /** The search never leaves the list if and only if its trailing commas are even in
      number: behind the first of a pair the second is taken for a name. */
  lemma StaysInsideOnEven(channel: string)
    ensures StaysInside(channel) <==> TrailingCommas(channel) % 2 == 0
  {
    hide SkipBlanks, TrailingCommas, StartsFrom;
    var s := SkipBlanks(channel, 0);
    BlanksSkipped(channel, 0);
    LeavesStarts(channel, s);
    LeavesOnOdd(channel, s);
    BlanksTrail(channel[..s]);
    assert channel == channel[..s] + channel[s..];
    TrailingJoin(channel[..s], channel[s..]);
    var starts, rest := Starts(channel), StartsFrom(channel, s);
    assert starts == [s] + rest;
    assert forall j :: 0 <= j < |rest| ==> starts[j + 1] == rest[j];
    assert forall j :: 0 < j < |starts| ==> starts[j] == rest[j - 1];
  }

  /** A single trailing comma leads the search behind the terminator. */
  lemma TrailingCommaLeaves()
    ensures !StaysInside("a,") && StaysInside("a,,") && Starts("a,") == [0, 2]
  {
    assert "a,"[..1] == "a" && "a,,"[..2] == "a,";
    assert TrailingCommas("a") == 0;
    assert TrailingCommas("a,") == 1;
    assert TrailingCommas("a,,") == 2;
    StaysInsideOnEven("a,");
    StaysInsideOnEven("a,,");
    StartsUnfold("a,", 0);
    NoStarts("a,", 3);
  }
}
