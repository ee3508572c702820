/** The counters after a well-formed reply, and exactly when they are what the
    interface promises. */
module MessageCountsTheorems {
  import opened Common
  import opened MessageCounts
  import opened MessageCountsFacts

  /** The count the reply gives for a channel. */
  function CountFor(entries: seq<Entry>, name: string): (count: Option<nat>)
    requires GoodEntries(entries)
  {
    if entries == [] then None
    else
      var last := entries[|entries| - 1];
      if last.name == name then Some(last.count) else CountFor(entries[..|entries| - 1], name)
  }

  predicate IsRequested(list: seq<Requested>, name: string) {
    exists k :: 0 <= k < |list| && list[k].name == name
  }

  predicate DistinctRequests(list: seq<Requested>) {
    forall j, k :: 0 <= j < k < |list| ==> list[j].name != list[k].name
  }

  predicate DistinctEntries(entries: seq<Entry>) {
    forall j, k :: 0 <= j < k < |entries| ==> entries[j].name != entries[k].name
  }

  predicate HasStray(list: seq<Requested>, entries: seq<Entry>) {
    exists j :: 0 <= j < |entries| && !IsRequested(list, entries[j].name)
  }

  /** A counter holds the count, or the place of its name while there is none. */
  predicate CellIs(channel: string, list: seq<Requested>, seen: seq<Entry>, k: nat, cell: int)
    requires k < |list| && GoodEntries(seen)
  {
    match CountFor(seen, list[k].name)
    case Some(v) => cell == v
    case None => |Starts(channel)| == |list| && cell == Encode(Starts(channel)[k])
  }

  ghost predicate Holds(channel: string, list: seq<Requested>, seen: seq<Entry>, tally: Tally) {
    GoodEntries(seen) && |tally.cells| == |list| && tally.counts == |seen| && (tally.stray.Some? <==> HasStray(list, seen)) &&
    forall k :: 0 <= k < |list| ==> CellIs(channel, list, seen, k, tally.cells[k])
  }

  lemma {:induction false} NotSeen(entries: seq<Entry>, name: string)
    requires GoodEntries(entries)
    ensures CountFor(entries, name) == None <==> forall j :: 0 <= j < |entries| ==> entries[j].name != name
  {
    if entries != [] {
      var last := |entries| - 1;
      NotSeen(entries[..last], name);
      assert forall j :: 0 <= j < last ==> entries[..last][j] == entries[j];
    }
  }

  lemma CountNext(seen: seq<Entry>, e: Entry, name: string)
    requires GoodEntries(seen) && GoodEntry(e)
    ensures GoodEntries(seen + [e]) && CountFor(seen + [e], name) == if e.name == name then Some(e.count) else CountFor(seen, name)
  {
    hide GoodEntry;
    assert (seen + [e])[..|seen|] == seen;
  }

  lemma StrayNext(list: seq<Requested>, seen: seq<Entry>, e: Entry)
    ensures HasStray(list, seen + [e]) <==> HasStray(list, seen) || !IsRequested(list, e.name)
  {
    hide IsRequested;
    var all := seen + [e];
    assert all[|seen|] == e;
    assert forall j :: 0 <= j < |seen| ==> all[j] == seen[j];
  }

  /** Only the counter of the same name answers to a new entry. */
  lemma FirstMatchIs(channel: string, list: seq<Requested>, seen: seq<Entry>, tally: Tally, name: string)
    requires RequestsAt(channel, 0, list) && GoodRequests(list) && DistinctRequests(list) && Plain(name)
    requires Holds(channel, list, seen, tally) && CountFor(seen, name) == None
    ensures var i := FirstMatch(channel, tally.cells, name);
      (i < |list| <==> IsRequested(list, name)) && (i < |list| ==> list[i].name == name)
  {
    hide RequestsAt, GoodRequests, Matches, Plain, Starts, CountFor, GoodEntries, HasStray;
    var i := FirstMatch(channel, tally.cells, name);
    forall k | 0 <= k < |list| ensures Matches(channel, tally.cells[k], name) <==> list[k].name == name {
      OffsetsDecode(channel, list, k, name);
      CellAnswers(channel, list, seen, k, tally.cells[k], name);
    }
  }

  lemma CellAnswers(channel: string, list: seq<Requested>, seen: seq<Entry>, k: nat, cell: int, name: string)
    requires k < |list| && GoodEntries(seen) && CellIs(channel, list, seen, k, cell)
    requires |Starts(channel)| == |list|
    requires CountFor(seen, name) == None
    requires Matches(channel, EncodeAll(Starts(channel))[k], name) <==> name == list[k].name
    ensures Matches(channel, cell, name) <==> list[k].name == name
  {
    hide Starts, CountFor, NameAt;
  }

  lemma StoreHolds(channel: string, list: seq<Requested>, seen: seq<Entry>, tally: Tally, e: Entry)
    requires RequestsAt(channel, 0, list) && GoodRequests(list) && DistinctRequests(list)
    requires Holds(channel, list, seen, tally) && GoodEntry(e) && CountFor(seen, e.name) == None
    ensures Holds(channel, list, seen + [e], Store(channel, e.name, e.count, tally))
  {
    hide RequestsAt, GoodRequests, Matches, Starts, CountFor, GoodEntries, HasStray, FirstMatch, Encode;
    CountNext(seen, e, e.name);
    StrayNext(list, seen, e);
    FirstMatchIs(channel, list, seen, tally, e.name);
    var after := Store(channel, e.name, e.count, tally);
    forall k | 0 <= k < |list| ensures CellIs(channel, list, seen + [e], k, after.cells[k]) {
      CountNext(seen, e, list[k].name);
    }
  }

  function Least(a: nat, b: nat): nat { if a < b then a else b }

  /** The loop reads as many entries as there are counters. */
  lemma {:induction false} FillHolds(channel: string, list: seq<Requested>, t: string, p: nat, end: nat,
                                     seen: seq<Entry>, rest: seq<Entry>, tally: Tally)
    requires RequestsAt(channel, 0, list) && GoodRequests(list) && DistinctRequests(list)
    requires rest != [] && GoodEntries(rest) && EntriesAt(t, p, end, rest)
    requires Holds(channel, list, seen, tally) && |seen| <= |list|
    requires DistinctEntries(seen + rest)
    ensures Holds(channel, list, (seen + rest)[..Least(|list|, |seen + rest|)], Fill(channel, t, SkipWhitespace(t, p, end), end, tally))
    decreases rest
  {
    hide RequestsAt, GoodRequests, DistinctRequests, Holds, Key, ColonAt, CountAt, EntryEnd, Store, SkipWhitespace, White, ClosedBody, Plain, EntryHere, CountFor;
    var all, e := seen + rest, rest[0];
    assert |tally.cells| == |list| && tally.counts == |seen| && GoodEntries(seen) by { HoldsCounts(channel, list, seen, tally); }
    if |seen| == |list| {
      assert all[..|list|] == seen;
    } else {
      EntryRead(t, p, end, rest);
      NotSeen(seen, e.name);
      assert all[|seen|] == e;
      assert forall j :: 0 <= j < |seen| ==> all[j] == seen[j];
      StoreHolds(channel, list, seen, tally, e);
      var after := Store(channel, e.name, e.count, tally);
      assert all == (seen + [e]) + rest[1..];
      if |rest| == 1 {
        assert all == seen + [e] && all[..|all|] == all;
      } else {
        FillHolds(channel, list, t, EndOf(e, p) + 1, end, seen + [e], rest[1..], after);
      }
    }
  }

  lemma HoldsCounts(channel: string, list: seq<Requested>, seen: seq<Entry>, tally: Tally)
    requires Holds(channel, list, seen, tally)
    ensures |tally.cells| == |list| && tally.counts == |seen| && GoodEntries(seen)
  {
  }

  lemma EntryRead(t: string, p: nat, end: nat, rest: seq<Entry>)
    requires rest != [] && GoodEntry(rest[0]) && EntriesAt(t, p, end, rest)
    ensures var e := rest[0]; var s := SkipWhitespace(t, p, end);
      s < end && Key(t, s, end) == e.name && CountAt(t, ColonAt(t, s, end)) == Some(e.count) &&
      EntryEnd(t, ColonAt(t, s, end), end) == (if |rest| == 1 then end else EndOf(e, p)) && (|rest| > 1 ==> EndOf(e, p) < end)
  {
    hide Key, ColonAt, CountAt, EntryEnd, SkipWhitespace, GoodEntry, EntryHere;
    var e := rest[0];
    QuoteFound(t, p, end, e);
    KeyRead(t, p, end, e);
    ColonFound(t, p, end, e);
    CountRead(t, p, end, e);
    CommaRead(t, p, end, e);
  }

  /** The entries the call reads. */
  function Taken(list: seq<Requested>, entries: seq<Entry>): (taken: seq<Entry>)
    ensures |taken| <= |list| && |taken| <= |entries| && taken == entries[..|taken|]
  {
    entries[..Least(|list|, |entries|)]
  }

  /** Whatever the order of the reply, each counter ends as the count of its own
      channel among the entries read, or stays the place of its name. */
  lemma CountsLand(channel: string, list: seq<Requested>, reply: string, ofs: nat, close: nat, entries: seq<Entry>)
    requires RequestsAt(channel, 0, list) && GoodRequests(list) && DistinctRequests(list)
    requires close < |reply| && EntriesAt(reply, ofs, close + 1, entries) && GoodEntries(entries) && DistinctEntries(entries)
    ensures Holds(channel, list, Taken(list, entries), ReadCounts(channel, reply, ofs, close))
  {
    hide RequestsAt, GoodRequests, DistinctRequests, GoodEntry, Starts, SkipWhitespace, Fill, EntryHere;
    var tally := Tally(EncodeAll(Starts(channel)), None, 0);
    OffsetsDecode(channel, list, 0, "") by { assert |list| > 0 by { NotEmpty(channel, list); } }
    assert Holds(channel, list, [], tally);
    if entries != [] {
      assert [] + entries == entries;
      FillHolds(channel, list, reply, ofs, close + 1, [], entries, tally);
    }
  }

  lemma NotEmpty(channel: string, list: seq<Requested>)
    requires RequestsAt(channel, 0, list)
    ensures |list| > 0
  {
  }

  // ---------- the promise ----------

  /** Every counter is its channel's count, negative exactly for a channel the reply
      does not name, and nothing else is written. */
  ghost predicate AsPromised(list: seq<Requested>, entries: seq<Entry>, tally: Tally)
    requires GoodEntries(entries)
  {
    |tally.cells| == |list| && tally.stray == None &&
    forall k :: 0 <= k < |list| ==>
      match CountFor(entries, list[k].name)
      case Some(v) => tally.cells[k] == v
      case None => tally.cells[k] < 0
  }

  function SetOf(s: seq<string>): set<string> {
    set x | x in s
  }

  predicate Distinct(s: seq<string>) {
    forall j, k :: 0 <= j < k < |s| ==> s[j] != s[k]
  }

  lemma {:induction false} DistinctCard(s: seq<string>)
    requires Distinct(s)
    ensures |SetOf(s)| == |s|
  {
    if s != [] {
      var front, last := s[..|s| - 1], s[|s| - 1];
      DistinctCard(front);
      assert s == front + [last];
      assert SetOf(s) == SetOf(front) + {last};
    }
  }

  lemma Covered(got: seq<string>, asked: seq<string>, name: string)
    requires Distinct(got) && Distinct(asked) && |got| == |asked| && name in asked
    requires forall j :: 0 <= j < |got| ==> got[j] in asked
    ensures name in got
  {
    DistinctCard(got);
    DistinctCard(asked);
    assert SetOf(got) <= SetOf(asked);
    SubsetOfSameSize(SetOf(got), SetOf(asked));
    assert name in SetOf(asked);
  }

  lemma SubsetOfSameSize(a: set<string>, b: set<string>)
    requires a <= b && |b| <= |a|
    ensures a == b
  {
    assert |b - a| == |b| - |a|;
  }

  /** As many distinct requested entries as there are channels name every channel. */
  lemma AllNamed(list: seq<Requested>, taken: seq<Entry>, k: nat)
    requires DistinctRequests(list) && DistinctEntries(taken) && |taken| == |list| && !HasStray(list, taken) && k < |list|
    ensures exists j :: 0 <= j < |taken| && taken[j].name == list[k].name
  {
    var got := seq(|taken|, j requires 0 <= j < |taken| => taken[j].name);
    var asked := seq(|list|, j requires 0 <= j < |list| => list[j].name);
    forall j | 0 <= j < |got| ensures got[j] in asked {
      assert IsRequested(list, taken[j].name);
      var i :| 0 <= i < |list| && list[i].name == taken[j].name;
      assert asked[i] == got[j];
    }
    assert asked[k] in asked;
    Covered(got, asked, asked[k]);
    var j :| 0 <= j < |got| && got[j] == asked[k];
  }

  lemma {:induction false} CountStays(entries: seq<Entry>, n: nat, name: string)
    requires n <= |entries| && GoodEntries(entries) && DistinctEntries(entries)
    requires CountFor(entries[..n], name).Some?
    ensures CountFor(entries, name) == CountFor(entries[..n], name)
  {
    if n == |entries| {
      assert entries[..n] == entries;
    } else {
      var front := entries[..|entries| - 1];
      assert front[..n] == entries[..n];
      CountStays(front, n, name);
      NotSeen(entries[..n], name);
    }
  }

  /** The promise is kept if and only if none of the entries read names a channel that
      was not requested. */
  lemma PromisedExactlyWithoutStrays(channel: string, list: seq<Requested>, reply: string, ofs: nat, close: nat, entries: seq<Entry>)
    requires RequestsAt(channel, 0, list) && GoodRequests(list) && DistinctRequests(list)
    requires close < |reply| && EntriesAt(reply, ofs, close + 1, entries) && GoodEntries(entries) && DistinctEntries(entries)
    ensures AsPromised(list, entries, ReadCounts(channel, reply, ofs, close)) <==> !HasStray(list, Taken(list, entries))
  {
    hide RequestsAt, GoodRequests, EntriesAt, ReadCounts, GoodEntry, HasStray, CountFor, Starts, DistinctRequests;
    CountsLand(channel, list, reply, ofs, close, entries);
    var taken := Taken(list, entries);
    var tally := ReadCounts(channel, reply, ofs, close);
    if !HasStray(list, taken) {
      forall k | 0 <= k < |list|
        ensures CountFor(entries, list[k].name) == CountFor(taken, list[k].name)
      {
        if |taken| == |entries| {
          assert taken == entries;
        } else {
          AllNamed(list, taken, k);
          NotSeen(taken, list[k].name);
          CountStays(entries, |taken|, list[k].name);
        }
      }
      assert forall k :: 0 <= k < |list| ==> CellIs(channel, list, taken, k, tally.cells[k]);
    }
  }

  const ONE_ASKED: seq<Requested> := [Requested("", "a", "")]
  const ANOTHER: Entry := Entry("", "b", "", "", "", 1, "")
  const STRAY_REPLY: string := "{\"b\":1}"

  lemma AnotherIsGood()
    ensures GoodEntry(ANOTHER)
  {
    assert ClosedBody("b"[1..], false);
  }

  lemma AnotherIsThere()
    ensures EntriesAt(STRAY_REPLY, 1, 7, [ANOTHER])
  {
    var t := STRAY_REPLY;
    assert Written(ANOTHER) == "1";
    assert t[1..2] == "\"" && t[2..3] == "b" && t[3..4] == "\"" && t[4..5] == ":" && t[5..6] == "1";
  }

  /** One channel is asked for and the reply names another: the count is written
      behind the only counter. */
  lemma StrayIsWritten()
    ensures ReadCounts("a", STRAY_REPLY, 1, 6).stray.Some?
  {
    hide ReadCounts, CellIs, EntriesAt, GoodEntry, EntryHere;
    AnotherIsGood();
    AnotherIsThere();
    CountsLand("a", ONE_ASKED, STRAY_REPLY, 1, 6, [ANOTHER]);
    assert [ANOTHER][..1] == [ANOTHER];
    assert !IsRequested(ONE_ASKED, [ANOTHER][0].name);
  }
}
