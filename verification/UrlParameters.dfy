/** The URL parameter table: a fixed array of slots, some of them empty, sorted by
    key with an exchange sort whose inner loop runs over the whole array. */
module UrlParameters {
  import opened Common

  datatype Slot = Slot(key: Option<string>, value: Option<string>)

  // ---------- key order ----------

  /** `strcmp(a, b) < 0`. */
  predicate Less(a: string, b: string) {
    b != "" && (a == "" || a[0] < b[0] || (a[0] == b[0] && Less(a[1..], b[1..])))
  }

  lemma {:induction false} LessTransitive(a: string, b: string, c: string)
    requires !Less(b, a) && !Less(c, b)
    ensures !Less(c, a)
  {
    if a != "" && b != "" && c != "" && a[0] == b[0] == c[0] {
      LessTransitive(a[1..], b[1..], c[1..]);
    }
  }

  lemma {:induction false} LessTotal(a: string, b: string)
    ensures !(Less(a, b) && Less(b, a))
    ensures !Less(a, b) && !Less(b, a) ==> a == b
  {
    if a != "" && b != "" {
      LessTotal(a[1..], b[1..]);
      if a[0] == b[0] {
        assert a == [a[0]] + a[1..] && b == [b[0]] + b[1..];
      }
    }
  }

  predicate Used(s: Slot) { s.key.Some? }

  /** `s` may stand before `t`. */
  predicate Before(s: Slot, t: Slot)
    requires Used(s) && Used(t)
  {
    !Less(t.key.value, s.key.value)
  }

  // ---------- sortedness ----------

  /** The used slots are in key order. */
  predicate SortedTo(slots: seq<Slot>, n: nat)
    requires n <= |slots|
  {
    forall p, q :: 0 <= p < q < n && Used(slots[p]) && Used(slots[q]) ==> Before(slots[p], slots[q])
  }

  predicate Sorted(slots: seq<Slot>) {
    SortedTo(slots, |slots|)
  }

  /** Slot `t` holds a greatest key. */
  predicate Top(slots: seq<Slot>, t: nat, n: nat)
    requires t < |slots| && n <= |slots|
  {
    Used(slots[t]) && forall q :: 0 <= q < n && Used(slots[q]) ==> Before(slots[q], slots[t])
  }

  /** Same slots, and the empty ones where they were. */
  predicate Rearranged(was: seq<Slot>, now: seq<Slot>) {
    |now| == |was| && multiset(now) == multiset(was) &&
    forall k :: 0 <= k < |was| ==> (Used(was[k]) <==> Used(now[k])) && (!Used(was[k]) ==> now[k] == was[k])
  }

  /** What the sort needs to sort: a spare last slot, nothing in front of the last
      slot, or a last key that ties with the greatest of the others. */
  predicate Sortable(slots: seq<Slot>) {
    |slots| == 0 || !Used(slots[|slots| - 1]) ||
    (forall k :: 0 <= k < |slots| - 1 ==> !Used(slots[k])) ||
    (exists k :: 0 <= k < |slots| - 1 && Top(slots, k, |slots| - 1) && slots[k].key == slots[|slots| - 1].key)
  }

  // ---------- one exchange ----------

  function Swapped(slots: seq<Slot>, i: nat, j: nat): seq<Slot>
    requires i < |slots| && j < |slots|
  {
    slots[i := slots[j]][j := slots[i]]
  }

  lemma SwapRearranges(was: seq<Slot>, slots: seq<Slot>, i: nat, j: nat)
    requires Rearranged(was, slots) && i < |slots| && j < |slots|
    requires Used(slots[i]) && Used(slots[j])
    ensures Rearranged(was, Swapped(slots, i, j))
  {
    assert multiset(Swapped(slots, i, j)) == multiset(slots);
  }

  /** Rearranging moves no key in or out. */
  lemma RearrangedFrom(was: seq<Slot>, now: seq<Slot>, k: nat)
    requires multiset(now) == multiset(was) && k < |now|
    ensures exists j :: 0 <= j < |was| && was[j] == now[k]
  {
    assert now[k] in multiset(now);
    assert now[k] in was;
  }

  lemma BeforeChain(a: Slot, b: Slot, c: Slot)
    requires Used(a) && Used(b) && Used(c) && Before(a, b) && Before(b, c)
    ensures Before(a, c)
  {
    LessTransitive(a.key.value, b.key.value, c.key.value);
  }

  lemma BeforeEither(a: Slot, b: Slot)
    requires Used(a) && Used(b)
    ensures Before(a, b) || Before(b, a)
    ensures Before(a, b) && Before(b, a) <==> a.key == b.key
  {
    LessTotal(a.key.value, b.key.value);
  }

  lemma SwapKeepsTop(slots: seq<Slot>, i: nat, j: nat, t: nat)
    requires i < |slots| && j < |slots| && t < |slots| && t != i && t != j
    requires Top(slots, t, |slots|)
    ensures Top(Swapped(slots, i, j), t, |slots|)
  {
  }

  // ---------- the inner loop ----------

  /** In the middle of the pass for slot `i`: the slots in front of `i` are sorted,
      everything scanned so far may stand before slot `i`, and the greatest key is
      still in the last used slot in front, or has arrived at `i`. */
  predicate Passing(slots: seq<Slot>, i: nat, j: nat, last: int)
    requires i < |slots| && j <= |slots| && -1 <= last < i
  {
    Used(slots[i]) && SortedTo(slots, i) &&
    (forall p :: 0 <= p < j && Used(slots[p]) ==> Before(slots[p], slots[i])) &&
    (forall p :: last < p < i ==> !Used(slots[p])) &&
    (last >= 0 ==> Top(slots, if j <= last then last else i, |slots|))
  }

  /** An exchange in front of `i` inserts: what moves down fits where it lands. */
  lemma ExchangeSorted(slots: seq<Slot>, i: nat, j: nat)
    requires i < |slots| && j < i && SortedTo(slots, i) && Used(slots[i]) && Used(slots[j])
    requires forall p :: 0 <= p < j && Used(slots[p]) ==> Before(slots[p], slots[i])
    requires Less(slots[i].key.value, slots[j].key.value)
    ensures SortedTo(Swapped(slots, i, j), i)
  {
    var now := Swapped(slots, i, j);
    LessTotal(slots[i].key.value, slots[j].key.value);
    forall p, q | 0 <= p < q < i && Used(now[p]) && Used(now[q]) ensures Before(now[p], now[q]) {
      if p == j {
        BeforeChain(slots[i], slots[j], slots[q]);
      }
    }
  }

  lemma ExchangeScanned(slots: seq<Slot>, i: nat, j: nat)
    requires i < |slots| && j < |slots| && j != i && Used(slots[i]) && Used(slots[j])
    requires forall p :: 0 <= p < j && Used(slots[p]) ==> Before(slots[p], slots[i])
    requires Less(slots[i].key.value, slots[j].key.value)
    ensures var now := Swapped(slots, i, j);
      forall p :: 0 <= p <= j && Used(now[p]) ==> Before(now[p], now[i])
  {
    var now := Swapped(slots, i, j);
    LessTotal(slots[i].key.value, slots[j].key.value);
    BeforeEither(slots[j], slots[j]);
    forall p | 0 <= p <= j && Used(now[p]) ensures Before(now[p], now[i]) {
      if p != i && p != j {
        BeforeChain(slots[p], slots[i], slots[j]);
      }
    }
  }

  lemma ArrivedTop(slots: seq<Slot>, i: nat, t: nat)
    requires i < |slots| && t < |slots| && Used(slots[i]) && Top(slots, t, |slots|) && Before(slots[t], slots[i])
    ensures Top(slots, i, |slots|)
  {
    forall q | 0 <= q < |slots| && Used(slots[q]) ensures Before(slots[q], slots[i]) {
      BeforeChain(slots[q], slots[t], slots[i]);
    }
  }

  /** One comparison of the inner loop, exchange or not, keeps the pass going. */
  lemma PassStep(slots: seq<Slot>, i: nat, j: nat, last: int)
    requires i < |slots| && j < |slots| && -1 <= last < i && Passing(slots, i, j, last)
    ensures var exchange := Used(slots[j]) && Less(slots[i].key.value, slots[j].key.value);
      var now := if exchange then Swapped(slots, i, j) else slots;
      Passing(now, i, j + 1, last) && (last >= 0 && j > last ==> !exchange)
  {
    BeforeEither(slots[i], slots[i]);
    if Used(slots[j]) && Less(slots[i].key.value, slots[j].key.value) {
      var now := Swapped(slots, i, j);
      ExchangeScanned(slots, i, j);
      if j < i {
        ExchangeSorted(slots, i, j);
        if j < last {
          SwapKeepsTop(slots, i, j, last);
        } else {
          assert j == last;
          assert forall q :: 0 <= q < |now| && Used(now[q]) ==> Before(now[q], now[i]);
        }
      } else {
        assert forall p :: 0 <= p < i ==> !Used(now[p]);
      }
    } else if last >= 0 && j == last {
      ArrivedTop(slots, i, last);
    }
  }

  // ---------- the last slot ----------

  /** Once some slot in front has been passed, the last slot keeps the lower of its
      own key and the greatest of the others. */
  predicate LastLow(was: seq<Slot>, now: seq<Slot>)
    requires 0 < |was| == |now|
  {
    var m := |was| - 1;
    Used(was[m]) ==>
      exists k :: 0 <= k < m && Used(was[k]) && Top(was, k, m) &&
        (if Before(was[m], was[k]) then now[m] == was[m] else now[m].key == was[k].key)
  }

  lemma PrefixMultiset(s: seq<Slot>, t: seq<Slot>)
    requires 0 < |s| == |t| && multiset(s) == multiset(t) && s[|s| - 1] == t[|t| - 1]
    ensures multiset(s[..|s| - 1]) == multiset(t[..|t| - 1])
  {
    var m := |s| - 1;
    assert s == s[..m] + [s[m]] && t == t[..m] + [t[m]];
    assert multiset(s[..m]) == multiset(s) - multiset{s[m]};
    assert multiset(t[..m]) == multiset(t) - multiset{t[m]};
  }

  /** The step of the first pass that reaches the last slot. */
  lemma FirstReaches(was: seq<Slot>, slots: seq<Slot>, i: nat)
    requires 0 < |was| && Rearranged(was, slots) && i < |was| - 1 && slots[|was| - 1] == was[|was| - 1]
    requires Used(slots[i]) && forall p :: 0 <= p < |was| - 1 && Used(slots[p]) ==> Before(slots[p], slots[i])
    ensures var m := |was| - 1;
      var exchange := Used(slots[m]) && Less(slots[i].key.value, slots[m].key.value);
      LastLow(was, if exchange then Swapped(slots, i, m) else slots)
  {
    var m := |was| - 1;
    PrefixMultiset(was, slots);
    RearrangedFrom(was[..m], slots[..m], i);
    var k :| 0 <= k < m && was[..m][k] == slots[..m][i];
    forall q | 0 <= q < m && Used(was[q]) ensures Before(was[q], was[k]) {
      RearrangedFrom(slots[..m], was[..m], q);
      var p :| 0 <= p < m && slots[..m][p] == was[..m][q];
      assert Before(slots[p], slots[i]);
    }
    assert Top(was, k, m);
  }

  /** What the finished loops leave: sorted exactly for the tables that can be. */
  lemma Finished(was: seq<Slot>, now: seq<Slot>, last: int)
    requires Rearranged(was, now) && |was| > 0 && SortedTo(now, |was| - 1) && -1 <= last < |was| - 1
    requires forall p :: last < p < |was| - 1 ==> !Used(now[p])
    requires last >= 0 ==> Top(now, last, |was|) && LastLow(was, now)
    ensures Sorted(now) <==> Sortable(was)
  {
    if Used(was[|was| - 1]) && last >= 0 {
      FinishedFull(was, now, last);
    }
  }

  lemma RearrangedUsed(was: seq<Slot>, now: seq<Slot>, k: nat)
    requires Rearranged(was, now) && k < |was|
    ensures |now| == |was| && (Used(was[k]) <==> Used(now[k]))
  {
  }

  lemma FinishedFull(was: seq<Slot>, now: seq<Slot>, last: nat)
    requires Rearranged(was, now) && |was| > 0 && SortedTo(now, |was| - 1) && last < |was| - 1
    requires Used(was[|was| - 1]) && Top(now, last, |was|) && LastLow(was, now)
    ensures Sorted(now) <==> Sortable(was)
  {
    hide Less, Sorted, SortedTo, Sortable, Top, Rearranged;
    var m := |was| - 1;
    RearrangedUsed(was, now, m);
    var k :| 0 <= k < m && Used(was[k]) && Top(was, k, m) &&
      (if Before(was[m], was[k]) then now[m] == was[m] else now[m].key == was[k].key);
    TopKeys(was, now, last, k);
    SortedFull(was, now, last, k);
    SortableFull(was, k);
  }

  lemma SortedFull(was: seq<Slot>, now: seq<Slot>, last: nat, k: nat)
    requires 0 < |was| == |now| && last < |was| - 1 && k < |was| - 1
    requires Used(was[|was| - 1]) && Used(was[k]) && Used(now[|was| - 1])
    requires SortedTo(now, |was| - 1) && Top(now, last, |was|)
    requires now[last].key == if Before(was[|was| - 1], was[k]) then was[k].key else was[|was| - 1].key
    requires now[|was| - 1].key == if Before(was[|was| - 1], was[k]) then was[|was| - 1].key else was[k].key
    ensures Sorted(now) <==> was[|was| - 1].key == was[k].key
  {
    hide Less;
    var m := |was| - 1;
    BeforeEither(now[last], now[m]);
    assert Before(now[m], now[last]);
    if was[m].key == was[k].key {
      forall p | 0 <= p < m && Used(now[p]) ensures Before(now[p], now[m]) {
        BeforeChain(now[p], now[last], now[m]);
      }
    }
  }

  lemma TopsAgree(was: seq<Slot>, j: nat, k: nat, n: nat)
    requires n <= |was| && j < n && k < n && Top(was, j, n) && Top(was, k, n)
    ensures was[j].key == was[k].key
  {
    hide Less;
    BeforeEither(was[j], was[k]);
  }

  lemma SortableFull(was: seq<Slot>, k: nat)
    requires 0 < |was| && k < |was| - 1 && Used(was[|was| - 1]) && Used(was[k]) && Top(was, k, |was| - 1)
    ensures Sortable(was) <==> was[|was| - 1].key == was[k].key
  {
    hide Less, Top;
    forall j | 0 <= j < |was| - 1 && Top(was, j, |was| - 1) ensures was[j].key == was[k].key {
      TopsAgree(was, j, k, |was| - 1);
    }
  }

  /** The greatest key overall is the greatest of the last key and the others. */
  lemma TopKeys(was: seq<Slot>, now: seq<Slot>, t: nat, k: nat)
    requires Rearranged(was, now) && |was| > 0 && t < |now| && k < |was| - 1
    requires Top(now, t, |now|) && Top(was, k, |was| - 1) && Used(was[|was| - 1])
    ensures now[t].key == if Before(was[|was| - 1], was[k]) then was[k].key else was[|was| - 1].key
  {
    var m := |was| - 1;
    RearrangedFrom(was, now, t);
    var a :| 0 <= a < |was| && was[a] == now[t];
    RearrangedFrom(now, was, m);
    var b :| 0 <= b < |now| && now[b] == was[m];
    RearrangedFrom(now, was, k);
    var c :| 0 <= c < |now| && now[c] == was[k];
    assert Before(now[b], now[t]) && Before(now[c], now[t]);
    BeforeEither(was[m], was[k]);
    BeforeEither(now[t], was[k]);
    BeforeEither(now[t], was[m]);
    if a < m {
      assert Before(was[a], was[k]);
      BeforeChain(was[m], was[a], was[k]);
    } else if Before(was[m], was[k]) {
      assert Before(now[t], was[k]);
    }
  }

  /** When the first pass ends, its slot holds the greatest key. */
  lemma PassEnds(slots: seq<Slot>, i: nat, last: int)
    requires i < |slots| && -1 <= last < i && Passing(slots, i, |slots|, last)
    ensures SortedTo(slots, i + 1) && Top(slots, i, |slots|)
  {
  }

  // ---------- the sort ----------

  /** Sorts the used slots by key where they stand. Empty slots stay in place, and
      the result is in key order exactly when the table was sortable. */
  method SortUrlParameters(name: array<Slot>)
    modifies name
    ensures Rearranged(old(name[..]), name[..])
    ensures Sorted(name[..]) <==> Sortable(old(name[..]))
  {
    hide Rearranged, Passing, SortedTo, Top, LastLow, Sortable;
    ghost var was := name[..];
    RearrangedSelf(was);
    var count := name.Length;
    if count == 0 {
      NothingToSort(was);
      return;
    }
    ghost var last := -1;
    NothingSorted(was);
    for i := 0 to count - 1
      invariant Rearranged(was, name[..]) && SortedTo(name[..], i)
      invariant -1 <= last < i
      invariant forall p :: last < p < i ==> !Used(name[p])
      invariant last == -1 ==> name[count - 1] == was[count - 1]
      invariant last >= 0 ==> Top(name[..], last, count) && LastLow(was, name[..])
    {
      if name[i].key == None {
        OneMoreEmpty(name[..], i);
        continue;
      }
      PassBegins(name[..], i, last);
      for j := 0 to count
        invariant Rearranged(was, name[..]) && Passing(name[..], i, j, last)
        invariant last == -1 && j < count ==> name[count - 1] == was[count - 1]
        invariant last >= 0 || j == count ==> LastLow(was, name[..])
      {
        ghost var before := name[..];
        PassingUsed(before, i, j, last);
        if name[i].key != None && name[j].key != None && Less(name[i].key.value, name[j].key.value) {
          var temp := name[i];
          name[i] := name[j];
          name[j] := temp;
          assert name[..] == Swapped(before, i, j);
          SwapRearranges(was, before, i, j);
        }
        PassStep(before, i, j, last);
        LastStep(was, before, i, j, last);
      }
      PassEnds(name[..], i, last);
      last := i;
    }
    Finished(was, name[..], last);
  }

  lemma RearrangedSelf(was: seq<Slot>)
    ensures Rearranged(was, was)
  {
  }

  lemma NothingToSort(was: seq<Slot>)
    requires was == []
    ensures Sorted(was) && Sortable(was)
  {
  }

  lemma NothingSorted(slots: seq<Slot>)
    ensures SortedTo(slots, 0)
  {
  }

  lemma OneMoreEmpty(slots: seq<Slot>, i: nat)
    requires i < |slots| && SortedTo(slots, i) && !Used(slots[i])
    ensures SortedTo(slots, i + 1)
  {
  }

  lemma PassBegins(slots: seq<Slot>, i: nat, last: int)
    requires i < |slots| && -1 <= last < i && Used(slots[i]) && SortedTo(slots, i)
    requires forall p :: last < p < i ==> !Used(slots[p])
    requires last >= 0 ==> Top(slots, last, |slots|)
    ensures Passing(slots, i, 0, last)
  {
  }

  lemma PassingUsed(slots: seq<Slot>, i: nat, j: nat, last: int)
    requires i < |slots| && j <= |slots| && -1 <= last < i && Passing(slots, i, j, last)
    ensures Used(slots[i])
  {
  }

  /** The last slot is reached once in the first pass and never touched again. */
  lemma LastStep(was: seq<Slot>, slots: seq<Slot>, i: nat, j: nat, last: int)
    requires 0 < |was| && Rearranged(was, slots) && i < |was| - 1 && j < |was| && -1 <= last < i
    requires Passing(slots, i, j, last)
    requires last == -1 ==> slots[|was| - 1] == was[|was| - 1]
    requires last >= 0 ==> LastLow(was, slots)
    ensures var exchange := Used(slots[j]) && Less(slots[i].key.value, slots[j].key.value);
      var now := if exchange then Swapped(slots, i, j) else slots;
      (last == -1 && j < |was| - 1 ==> now[|was| - 1] == was[|was| - 1]) &&
      (last >= 0 || j == |was| - 1 ==> LastLow(was, now))
  {
    if last == -1 {
      if j == |was| - 1 {
        FirstReaches(was, slots, i);
      }
    } else {
      PassStep(slots, i, j, last);
    }
  }

  // ---------- the order is all there is to choose ----------

  /** Tables with distinct keys have only one sorted rearrangement, so the exchange
      sort's answer is the answer of any other sort. */
  lemma {:induction false} SortedUnique(s: seq<Slot>, t: seq<Slot>)
    requires Rearranged(s, t) && Sorted(s) && Sorted(t)
    requires forall p, q :: 0 <= p < q < |s| && Used(s[p]) && Used(s[q]) ==> s[p].key != s[q].key
    ensures s == t
  {
    if s != [] {
      var m := |s| - 1;
      if Used(s[m]) {
        LastSame(s, t);
      }
      assert s[m] == t[m];
      PrefixMultiset(s, t);
      assert s == s[..m] + [s[m]] && t == t[..m] + [t[m]];
      SortedUnique(s[..m], t[..m]);
    }
  }

  lemma LastSame(s: seq<Slot>, t: seq<Slot>)
    requires Rearranged(s, t) && Sorted(s) && Sorted(t) && s != [] && Used(s[|s| - 1])
    requires forall p, q :: 0 <= p < q < |s| && Used(s[p]) && Used(s[q]) ==> s[p].key != s[q].key
    ensures s[|s| - 1] == t[|s| - 1]
  {
    var m := |s| - 1;
    RearrangedFrom(s, t, m);
    var a :| 0 <= a < |s| && s[a] == t[m];
    RearrangedFrom(t, s, m);
    var b :| 0 <= b < |t| && t[b] == s[m];
    if a != m {
      assert Before(s[a], s[m]);
      assert b != m;
      assert Before(t[b], t[m]);
      BeforeEither(s[a], s[m]);
    }
  }

  /** A full table that is in order already: the last key is the greatest, and the sort
      takes it out of its place. */
  lemma FullTableIsNotSorted()
    ensures !Sortable([Slot(Some("a"), Some("1")), Slot(Some("b"), Some("2"))])
  {
    var slots := [Slot(Some("a"), Some("1")), Slot(Some("b"), Some("2"))];
    assert Used(slots[0]) && Used(slots[1]);
    assert "a"[0] != "b"[0];
  }
}
