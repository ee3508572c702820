/** Fills the caller's array of counters from the reply in the context. */
module MessageCountsReader {
  import opened Common
  import opened MessageCounts
  import opened MessageCountsNames

  lemma {:induction false} EncodeAppend(a: seq<nat>, b: seq<nat>)
    ensures EncodeAll(a + b) == EncodeAll(a) + EncodeAll(b)
  {
  }

  lemma RestIs(channel: string, p: nat)
    requires p <= |channel|
    ensures StartsFrom(channel, p) == Rest(channel, CommaFrom(channel, p, |channel|))
  {
    hide CommaFrom, SkipBlanks, Rest;
  }

  lemma FirstStart(channel: string)
    ensures var s := SkipBlanks(channel, 0); Starts(channel) == [s] + Rest(channel, CommaFrom(channel, s, |channel|))
  {
    RestIs(channel, SkipBlanks(channel, 0));
  }

  lemma RestNext(channel: string, next: nat)
    requires next < |channel|
    ensures var start := SkipBlanks(channel, next + 1);
      |Rest(channel, next)| > 0 && Rest(channel, next)[0] == start &&
      (start < |channel| ==> Rest(channel, next) == [start] + Rest(channel, CommaFrom(channel, start + 1, |channel|)))
  {
    hide StartsFrom, SkipBlanks, CommaFrom;
    var start := SkipBlanks(channel, next + 1);
    if start < |channel| {
      RestIs(channel, start + 1);
    }
  }

  lemma NoRest(channel: string)
    ensures Rest(channel, |channel|) == []
  {
  }

  lemma OneEncoded(start: nat)
    ensures EncodeAll([start]) == [Encode(start)]
  {
  }

  /** The tally after the entry at `p`. */
  function AfterEntry(channel: string, t: string, p: nat, end: nat, tally: Tally): (after: Tally)
    requires p < end <= |t|
    ensures |after.cells| == |tally.cells| && (tally.stray.Some? ==> after.stray.Some?)
  {
    var count := CountAt(t, ColonAt(t, p, end));
    if count.Some? then Store(channel, Key(t, p, end), count.value, tally) else tally
  }

  function NextComma(t: string, p: nat, end: nat): (q: nat)
    requires p < end <= |t|
    ensures q > p
  {
    EntryEnd(t, ColonAt(t, p, end), end)
  }

  lemma FillStep(channel: string, t: string, p: nat, end: nat, tally: Tally)
    requires p < end <= |t| && tally.counts < |tally.cells|
    ensures var q, after := NextComma(t, p, end), AfterEntry(channel, t, p, end, tally);
      Fill(channel, t, p, end, tally) == if q == end then after else Fill(channel, t, SkipWhitespace(t, q + 1, end), end, after)
  {
  }

  /** What stands behind the counters: `before`, but for the stray count. */
  predicate Behind(now: seq<int>, before: seq<int>, stray: Option<int>) {
    match stray
    case None => now == before
    case Some(v) => |now| == |before| > 0 && now == before[0 := v]
  }

  class CountsReader {
    var reply: string
    /** Behind the opening and at the closing brace of the counters. */
    var msg_ofs: nat
    var msg_end: nat

    method PassBlanks(channel: string, p: nat) returns (next: nat)
      requires p <= |channel|
      ensures next == SkipBlanks(channel, p)
    {
      next := p;
      while next < |channel| && channel[next] == ' '
        invariant next <= |channel| && SkipBlanks(channel, next) == SkipBlanks(channel, p)
      {
        next := next + 1;
      }
    }

    method InitializeMsgCounters(channel: string, o_count: array<int>) returns (n: nat)
      requires TrailingCommas(channel) % 2 == 0 && |Starts(channel)| <= o_count.Length
      modifies o_count
      ensures n == |Starts(channel)| && o_count[..n] == EncodeAll(Starts(channel)) && o_count[n..] == old(o_count[n..])
    {
      hide Encode, Starts, StartsFrom, CommaFrom, SkipBlanks, Rest, EncodeAll, TrailingCommas;
      ghost var before, starts := o_count[..], Starts(channel);
      StaysInsideOnEven(channel);
      var next := PassBlanks(channel, 0);
      ghost var done: seq<nat> := [next];
      FirstStart(channel);
      OneEncoded(next);
      o_count[0] := Encode(next);
      n := 1;
      next := CommaFrom(channel, next, |channel|);
      while next != |channel|
        invariant next <= |channel| && 1 <= n == |done| <= o_count.Length
        invariant starts == done + Rest(channel, next)
        invariant o_count[..n] == EncodeAll(done) && o_count[n..] == before[n..]
        decreases |channel| - next
      {
        var start := PassBlanks(channel, next + 1);
        RestNext(channel, next);
        assert starts[n] == start;
        ghost var rest := Rest(channel, CommaFrom(channel, start + 1, |channel|));
        assert done + ([start] + rest) == (done + [start]) + rest;
        OneEncoded(start);
        EncodeAppend(done, [start]);
        ghost var encoded := o_count[..n];
        assert o_count[n..][1..] == o_count[n + 1..] && before[n..][1..] == before[n + 1..];
        o_count[n] := Encode(start);
        assert o_count[..n + 1] == encoded + [Encode(start)];
        done := done + [start];
        next := CommaFrom(channel, start + 1, |channel|);
        n := n + 1;
      }
      NoRest(channel);
    }

    /** The counter waiting for `name`, or `n`. */
    method FindCounter(channel: string, o_count: array<int>, n: nat, name: string) returns (i: nat)
      requires n <= o_count.Length
      ensures i == FirstMatch(channel, o_count[..n], name)
    {
      i := 0;
      while i < n && !Matches(channel, o_count[i], name)
        invariant i <= n && FirstMatch(channel, o_count[..n], name) == i + FirstMatch(channel, o_count[i..n], name)
      {
        assert o_count[i..n][1..] == o_count[i + 1..n];
        i := i + 1;
      }
    }

    /** One entry of the reply; `behind` is what stood behind the counters at first. */
    method ReadEntry(channel: string, o_count: array<int>, n: nat, p: nat, end: nat, ghost tally: Tally, ghost behind: seq<int>)
      returns (q: nat, stored: bool)
      requires p < end <= |reply| && n < o_count.Length
      requires tally.cells == o_count[..n] && Behind(o_count[n..], behind, tally.stray)
      modifies o_count
      ensures var after := AfterEntry(channel, reply, p, end, tally);
        after.cells == o_count[..n] && Behind(o_count[n..], behind, after.stray) && after.counts == tally.counts + (if stored then 1 else 0)
      ensures q == NextComma(reply, p, end)
    {
      hide Key, ColonAt, CountAt, EntryEnd, FirstMatch;
      var colon := ColonAt(reply, p, end);
      q := EntryEnd(reply, colon, end);
      var count := CountAt(reply, colon);
      stored := count.Some?;
      if stored {
        var i := FindCounter(channel, o_count, n, Key(reply, p, end));
        o_count[i] := count.value;
      }
    }

    /** Every count goes to its counter; one for a channel that was not requested goes
        behind them. `o_count` is the caller's counters and what stands behind them. */
    method GetMessageCounts(channel: string, o_count: array<int>)
      requires msg_end < |reply|
      requires TrailingCommas(channel) % 2 == 0 && |Starts(channel)| < o_count.Length
      modifies this`msg_ofs, o_count
      ensures var n, tally := |Starts(channel)|, ReadCounts(channel, reply, old(msg_ofs), msg_end);
        o_count[..n] == tally.cells && Behind(o_count[n..], old(o_count[n..]), tally.stray)
      ensures msg_ofs == if old(msg_ofs) < msg_end then msg_end else old(msg_ofs)
    {
      hide Starts, Fill, SkipWhitespace, AfterEntry, NextComma, Behind;
      ghost var behind := o_count[|Starts(channel)|..];
      var n := InitializeMsgCounters(channel, o_count);
      ghost var tally := Tally(EncodeAll(Starts(channel)), None, 0);
      NothingBehind(behind);
      if msg_ofs < msg_end {
        var end := msg_end + 1;
        var p := SkipWhitespace(reply, msg_ofs, end);
        ghost var final := ReadCounts(channel, reply, msg_ofs, msg_end);
        var counts := 0;
        while p < end && counts < n
          invariant final == Fill(channel, reply, p, end, tally)
          invariant tally.cells == o_count[..n] && tally.counts == counts
          invariant Behind(o_count[n..], behind, tally.stray)
          decreases end - p
        {
          FillStep(channel, reply, p, end, tally);
          ghost var after := AfterEntry(channel, reply, p, end, tally);
          var q, stored := ReadEntry(channel, o_count, n, p, end, tally, behind);
          counts := if stored then counts + 1 else counts;
          tally := after;
          if q == end {
            break;
          }
          p := SkipWhitespace(reply, q + 1, end);
        }
        FillEnds(channel, reply, p, end, tally);
        msg_ofs := msg_end;
      }
    }
  }

  lemma NothingBehind(behind: seq<int>)
    ensures Behind(behind, behind, None)
  {
  }

  lemma FillEnds(channel: string, t: string, p: nat, end: nat, tally: Tally)
    requires end <= |t|
    ensures p >= end || tally.counts >= |tally.cells| ==> Fill(channel, t, p, end, tally) == tally
  {
  }
}
