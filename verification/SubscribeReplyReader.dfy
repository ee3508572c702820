/** The response parser and its two getters as the source runs them: in place, on
    the reply buffer. */
module SubscribeReplyReader {
  import opened Common
  import opened ReplyText
  import opened SubscribeReply

  // ---------- what an accepted reply was ----------

  /** The text between quotes at `i` and `e`, behind a comma, is what was stored. */
  predicate TakenFrom(text: Text, i: nat, e: nat, r: Reader) {
    2 <= i < e < |text| && text[i - 1] == ',' && text[i] == '"' && text[e] == '"' &&
    r.timetoken == text[i + 1..e] && '"' !in r.timetoken && |r.timetoken| < 20 &&
    |r.reply| == |text| && r.msgOfs == 2 && r.msgEnd == i - 2
  }

  lemma FinishTakes(s: Reader, i: nat, end: nat, text: Text)
    requires 2 <= i < end < |s.reply| == |text| && s.reply[end] == NUL && text[end] == '"'
    requires s.reply[i - 1] == ',' && s.reply[i] == '"' && forall k :: i < k < end ==> s.reply[k] != '"'
    requires forall k :: 0 <= k < end && s.reply[k] != NUL ==> text[k] == s.reply[k]
    requires s.reply[i + 1..end] == text[i + 1..end]
    ensures Finish(s, i, end).0 == Ok ==> TakenFrom(text, i, end, Finish(s, i, end).1)
  {
    hide Scan, Closed, StringStart;
  }

  lemma CutEnds(s: Reader, i: nat, n: nat)
    requires Fronted(s, i, n)
    ensures var r := Cut(s, i, n);
      |r.reply| == |s.reply| && r.reply[0] == '[' && r.reply[i - 2] == NUL && r.reply[n - 2] == NUL &&
      forall k :: 0 <= k < i - 2 ==> r.reply[k] == s.reply[k]
  {
  }

  lemma CutTakes(s: Reader, i: nat, n: nat, text: Text, start: nat)
    requires Fronted(s, i, n) && |s.reply| == |text|
    requires forall k :: 0 <= k < n - 2 ==> text[k] == s.reply[k]
    requires start == StringStart(Cut(s, i, n).reply, i - 3)
    ensures 2 <= start && (Finish(Cut(s, i, n), start, i - 2).0 == Ok ==> TakenFrom(text, start, i - 2, Finish(Cut(s, i, n), start, i - 2).1))
  {
    hide Finish, TakenFrom, CutCommas, Cut;
    CutEnds(s, i, n);
    var r := Cut(s, i, n);
    assert r.reply[start + 1..i - 2] == text[start + 1..i - 2];
    FinishTakes(r, start, i - 2, text);
  }

  lemma SkipTakes(s: Reader, i: nat, n: nat, text: Text, start: nat, first: nat)
    requires Fronted(s, i, n) && |s.reply| == |text|
    requires forall k :: 0 <= k < n - 2 ==> text[k] == s.reply[k]
    requires 2 < start == StringStart(Cut(s, i, n).reply, i - 3) && Cut(s, i, n).reply[start - 2] == '"'
    requires first == StringStart(Cut(s, i, n).reply[start - 2 := NUL], start - 3)
    ensures var skipped := Cut(s, i, n).(reply := Cut(s, i, n).reply[start - 2 := NUL]);
      2 <= first && (Finish(skipped, first, start - 2).0 == Ok ==> TakenFrom(text, first, start - 2, Finish(skipped, first, start - 2).1))
  {
    hide Finish, TakenFrom, CutCommas, Cut;
    CutEnds(s, i, n);
    var r := Cut(s, i, n);
    var skipped := r.(reply := r.reply[start - 2 := NUL]);
    assert skipped.reply[first + 1..start - 2] == text[first + 1..start - 2];
    FinishTakes(skipped, first, start - 2, text);
  }

  lemma ChannelsTake(s: Reader, i: nat, n: nat, text: Text)
    requires Fronted(s, i, n) && |s.reply| == |text|
    requires forall k :: 0 <= k < n - 2 ==> text[k] == s.reply[k]
    ensures WithChannels(s, i, n).0 == Ok ==>
      exists start: nat, e: nat :: e < n && TakenFrom(text, start, e, WithChannels(s, i, n).1)
  {
    hide Finish, TakenFrom, CutCommas;
    var listed := Cut(s, i, n);
    var start := StringStart(listed.reply, i - 3);
    if start > 0 {
      if listed.reply[start - 2] != '"' {
        CutTakes(s, i, n, text, start);
      } else {
        var first := StringStart(listed.reply[start - 2 := NUL], start - 3);
        if first > 0 {
          SkipTakes(s, i, n, text, start, first);
        }
      }
    }
  }

  /** Whatever the server sent, an accepted reply's timetoken is one of its quoted
      arguments, quote-free and short enough, and the message region ends in front
      of it. */
  lemma AcceptedTimetoken(s: Reader, len: nat, status: ErrorStatus)
    requires len <= |s.reply| && Parse(s, len, status).0 == Ok
    ensures exists i: nat, e: nat :: e < len && TakenFrom(s.reply, i, e, Parse(s, len, status).1)
  {
    hide Finish, TakenFrom, WithChannels;
    var n := Trimmed(s.reply, len);
    var i := StringStart(s.reply, n - 3);
    var ended := s.(reply := s.reply[n - 2 := NUL]);
    if ended.reply[i - 2] == '"' {
      ChannelsTake(ended, i, n, s.reply);
    } else {
      var short := ended.(chanOfs := 0, chanEnd := 0);
      assert short.reply[i + 1..n - 2] == s.reply[i + 1..n - 2];
      FinishTakes(short, i, n - 2, s.reply);
    }
  }

  /** The splitter stops at the first NUL; what is behind is as it was. */
  lemma SplitInside(cut: Text, k: nat)
    requires 2 <= |cut| && StringEnd(cut, 2) < |cut| && k < |cut| && (k < 2 || StringEnd(cut, 2) <= k)
    ensures (cut[..2] + Split(OUTSIDE, cut[2..StringEnd(cut, 2)]) + cut[StringEnd(cut, 2)..])[k] == cut[k]
  {
    hide Split;
  }

  lemma FinishDrainable(s: Reader, i: nat, end: nat)
    requires 2 <= i < end < |s.reply| && s.reply[end] == NUL
    requires s.chanOfs < s.chanEnd ==> end < s.chanEnd - 1 < |s.reply| && s.reply[s.chanEnd - 1] == NUL
    ensures Finish(s, i, end).0 == Ok ==> Drainable(Finish(s, i, end).1)
  {
    hide Scan, Split, Closed;
    if end - (i + 1) < TIMETOKEN_SIZE {
      var cut := s.reply[i - 2 := NUL];
      assert cut[end] == NUL && cut[i - 2] == NUL;
      SplitInside(cut, i - 2);
      if s.chanOfs < s.chanEnd {
        SplitInside(cut, s.chanEnd - 1);
      }
    }
  }

  lemma ChannelsDrainable(s: Reader, i: nat, n: nat)
    requires Fronted(s, i, n)
    ensures WithChannels(s, i, n).0 == Ok ==> Drainable(WithChannels(s, i, n).1)
  {
    hide Finish, Drainable, CutCommas;
    var listed := Cut(s, i, n);
    CutEnds(s, i, n);
    var start := StringStart(listed.reply, i - 3);
    if start > 0 {
      if listed.reply[start - 2] != '"' {
        FinishDrainable(listed, start, i - 2);
      } else {
        var skipped := listed.(reply := listed.reply[start - 2 := NUL]);
        var first := StringStart(skipped.reply, start - 3);
        if first > 0 {
          FinishDrainable(skipped, first, start - 2);
        }
      }
    }
  }

  /** After any accepted reply the getters stop inside the buffer. */
  lemma AcceptedDrainable(s: Reader, len: nat, status: ErrorStatus)
    requires len <= |s.reply| && Parse(s, len, status).0 == Ok
    ensures Drainable(Parse(s, len, status).1)
  {
    hide Finish, Drainable, WithChannels;
    var n := Trimmed(s.reply, len);
    var i := StringStart(s.reply, n - 3);
    var ended := s.(reply := s.reply[n - 2 := NUL]);
    if ended.reply[i - 2] == '"' {
      ChannelsDrainable(ended, i, n);
    } else {
      FinishDrainable(ended.(chanOfs := 0, chanEnd := 0), i, n - 2);
    }
  }

  // ---------- the buffer ----------

  lemma ScanNothing(text: Text, ofs: nat)
    requires ofs <= |text|
    ensures Scan(OUTSIDE, text[ofs..ofs]) == OUTSIDE && Split(OUTSIDE, text[ofs..ofs]) == []
  {
  }

  lemma ScanOneMore(text: Text, ofs: nat, p: nat)
    requires ofs <= p < |text|
    ensures var s := Scan(OUTSIDE, text[ofs..p]);
      Scan(OUTSIDE, text[ofs..p + 1]) == Step(s, text[p]) &&
      Split(OUTSIDE, text[ofs..p + 1]) == Split(OUTSIDE, text[ofs..p]) + [if TopComma(s, text[p]) then NUL else text[p]]
  {
    hide Step, TopComma;
    var longer := text[ofs..p + 1];
    assert longer[..|longer| - 1] == text[ofs..p] && longer[|longer| - 1] == text[p];
  }

  /** The parser's part of a C-core context. */
  lemma NulBehind(text: Text, from: nat, z: nat)
    requires from <= z < |text| && text[z] == NUL
    ensures StringEnd(text, from) <= z
  {
  }

  class ReplyContext {
    const httpReply: array<char>
    var httpBufLen: nat
    var timetoken: Text
    var chanOfs: nat
    var chanEnd: nat
    var msgOfs: nat
    var msgEnd: nat

    ghost predicate Valid()
      reads this
    {
      httpBufLen <= httpReply.Length
    }

    ghost function Model(): Reader
      reads this, httpReply
    {
      Reader(httpReply[..], timetoken, chanOfs, chanEnd, msgOfs, msgEnd)
    }

    constructor (reply: array<char>, length: nat)
      requires length <= reply.Length
      ensures Valid() && httpReply == reply && httpBufLen == length
      ensures Model() == Reader(reply[..], [], 0, 0, 0, 0)
    {
      httpReply := reply;
      httpBufLen := length;
      timetoken := [];
      chanOfs, chanEnd, msgOfs, msgEnd := 0, 0, 0, 0;
    }

    method FindStringStart(len: nat) returns (r: int)
      requires len <= httpReply.Length
      ensures r == if len == 0 then -1 else StringStart(httpReply[..], len - 1)
    {
      var i: int := len as int - 1;
      while i > 0
        invariant -1 <= i < len
        invariant i == -1 <==> len == 0
        invariant len > 0 ==> StringStart(httpReply[..], len - 1) == StringStart(httpReply[..], i)
        decreases i
      {
        if httpReply[i] == '"' {
          return if httpReply[i - 1] == ',' then i else -1;
        }
        i := i - 1;
      }
      return -1;
    }

    /** Splits the NUL-ended array that starts at `ofs`, in place. */
    method SplitArray(ofs: nat) returns (closed: bool)
      requires ofs <= httpReply.Length && StringEnd(httpReply[..], ofs) < httpReply.Length
      modifies httpReply
      ensures var was := old(httpReply[..]);
        var z := StringEnd(was, ofs);
        httpReply[..] == was[..ofs] + Split(OUTSIDE, was[ofs..z]) + was[z..] &&
        closed == Closed(Scan(OUTSIDE, was[ofs..z]))
    {
      hide Scan, Split;
      ghost var was := httpReply[..];
      ghost var z := StringEnd(was, ofs);
      var escaped, inString, level := false, false, 0;
      var p := ofs;
      ScanNothing(was, ofs);
      while httpReply[p] != NUL
        invariant ofs <= p <= z < httpReply.Length
        invariant httpReply[..ofs] == was[..ofs]
        invariant httpReply[ofs..p] == Split(OUTSIDE, was[ofs..p])
        invariant httpReply[p..] == was[p..]
        invariant Lexer(escaped, inString, level) == Scan(OUTSIDE, was[ofs..p])
        decreases z - p
      {
        var c := httpReply[p];
        assert c == httpReply[p..][0] == was[p];
        ScanOneMore(was, ofs, p);
        ghost var rest := httpReply[p + 1..];
        assert rest == httpReply[p..][1..] == was[p + 1..];
        if escaped {
          escaped := false;
        } else if c == '"' {
          inString := !inString;
        } else if inString {
          escaped := c == '\\';
        } else if c == '[' || c == '{' {
          level := level + 1;
        } else if c == ']' || c == '}' {
          level := level - 1;
        } else if c == ',' && level == 0 {
          httpReply[p] := NUL;
        }
        assert httpReply[ofs..p + 1] == httpReply[ofs..p] + [httpReply[p]];
        p := p + 1;
      }
      assert was[z] == NUL;
      assert httpReply[p] == httpReply[p..][0] == was[p];
      assert httpReply[..] == httpReply[..ofs] + httpReply[ofs..p] + httpReply[p..];
      return !(escaped || inString || level > 0);
    }

    /** The `k`-loop over a channel list: from its last byte down, sparing the
        first. */
    method CutCommasDown(from: nat, to: nat)
      requires from <= to <= httpReply.Length
      modifies httpReply
      ensures httpReply[..] == CutCommas(old(httpReply[..]), from, to)
    {
      ghost var was := httpReply[..];
      var k := to;
      while k > from
        invariant from <= k <= to
        invariant httpReply[..] == CutCommas(was, k, to)
      {
        k := k - 1;
        if httpReply[k] == ',' {
          httpReply[k] := NUL;
        }
      }
    }

    /** Everything behind finding the timetoken's opening quote. */
    method StoreAndSplit(i: nat, end: nat) returns (result: ParseResult)
      requires Valid() && 2 <= i < end < httpReply.Length && httpReply[end] == NUL
      modifies this, httpReply
      ensures Valid() && httpBufLen == old(httpBufLen)
      ensures (result, Model()) == Finish(old(Model()), i, end)
    {
      hide Scan, Split, Closed, StringEnd;
      var length := end - (i + 1);
      if length >= TIMETOKEN_SIZE {
        timetoken := [];
        return FormatError;
      }
      timetoken := httpReply[i + 1..end];
      httpReply[i - 2] := NUL;
      assert httpReply[..] == old(httpReply[..])[i - 2 := NUL];
      msgOfs, msgEnd := 2, i - 2;
      NulBehind(httpReply[..], 2, end);
      var closed := SplitArray(msgOfs);
      return if closed then Ok else FormatError;
    }

    method ParseChannels(i: nat, n: nat) returns (result: ParseResult)
      requires Valid() && Fronted(Model(), i, n)
      modifies this, httpReply
      ensures Valid() && httpBufLen == old(httpBufLen)
      ensures (result, Model()) == WithChannels(old(Model()), i, n)
    {
      hide Finish, StringStart, CutCommas;
      ghost var was := Model();
      CutCommasDown(i + 2, n - 1);
      httpReply[i - 2] := NUL;
      chanOfs, chanEnd := i + 1, n - 1;
      ghost var named := Cut(was, i, n).reply;
      assert httpReply[..] == named;
      var start := FindStringStart(i - 2);
      if start < 0 {
        chanOfs, chanEnd := 0, 0;
        return FormatError;
      }
      if httpReply[start - 2] == '"' {
        httpReply[start - 2] := NUL;
        assert httpReply[..] == named[start - 2 := NUL];
        var first := FindStringStart(start - 2);
        if first < 0 { return FormatError; }
        result := StoreAndSplit(first, start - 2);
      } else {
        result := StoreAndSplit(start, i - 2);
      }
    }

    method ParseLastArguments(n: nat) returns (result: ParseResult)
      requires Valid() && Bracketed(httpReply[..], n)
      modifies this, httpReply
      ensures Valid() && httpBufLen == old(httpBufLen)
      ensures (result, Model()) == ParseArguments(old(Model()), n)
    {
      hide Finish, WithChannels;
      var i := FindStringStart(n - 2);
      if i < 0 { return FormatError; }
      httpReply[n - 2] := NUL;
      assert httpReply[..] == old(httpReply[..])[n - 2 := NUL];
      if httpReply[i - 2] == '"' {
        result := ParseChannels(i, n);
      } else {
        chanOfs, chanEnd := 0, 0;
        result := StoreAndSplit(i, n - 2);
      }
    }

    method ParseSubscribeResponse(status: ErrorStatus) returns (result: ParseResult)
      requires Valid()
      modifies this, httpReply
      ensures Valid() && httpBufLen == old(httpBufLen)
      ensures (result, Model()) == Parse(old(Model()), httpBufLen, status)
      ensures result == Ok ==> Drainable(Model())
    {
      hide ParseArguments;
      ghost var was := Model();
      var n := httpBufLen;
      if n < 2 { return FormatError; }
      if status == Denied { return AccessDenied; }
      if status == EmptyGroups { return GroupEmpty; }
      if status == BadRequest { return FormatError; }
      if httpReply[n - 1] != ']' && n > 2 { n := n - 2; }
      if httpReply[0] != '[' || httpReply[n - 1] != ']' || httpReply[n - 2] != '"' { return FormatError; }
      result := ParseLastArguments(n);
      if result == Ok {
        AcceptedDrainable(was, httpBufLen, status);
      }
    }

    /** `strlen` from an offset. */
    method StringLength(from: nat) returns (length: nat)
      requires from <= httpReply.Length && StringEnd(httpReply[..], from) < httpReply.Length
      ensures from + length == StringEnd(httpReply[..], from)
    {
      length := 0;
      while httpReply[from + length] != NUL
        invariant from + length <= StringEnd(httpReply[..], from)
        decreases httpReply.Length - length
      {
        length := length + 1;
      }
    }

    /** Each call delivers the next message and leaves the rest to be drained. */
    method GetMsg() returns (message: Option<Text>)
      requires Valid() && Drainable(Model()) && msgEnd <= httpReply.Length
      modifies this`msgOfs
      ensures Drainable(Model())
      ensures var left := old(Messages(Model()));
        Messages(Model()) == (if left == [] then [] else left[1..]) &&
        message == (if left == [] then None else Some(left[0]))
    {
      if msgOfs < msgEnd {
        assert httpReply[..][msgEnd] == NUL;
        var length := StringLength(msgOfs);
        var text := httpReply[msgOfs..msgOfs + length];
        msgOfs := msgOfs + length;
        msgOfs := msgOfs + 1;
        if msgOfs - 1 <= msgEnd { return Some(text); }
      }
      return None;
    }

    method GetChannel() returns (channel: Option<Text>)
      requires Valid() && Drainable(Model()) && chanEnd <= httpReply.Length
      modifies this`chanOfs
      ensures Drainable(Model())
      ensures var left := old(Channels(Model()));
        Channels(Model()) == (if left == [] then [] else left[1..]) &&
        channel == (if left == [] then None else Some(left[0]))
    {
      if chanOfs < chanEnd {
        assert httpReply[..][chanEnd - 1] == NUL;
        var length := StringLength(chanOfs);
        var text := httpReply[chanOfs..chanOfs + length];
        chanOfs := chanOfs + length;
        chanOfs := chanOfs + 1;
        if chanOfs - 1 <= chanEnd { return Some(text); }
      }
      return None;
    }
  }
}
