/** The legacy subscribe response: what the parser leaves in the reply buffer and
    the offsets from which messages and channels are then drained. */
module SubscribeReply {
  import opened Common
  import opened ReplyText

  const TIMETOKEN_SIZE: nat := 20

  datatype ParseResult = Ok | FormatError | AccessDenied | GroupEmpty

  /** The status field of a JSON error reply, as read by the JSON helper. */
  datatype ErrorStatus = NoError | Denied | EmptyGroups | BadRequest

  datatype Reader = Reader(
    reply: Text,
    timetoken: Text,
    chanOfs: nat,
    chanEnd: nat,
    msgOfs: nat,
    msgEnd: nat)

  /** Walks back from `i` to the nearest quote; it counts only right after a comma. */
  function StringStart(text: Text, i: int): (r: int)
    requires i < |text|
    ensures r == -1 || (0 < r <= i && text[r] == '"' && text[r - 1] == ',')
    ensures r > 0 ==> forall k :: r < k <= i ==> text[k] != '"'
    decreases i
  {
    if i <= 0 then -1
    else if text[i] == '"' then (if text[i - 1] == ',' then i else -1)
    else StringStart(text, i - 1)
  }

  /** Commas in [from, to) turned into NULs. */
  function CutCommas(text: Text, from: nat, to: nat): (r: Text)
    requires to <= |text|
    ensures |r| == |text|
    ensures forall k :: 0 <= k < |text| ==>
      r[k] == if from <= k < to && text[k] == ',' then NUL else text[k]
  {
    seq(|text|, k requires 0 <= k < |text| => if from <= k < to && text[k] == ',' then NUL else text[k])
  }

  /** The last byte that counts: an optional trailing CRLF is skipped. */
  function Trimmed(text: Text, len: nat): nat
    requires 2 <= len <= |text|
  {
    if text[len - 1] != ']' && len > 2 then len - 2 else len
  }

  /** Stores the timetoken between `i` and `end`, cuts the message array off and
      splits it. */
  function Finish(s: Reader, i: nat, end: nat): (ParseResult, Reader)
    requires 2 <= i < end < |s.reply| && s.reply[end] == NUL
  {
    if end - (i + 1) >= TIMETOKEN_SIZE then
      (FormatError, s.(timetoken := []))
    else
      var cut := s.reply[i - 2 := NUL];
      var z := StringEnd(cut, 2);
      (if Closed(Scan(OUTSIDE, cut[2..z])) then Ok else FormatError,
       s.(reply := cut[..2] + Split(OUTSIDE, cut[2..z]) + cut[z..],
          timetoken := s.reply[i + 1..end],
          msgOfs := 2,
          msgEnd := i - 2))
  }

  /** The reader once the channel list at `i` has been cut at its commas, sparing
      its first byte. */
  function Cut(s: Reader, i: nat, n: nat): Reader
    requires 2 <= i < n - 2 && n <= |s.reply|
  {
    s.(reply := CutCommas(s.reply, i + 2, n - 1)[i - 2 := NUL], chanOfs := i + 1, chanEnd := n - 1)
  }

  predicate Fronted(s: Reader, i: nat, n: nat) {
    2 < i < n - 2 && n <= |s.reply| && s.reply[0] == '[' && s.reply[n - 2] == NUL && s.reply[i - 2] == '"'
  }

  /** A channel list was found: in front of it is a timetoken, or a group list that
      is skipped and then a timetoken. */
  function WithChannels(s: Reader, i: nat, n: nat): (ParseResult, Reader)
    requires Fronted(s, i, n)
  {
    var listed := Cut(s, i, n);
    var start := StringStart(listed.reply, i - 3);
    if start < 0 then
      (FormatError, listed.(chanOfs := 0, chanEnd := 0))
    else if listed.reply[start - 2] != '"' then
      Finish(listed, start, i - 2)
    else
      var skipped := listed.(reply := listed.reply[start - 2 := NUL]);
      var first := StringStart(skipped.reply, start - 3);
      if first < 0 then (FormatError, skipped) else Finish(skipped, first, start - 2)
  }

  predicate Bracketed(text: Text, n: nat) {
    2 <= n <= |text| && text[0] == '[' && text[n - 1] == ']' && text[n - 2] == '"'
  }

  /** The last argument is the timetoken, or a channel list when another string
      stands in front of it. */
  function ParseArguments(s: Reader, n: nat): (ParseResult, Reader)
    requires Bracketed(s.reply, n)
  {
    var i := StringStart(s.reply, n - 3);
    if i < 0 then (FormatError, s)
    else
      var ended := s.(reply := s.reply[n - 2 := NUL]);
      if ended.reply[i - 2] == '"' then WithChannels(ended, i, n)
      else Finish(ended.(chanOfs := 0, chanEnd := 0), i, n - 2)
  }

  function Parse(s: Reader, len: nat, status: ErrorStatus): (ParseResult, Reader)
    requires len <= |s.reply|
  {
    if len < 2 then (FormatError, s)
    else match status
      case Denied => (AccessDenied, s)
      case EmptyGroups => (GroupEmpty, s)
      case BadRequest => (FormatError, s)
      case NoError =>
        var n := Trimmed(s.reply, len);
        if s.reply[0] != '[' || s.reply[n - 1] != ']' || s.reply[n - 2] != '"' then (FormatError, s)
        else ParseArguments(s, n)
  }

  function Messages(s: Reader): seq<Text>
    requires s.msgEnd <= |s.reply|
  {
    Drain(s.reply, s.msgOfs, s.msgEnd)
  }

  function Channels(s: Reader): seq<Text>
    requires s.chanEnd <= |s.reply|
  {
    Drain(s.reply, s.chanOfs, s.chanEnd)
  }

  /** Where the getters look there is always a NUL to stop at. */
  predicate Drainable(s: Reader) {
    (s.msgOfs < s.msgEnd ==> s.msgEnd < |s.reply| && s.reply[s.msgEnd] == NUL) &&
    (s.chanOfs < s.chanEnd ==> s.chanEnd <= |s.reply| && s.reply[s.chanEnd - 1] == NUL)
  }
}
