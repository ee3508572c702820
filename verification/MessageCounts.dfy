/** Message counters of an advanced-history reply: which counter of the caller's array
    gets which count. Until a count arrives a counter holds the negated place of its
    channel's name. */
module MessageCounts {
  import opened Common

  // ---------- places in a text ----------

  /** First comma at or after `p`, or `end`. */
  function CommaFrom(t: string, p: nat, end: nat): (i: nat)
    requires end <= |t|
    ensures i >= p && (p <= end ==> i <= end) && (i < end ==> t[i] == ',')
    decreases end - p
  {
    if p >= end || t[p] == ',' then p else CommaFrom(t, p + 1, end)
  }

  function SkipBlanks(t: string, p: nat): (i: nat)
    requires p <= |t|
    ensures p <= i <= |t|
    decreases |t| - p
  {
    if p < |t| && t[p] == ' ' then SkipBlanks(t, p + 1) else p
  }

  predicate IsWhitespace(c: char) {
    c == ' ' || c == '\t' || c == '\r' || c == '\n'
  }

  function SkipWhitespace(t: string, p: nat, end: nat): (i: nat)
    requires end <= |t|
    ensures i >= p && (p <= end ==> i <= end)
    decreases end - p
  {
    if p < end && IsWhitespace(t[p]) then SkipWhitespace(t, p + 1, end) else p
  }

  function StringEnd(t: string, p: nat, end: nat, escaped: bool): (i: nat)
    requires p <= end <= |t|
    ensures p <= i <= end
    decreases end - p
  {
    if p == end || t[p] == NUL || (t[p] == '"' && !escaped) then p
    else StringEnd(t, p + 1, end, t[p] == '\\' && !escaped)
  }

  /** The last character of a primitive, so one before `p` for an empty rest. */
  function PrimitiveEnd(t: string, p: nat, end: nat): (i: nat)
    requires 0 < p <= end <= |t|
    ensures p - 1 <= i <= end
    decreases end - p
  {
    if p == end || t[p] == NUL then p
    else if IsWhitespace(t[p]) || t[p] in ",}]" then p - 1
    else PrimitiveEnd(t, p + 1, end)
  }

  function ComplexEnd(t: string, p: nat, end: nat, inString: bool, escaped: bool, brackets: int, braces: int): (i: nat)
    requires p <= end <= |t|
    ensures p <= i <= end
    decreases end - p
  {
    if p == end || t[p] == NUL then p
    else if inString then
      ComplexEnd(t, p + 1, end, t[p] != '"' || escaped, t[p] == '\\' && !escaped, brackets, braces)
    else
      var k := brackets + (if t[p] == '[' then 1 else if t[p] == ']' then -1 else 0);
      var c := braces + (if t[p] == '{' then 1 else if t[p] == '}' then -1 else 0);
      if t[p] in "]}" && k == 0 && c == 0 then p
      else ComplexEnd(t, p + 1, end, t[p] == '"', escaped && t[p] != '"', k, c)
  }

  function ElementEnd(t: string, p: nat, end: nat): (i: nat)
    requires p < end <= |t|
    ensures p <= i <= end
  {
    if t[p] == '"' then StringEnd(t, p + 1, end, false)
    else if t[p] == '{' || t[p] == '[' then ComplexEnd(t, p, end, false, false, 0, 0)
    else PrimitiveEnd(t, p + 1, end)
  }

  // ---------- counts ----------

  predicate IsDigit(c: char) {
    '0' <= c <= '9'
  }

  function Digits(t: string): (d: string)
    ensures |d| <= |t| && d == t[..|d|]
    ensures forall k :: 0 <= k < |d| ==> IsDigit(d[k])
  {
    if t == "" || !IsDigit(t[0]) then "" else t[..1] + Digits(t[1..])
  }

  function Value(digits: string): nat
    requires forall k :: 0 <= k < |digits| ==> IsDigit(digits[k])
  {
    if digits == "" then 0
    else
      var last := digits[|digits| - 1];
      assert IsDigit(last);
      Value(digits[..|digits| - 1]) * 10 + (last as int - '0' as int)
  }

  const INT_RANGE: nat := 0x1_0000_0000
  const INT_MAX: nat := 0x7fff_ffff

  /** An unsigned value seen through a signed counter. */
  function AsInt(v: int): int {
    var u := v % INT_RANGE;
    if u <= INT_MAX then u else u - INT_RANGE
  }

  predicate IsScanSpace(c: char) {
    IsWhitespace(c) || c == '\U{b}' || c == '\U{c}'
  }

  /** What reading one unsigned decimal number stores, if it stores anything. */
  function ScanCount(t: string): Option<int> {
    if t != "" && IsScanSpace(t[0]) then ScanCount(t[1..])
    else
      var negative := t != "" && t[0] == '-';
      var digits := Digits(if t != "" && (t[0] == '-' || t[0] == '+') then t[1..] else t);
      if digits == "" then None else Some(AsInt(if negative then -(Value(digits) as int) else Value(digits)))
  }

  // ---------- the requested names ----------

  /** Where the names behind the commas from `p` on start. The search for the next
      comma begins one character after the start of a name. */
  function StartsFrom(channel: string, p: nat): seq<nat>
    decreases |channel| - p, 1
  {
    if p > |channel| then [] else Rest(channel, CommaFrom(channel, p, |channel|))
  }

  /** The same from a comma or the end on. */
  function Rest(channel: string, next: nat): seq<nat>
    decreases |channel| - next, 0
  {
    if next >= |channel| then []
    else
      var start := SkipBlanks(channel, next + 1);
      [start] + StartsFrom(channel, start + 1)
  }

  lemma StartsUnfold(channel: string, p: nat)
    requires p <= |channel|
    ensures var comma := CommaFrom(channel, p, |channel|); var start := SkipBlanks(channel, if comma < |channel| then comma + 1 else 0);
      StartsFrom(channel, p) == if comma >= |channel| then [] else [start] + StartsFrom(channel, start + 1)
  {
    hide CommaFrom, SkipBlanks;
    assert StartsFrom(channel, p) == Rest(channel, CommaFrom(channel, p, |channel|));
  }

  lemma NoStarts(channel: string, p: nat)
    requires p > |channel|
    ensures StartsFrom(channel, p) == []
  {
  }

  function Starts(channel: string): seq<nat> {
    var s := SkipBlanks(channel, 0);
    [s] + StartsFrom(channel, s)
  }

  /** The offset as it is stored in a counter. */
  function Encode(start: nat): (cell: int)
    ensures cell < 0
  {
    -(start as int) - 1
  }

  function EncodeAll(starts: seq<nat>): (cells: seq<int>)
    ensures |cells| == |starts|
    ensures forall k :: 0 <= k < |starts| ==> cells[k] == Encode(starts[k])
  {
    if starts == [] then [] else [Encode(starts[0])] + EncodeAll(starts[1..])
  }

  /** `name` stands at `s` and ends there. */
  predicate NameAt(channel: string, s: nat, name: string) {
    s + |name| <= |channel| && channel[s..s + |name|] == name &&
    (s + |name| == |channel| || channel[s + |name|] in " ,")
  }

  predicate Matches(channel: string, cell: int, name: string) {
    cell < 0 && NameAt(channel, -cell - 1, name)
  }

  /** The first counter still waiting for `name`, or the number of counters. */
  function FirstMatch(channel: string, cells: seq<int>, name: string): (i: nat)
    ensures i <= |cells|
    ensures i < |cells| ==> Matches(channel, cells[i], name)
    ensures forall k :: 0 <= k < i ==> !Matches(channel, cells[k], name)
  {
    if cells == [] || Matches(channel, cells[0], name) then 0 else 1 + FirstMatch(channel, cells[1..], name)
  }

  // ---------- filling the counters ----------

  /** `stray` is what was written to the place behind the last counter, if anything. */
  datatype Tally = Tally(cells: seq<int>, stray: Option<int>, counts: nat)

  function Store(channel: string, name: string, value: int, tally: Tally): Tally {
    var i := FirstMatch(channel, tally.cells, name);
    if i < |tally.cells| then tally.(cells := tally.cells[i := value], counts := tally.counts + 1)
    else tally.(stray := Some(value), counts := tally.counts + 1)
  }

  function At(t: string, p: nat): char {
    if p < |t| then t[p] else NUL
  }

  /** The key at `p`. */
  function Key(t: string, p: nat, end: nat): string
    requires p < end <= |t|
  {
    var e := ElementEnd(t, p, end);
    if e > p then t[p + 1..e] else ""
  }

  /** Where the colon behind the key at `p` is expected. */
  function ColonAt(t: string, p: nat, end: nat): (i: nat)
    requires p < end <= |t|
    ensures i > p
  {
    SkipWhitespace(t, ElementEnd(t, p, end) + 1, end)
  }

  function CountAt(t: string, colon: nat): Option<int> {
    if At(t, colon) == ':' then ScanCount(t[colon + 1..]) else None
  }

  /** Where the search for the comma ends. */
  function EntryEnd(t: string, colon: nat, end: nat): nat
    requires end <= |t|
  {
    CommaFrom(t, if At(t, colon) == ':' then colon + 1 else colon, end)
  }

  function Fill(channel: string, t: string, p: nat, end: nat, tally: Tally): Tally
    requires end <= |t|
    decreases end - p
  {
    if p >= end || tally.counts >= |tally.cells| then tally
    else
      var colon := ColonAt(t, p, end);
      var count := CountAt(t, colon);
      var after := if count.Some? then Store(channel, Key(t, p, end), count.value, tally) else tally;
      var q := EntryEnd(t, colon, end);
      if q == end then after else Fill(channel, t, SkipWhitespace(t, q + 1, end), end, after)
  }

  /** `ofs` is behind the opening brace of the counters, `close` at the closing one. */
  function ReadCounts(channel: string, reply: string, ofs: nat, close: nat): Tally
    requires close < |reply|
  {
    var tally := Tally(EncodeAll(Starts(channel)), None, 0);
    if ofs >= close then tally
    else Fill(channel, reply, SkipWhitespace(reply, ofs, close + 1), close + 1, tally)
  }
}
