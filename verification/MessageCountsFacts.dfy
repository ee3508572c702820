/** What the counters hold after a well-formed reply. */
module MessageCountsFacts {
  import opened Common
  import opened MessageCounts

  // ---------- requested channels ----------

  /** A requested channel with the blanks around its name. */
  datatype Requested = Requested(lead: string, name: string, trail: string)

  predicate Blank(s: string) {
    forall k :: 0 <= k < |s| ==> s[k] == ' '
  }

  /** Nothing that ends a name in a channel list. */
  predicate Plain(s: string) {
    forall k :: 0 <= k < |s| ==> s[k] != ' ' && s[k] != ',' && s[k] != NUL
  }

  predicate GoodRequest(r: Requested) {
    Blank(r.lead) && Blank(r.trail) && r.name != "" && Plain(r.name)
  }

  predicate GoodRequests(list: seq<Requested>) {
    forall k :: 0 <= k < |list| ==> GoodRequest(list[k])
  }

  predicate Here(t: string, p: nat, a: string) {
    p + |a| <= |t| && t[p..p + |a|] == a
  }

  function RequestEnd(r: Requested, p: nat): nat {
    p + |r.lead| + |r.name| + |r.trail|
  }

  /** From `p` on `t` is the list `list`, comma-separated. */
  predicate RequestsAt(t: string, p: nat, list: seq<Requested>)
    decreases list
  {
    list != [] &&
    var r := list[0]; var q := RequestEnd(r, p);
    Here(t, p, r.lead) && Here(t, p + |r.lead|, r.name) && Here(t, p + |r.lead| + |r.name|, r.trail) &&
    if |list| == 1 then q == |t| else q < |t| && t[q] == ',' && RequestsAt(t, q + 1, list[1..])
  }

  /** Where the names stand when the list starts at `base`. */
  function Places(list: seq<Requested>, base: nat): (places: seq<nat>)
    ensures |places| == |list|
  {
    if list == [] then []
    else [base + |list[0].lead|] + Places(list[1..], RequestEnd(list[0], base) + 1)
  }

  lemma {:induction false} SkipsLead(t: string, p: nat, lead: string)
    requires p + |lead| < |t| && t[p..p + |lead|] == lead && Blank(lead) && t[p + |lead|] != ' '
    ensures SkipBlanks(t, p) == p + |lead|
    decreases lead
  {
    if lead != "" {
      assert t[p] == t[p..p + |lead|][0];
      assert t[p + 1..p + |lead|] == t[p..p + |lead|][1..] == lead[1..];
      SkipsLead(t, p + 1, lead[1..]);
    }
  }

  lemma {:induction false} NoCommaIn(t: string, p: nat, q: nat, end: nat)
    requires p <= q <= end <= |t| && (forall k :: p <= k < q ==> t[k] != ',')
    requires q == end || t[q] == ','
    ensures CommaFrom(t, p, end) == q
    decreases q - p
  {
    if p < q {
      NoCommaIn(t, p + 1, q, end);
    }
  }

  lemma HereAt(t: string, p: nat, a: string)
    requires Here(t, p, a)
    ensures forall k :: p <= k < p + |a| ==> t[k] == a[k - p]
  {
    forall k | p <= k < p + |a| ensures t[k] == a[k - p] {
      assert t[k] == t[p..p + |a|][k - p];
    }
  }

  lemma LeadSkipped(t: string, p: nat, r: Requested)
    requires GoodRequest(r) && Here(t, p, r.lead) && Here(t, p + |r.lead|, r.name)
    ensures SkipBlanks(t, p) == p + |r.lead|
  {
    hide SkipBlanks, Blank;
    HereAt(t, p + |r.lead|, r.name);
    SkipsLead(t, p, r.lead);
  }

  /** Behind the name comes a blank, or what follows the entry. */
  lemma NameStands(t: string, s: nat, name: string, trail: string)
    requires Here(t, s, name) && Here(t, s + |name|, trail) && Blank(trail)
    requires s + |name| + |trail| == |t| || t[s + |name| + |trail|] == ','
    ensures NameAt(t, s, name)
  {
    HereAt(t, s + |name|, trail);
  }

  lemma NoCommaOver(t: string, s: nat, r: Requested, q: nat)
    requires GoodRequest(r) && Here(t, s, r.name) && Here(t, s + |r.name|, r.trail) && q == s + |r.name| + |r.trail|
    ensures forall k :: s <= k < q ==> t[k] != ','
  {
    HereAt(t, s, r.name);
    HereAt(t, s + |r.name|, r.trail);
  }

  lemma FirstRequest(t: string, p: nat, list: seq<Requested>)
    requires RequestsAt(t, p, list) && GoodRequest(list[0])
    ensures var r := list[0]; var s, q := p + |r.lead|, RequestEnd(r, p);
      s < q <= |t| && SkipBlanks(t, p) == s && NameAt(t, s, r.name) && CommaFrom(t, s, |t|) == CommaFrom(t, s + 1, |t|) == q
  {
    hide CommaFrom, SkipBlanks, Blank, Plain, NameAt;
    var r := list[0];
    var s, q := p + |r.lead|, RequestEnd(r, p);
    LeadSkipped(t, p, r);
    NameStands(t, s, r.name, r.trail);
    NoCommaOver(t, s, r, q);
    NoCommaIn(t, s, q, |t|);
    NoCommaIn(t, s + 1, q, |t|);
  }

  lemma RestOfRequests(t: string, p: nat, list: seq<Requested>)
    requires GoodRequests(list) && RequestsAt(t, p, list)
    ensures GoodRequest(list[0]) && GoodRequests(list[1..])
    ensures var q := RequestEnd(list[0], p);
      if |list| == 1 then q == |t| && list[1..] == [] else q < |t| && RequestsAt(t, q + 1, list[1..])
  {
    hide Here, GoodRequest;
  }

  lemma {:induction false} StartsFromPlaces(t: string, p: nat, list: seq<Requested>)
    requires GoodRequests(list) && RequestsAt(t, p, list)
    ensures var s := SkipBlanks(t, p);
      [s] + StartsFrom(t, s) == [s] + StartsFrom(t, s + 1) == Places(list, p)
    decreases list
  {
    hide StartsFrom, RequestsAt, GoodRequests, SkipBlanks, CommaFrom, GoodRequest, NameAt, RequestEnd;
    assert list != [] by { RequestsStart(t, p, list); }
    RestOfRequests(t, p, list);
    FirstRequest(t, p, list);
    var s, q := SkipBlanks(t, p), RequestEnd(list[0], p);
    StartsUnfold(t, s);
    StartsUnfold(t, s + 1);
    if |list| > 1 {
      StartsFromPlaces(t, q + 1, list[1..]);
    }
  }

  lemma RequestsStart(t: string, p: nat, list: seq<Requested>)
    requires RequestsAt(t, p, list)
    ensures list != []
  {
  }

  lemma {:induction false} NamesAtPlaces(t: string, p: nat, list: seq<Requested>, k: nat)
    requires k < |list| && GoodRequests(list) && RequestsAt(t, p, list)
    ensures NameAt(t, Places(list, p)[k], list[k].name)
    decreases list
  {
    hide Here, SkipBlanks, CommaFrom, GoodRequest, NameAt, RequestEnd;
    FirstRequest(t, p, list);
    if k > 0 {
      NamesAtPlaces(t, RequestEnd(list[0], p) + 1, list[1..], k - 1);
    }
  }

  /** At one place there is one name. */
  lemma OneNameAt(t: string, s: nat, a: string, b: string)
    requires NameAt(t, s, a) && NameAt(t, s, b) && Plain(a) && Plain(b) && |a| <= |b|
    ensures a == b
  {
    assert forall k :: 0 <= k < |b| ==> t[s..s + |b|][k] == b[k];
  }

  lemma OffsetsAre(channel: string, list: seq<Requested>, k: nat)
    requires RequestsAt(channel, 0, list) && GoodRequests(list) && k < |list|
    ensures var cells := EncodeAll(Starts(channel));
      |cells| == |list| && cells[k] == -(Places(list, 0)[k] as int) - 1
  {
    hide SkipBlanks, StartsFrom, RequestsAt, GoodRequests, Places;
    StartsFromPlaces(channel, 0, list);
  }

  /** The negative counters are the starts of the requested names, counted from one: the
      k-th counter answers to the k-th name alone. */
  lemma OffsetsDecode(channel: string, list: seq<Requested>, k: nat, name: string)
    requires RequestsAt(channel, 0, list) && GoodRequests(list) && k < |list| && Plain(name)
    ensures var cells := EncodeAll(Starts(channel));
      |cells| == |list| && cells[k] == -(Places(list, 0)[k] as int) - 1 && (Matches(channel, cells[k], name) <==> name == list[k].name)
  {
    hide Starts, NameAt, RequestsAt, Plain, Places, EncodeAll;
    OffsetsAre(channel, list, k);
    NamesAtPlaces(channel, 0, list, k);
    assert GoodRequest(list[k]);
    var s := Places(list, 0)[k];
    if NameAt(channel, s, name) {
      if |name| <= |list[k].name| {
        OneNameAt(channel, s, name, list[k].name);
      } else {
        OneNameAt(channel, s, list[k].name, name);
      }
    }
  }

  // ---------- the reply ----------

  /** One counter of the reply with the whitespace around its parts. */
  datatype Entry = Entry(before: string, name: string, between: string, after: string, zeros: string, count: nat, behind: string)

  predicate White(s: string) {
    forall k :: 0 <= k < |s| ==> s[k] == ' ' || s[k] == '\t' || s[k] == '\r' || s[k] == '\n'
  }

  /** A string body that does not end inside an escape and holds no bare quote. */
  predicate ClosedBody(s: string, escaped: bool) {
    if s == "" then !escaped
    else s[0] != NUL && (s[0] != '"' || escaped) && ClosedBody(s[1..], s[0] == '\\' && !escaped)
  }

  predicate AllDigits(s: string) {
    forall k :: 0 <= k < |s| ==> IsDigit(s[k])
  }

  predicate Zeros(s: string) {
    forall k :: 0 <= k < |s| ==> s[k] == '0'
  }

  /** A number as it is written. */
  function Decimal(n: nat): string {
    if n < 10 then [('0' as int + n) as char]
    else Decimal(n / 10) + [('0' as int + n % 10) as char]
  }

  /** The digits of an entry. */
  function Written(e: Entry): string {
    e.zeros + Decimal(e.count)
  }

  predicate GoodEntry(e: Entry) {
    White(e.before) && White(e.between) && White(e.after) && White(e.behind) && Plain(e.name) && ClosedBody(e.name, false) &&
    Zeros(e.zeros) && e.count <= 0x7fff_ffff
  }

  predicate GoodEntries(entries: seq<Entry>) {
    forall k :: 0 <= k < |entries| ==> GoodEntry(entries[k])
  }

  function QuoteAt(e: Entry, p: nat): nat { p + |e.before| }
  function ColonOf(e: Entry, p: nat): nat { QuoteAt(e, p) + 2 + |e.name| + |e.between| }
  function BehindDigits(e: Entry, p: nat): nat { ColonOf(e, p) + 1 + |e.after| + |Written(e)| }
  function EndOf(e: Entry, p: nat): nat { BehindDigits(e, p) + |e.behind| }

  /** `e` stands at `p`. */
  predicate EntryHere(t: string, p: nat, e: Entry) {
    var s, c := QuoteAt(e, p), ColonOf(e, p);
    Here(t, p, e.before) && Here(t, s, "\"") && Here(t, s + 1, e.name) && Here(t, s + 1 + |e.name|, "\"") &&
    Here(t, s + 2 + |e.name|, e.between) && Here(t, c, ":") && Here(t, c + 1, e.after) && Here(t, c + 1 + |e.after|, Written(e)) &&
    Here(t, BehindDigits(e, p), e.behind)
  }

  /** From `p` to `end` stand `entries`, comma-separated, and the closing brace. */
  predicate EntriesAt(t: string, p: nat, end: nat, entries: seq<Entry>)
    decreases entries
  {
    end <= |t| &&
    if entries == [] then p + 1 == end && t[p] == '}'
    else
      var q := EndOf(entries[0], p);
      EntryHere(t, p, entries[0]) && q < end &&
      if |entries| == 1 then q + 1 == end && t[q] == '}' else t[q] == ',' && EntriesAt(t, q + 1, end, entries[1..])
  }

  lemma {:induction false} SkipsWhite(t: string, p: nat, end: nat, w: string)
    requires end <= |t| && Here(t, p, w) && White(w) && p + |w| < end && !IsWhitespace(t[p + |w|])
    ensures SkipWhitespace(t, p, end) == p + |w|
    decreases w
  {
    if w != "" {
      HereAt(t, p, w);
      assert t[p + 1..p + |w|] == w[1..];
      SkipsWhite(t, p + 1, end, w[1..]);
    }
  }

  lemma {:induction false} EndsAtQuote(t: string, p: nat, end: nat, body: string, escaped: bool)
    requires end <= |t| && Here(t, p, body) && ClosedBody(body, escaped) && p + |body| < end && t[p + |body|] == '"'
    ensures StringEnd(t, p, end, escaped) == p + |body|
    decreases body
  {
    if body != "" {
      HereAt(t, p, body);
      assert t[p + 1..p + |body|] == body[1..];
      EndsAtQuote(t, p + 1, end, body[1..], body[0] == '\\' && !escaped);
    }
  }

  lemma {:induction false} DigitsEnd(digits: string, rest: string)
    requires AllDigits(digits) && (rest == "" || !IsDigit(rest[0]))
    ensures Digits(digits + rest) == digits
  {
    if digits != "" {
      assert (digits + rest)[0] == digits[0];
      assert (digits + rest)[1..] == digits[1..] + rest;
      DigitsEnd(digits[1..], rest);
    } else {
      assert digits + rest == rest;
    }
  }

  lemma {:induction false} Scans(after: string, digits: string, rest: string)
    requires White(after) && digits != "" && AllDigits(digits) && Value(digits) <= INT_MAX
    requires rest == "" || !IsDigit(rest[0])
    ensures ScanCount(after + (digits + rest)) == Some(Value(digits))
  {
    hide Value;
    var t := after + (digits + rest);
    if after == "" {
      assert t == digits + rest;
      assert IsDigit(digits[0]);
      assert t[0] == digits[0];
      DigitsEnd(digits, rest);
    } else {
      assert t[0] == after[0] && t[1..] == after[1..] + (digits + rest);
      assert IsWhitespace(after[0]);
      Scans(after[1..], digits, rest);
    }
  }

  // ---------- numbers ----------

  lemma ValueAppend(digits: string, d: nat)
    requires AllDigits(digits) && d < 10
    ensures AllDigits(digits + [('0' as int + d) as char])
    ensures Value(digits + [('0' as int + d) as char]) == Value(digits) * 10 + d
  {
    var last := ('0' as int + d) as char;
    assert (digits + [last])[..|digits|] == digits;
  }

  /** Reading a written number gives it back, for every number. */
  lemma {:induction false} ValueOfDecimal(n: nat)
    ensures AllDigits(Decimal(n)) && Decimal(n) != "" && Value(Decimal(n)) == n
  {
    if n < 10 {
      ValueAppend("", n);
      assert "" + Decimal(n) == Decimal(n);
    } else {
      ValueOfDecimal(n / 10);
      ValueAppend(Decimal(n / 10), n % 10);
    }
  }

  /** Zeros in front do not count. */
  lemma {:induction false} ValueOfZeros(zeros: string, digits: string)
    requires Zeros(zeros) && AllDigits(digits)
    ensures AllDigits(zeros + digits) && Value(zeros + digits) == Value(digits)
    decreases |digits|, |zeros|
  {
    if digits != "" {
      var front, last := digits[..|digits| - 1], digits[|digits| - 1];
      ValueOfZeros(zeros, front);
      assert IsDigit(last);
      assert zeros + digits == (zeros + front) + [last];
      ValueAppend(zeros + front, last as int - '0' as int);
    } else {
      assert zeros + digits == zeros;
      if zeros != "" {
        var front := zeros[..|zeros| - 1];
        ValueOfZeros(front, "");
        assert front + "" == front && zeros == front + ['0'];
        ValueAppend(front, 0);
      }
    }
  }

  lemma WrittenIs(e: Entry)
    requires GoodEntry(e)
    ensures AllDigits(Written(e)) && Written(e) != "" && Value(Written(e)) == e.count
  {
    hide Value, Decimal;
    ValueOfDecimal(e.count);
    ValueOfZeros(e.zeros, Decimal(e.count));
  }

  /** Every text of digits is one that can be written. */
  lemma {:induction false} EveryText(digits: string) returns (zeros: string)
    requires digits != "" && AllDigits(digits)
    ensures Zeros(zeros) && digits == zeros + Decimal(Value(digits))
  {
    var front, last := digits[..|digits| - 1], digits[|digits| - 1];
    assert IsDigit(last) && digits == front + [last];
    var d := last as int - '0' as int;
    ValueAppend(front, d);
    if front == "" {
      zeros := "";
      assert Value(front) == 0;
    } else {
      zeros := EveryText(front);
      if Value(front) == 0 {
        assert front == zeros + "0";
        zeros := front;
      } else {
        Next(Value(front), d);
        assert zeros + Decimal(Value(front)) + [last] == zeros + (Decimal(Value(front)) + [last]);
      }
    }
  }

  lemma Next(n: nat, d: nat)
    requires 0 < n && d < 10
    ensures Decimal(n * 10 + d) == Decimal(n) + [('0' as int + d) as char]
  {
    assert (n * 10 + d) / 10 == n && (n * 10 + d) % 10 == d;
  }

  lemma ScansWritten(n: nat)
    ensures ScanCount(Decimal(n)) == Some(AsInt(n))
    ensures ScanCount("-" + Decimal(n)) == Some(AsInt(-(n as int)))
  {
    hide Value, Decimal, Digits, AsInt;
    var digits := Decimal(n);
    ValueOfDecimal(n);
    DigitsEnd(digits, "");
    assert digits + "" == digits && IsDigit(digits[0]);
    assert ("-" + digits)[1..] == digits;
  }

  /** A number above the counters' range comes out negative, and the other way round. */
  lemma Wraps(n: nat)
    requires n < 0x1_0000_0000
    ensures n < 0x8000_0000 ==> AsInt(n) == n
    ensures n >= 0x8000_0000 ==> AsInt(n) == n - 0x1_0000_0000
    ensures 0 < n <= 0x8000_0000 ==> AsInt(-(n as int)) == -(n as int)
    ensures n > 0x8000_0000 ==> AsInt(-(n as int)) == 0x1_0000_0000 - n
  {
    if n > 0 {
      assert -(n as int) % 0x1_0000_0000 == 0x1_0000_0000 - n;
    }
  }

  lemma QuoteFound(t: string, p: nat, end: nat, e: Entry)
    requires GoodEntry(e) && EntryHere(t, p, e) && EndOf(e, p) < end <= |t|
    ensures var s := QuoteAt(e, p); t[s] == '"' && SkipWhitespace(t, p, end) == s
  {
    hide SkipWhitespace, White, ClosedBody, Value;
    HereAt(t, QuoteAt(e, p), "\"");
    SkipsWhite(t, p, end, e.before);
  }

  lemma KeyRead(t: string, p: nat, end: nat, e: Entry)
    requires GoodEntry(e) && EntryHere(t, p, e) && EndOf(e, p) < end <= |t|
    ensures var s := QuoteAt(e, p); ElementEnd(t, s, end) == s + 1 + |e.name| && Key(t, s, end) == e.name
  {
    hide StringEnd, White, ClosedBody, Value, PrimitiveEnd, ComplexEnd, SkipWhitespace;
    var s := QuoteAt(e, p);
    QuoteFound(t, p, end, e);
    HereAt(t, s + 1 + |e.name|, "\"");
    EndsAtQuote(t, s + 1, end, e.name, false);
  }

  lemma ColonFound(t: string, p: nat, end: nat, e: Entry)
    requires GoodEntry(e) && EntryHere(t, p, e) && EndOf(e, p) < end <= |t|
    ensures t[ColonOf(e, p)] == ':' && ColonAt(t, QuoteAt(e, p), end) == ColonOf(e, p)
  {
    hide SkipWhitespace, White, ClosedBody, Value, ElementEnd, Key;
    KeyRead(t, p, end, e);
    HereAt(t, ColonOf(e, p), ":");
    SkipsWhite(t, QuoteAt(e, p) + 2 + |e.name|, end, e.between);
  }

  lemma Apart(t: string, p: nat, a: string, b: string)
    requires Here(t, p, a) && Here(t, p + |a|, b)
    ensures t[p..] == a + (b + t[p + |a| + |b|..])
  {
    assert t[p..] == t[p..p + |a|] + t[p + |a|..];
    assert t[p + |a|..] == t[p + |a|..p + |a| + |b|] + t[p + |a| + |b|..];
  }

  lemma CountRead(t: string, p: nat, end: nat, e: Entry)
    requires GoodEntry(e) && EntryHere(t, p, e) && EndOf(e, p) < end <= |t| && t[EndOf(e, p)] in ",}"
    ensures CountAt(t, ColonOf(e, p)) == Some(e.count)
  {
    hide Value, ScanCount, ClosedBody, AllDigits, Here, Plain, Written;
    WrittenIs(e);
    var c, d := ColonOf(e, p), BehindDigits(e, p);
    HereAt(t, c, ":");
    HereAt(t, d, e.behind);
    Apart(t, c + 1, e.after, Written(e));
    assert t[d..][0] == t[d];
    Scans(e.after, Written(e), t[d..]);
  }

  lemma CommaRead(t: string, p: nat, end: nat, e: Entry)
    requires GoodEntry(e) && EntryHere(t, p, e) && EndOf(e, p) < end <= |t| && t[EndOf(e, p)] in ",}"
    ensures var q := EndOf(e, p); EntryEnd(t, ColonOf(e, p), end) == if t[q] == ',' then q else CommaFrom(t, q + 1, end)
  {
    hide CommaFrom, ClosedBody, Value, Plain, Here, Written;
    WrittenIs(e);
    var c, q := ColonOf(e, p), EndOf(e, p);
    HereAt(t, c, ":");
    HereAt(t, c + 1, e.after);
    HereAt(t, c + 1 + |e.after|, Written(e));
    HereAt(t, BehindDigits(e, p), e.behind);
    forall k | c + 1 <= k < q ensures t[k] != ',' {
      assert IsWhitespace(t[k]) || IsDigit(t[k]);
    }
    SkipsTo(t, c + 1, q, end);
  }

  lemma {:induction false} SkipsTo(t: string, p: nat, q: nat, end: nat)
    requires p <= q < end <= |t| && (forall k :: p <= k < q ==> t[k] != ',')
    ensures CommaFrom(t, p, end) == if t[q] == ',' then q else CommaFrom(t, q + 1, end)
    decreases q - p
  {
    if p < q {
      SkipsTo(t, p + 1, q, end);
    }
  }
}
