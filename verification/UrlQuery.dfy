/** Percent-encoding and the query string built from the sorted table. */
module UrlQuery {
  import opened Common
  import opened UrlParameters

  // ---------- percent-encoding ----------

  const HEX: string := "0123456789ABCDEF"

  /** Characters that are sent as they are. */
  predicate Safe(c: char) {
    'a' <= c <= 'z' || 'A' <= c <= 'Z' || '0' <= c <= '9' ||
    c == '-' || c == '_' || c == '.' || c == '~' || c == ',' || c == '[' || c == ']'
  }

  /** One byte per character, and no terminator inside. */
  predicate Bytes(text: string) {
    forall k :: 0 <= k < |text| ==> 0 < text[k] as int < 256
  }

  function EncodedChar(c: char): string
    requires c as int < 256
  {
    if Safe(c) then [c] else ['%', HEX[c as int / 16], HEX[c as int % 16]]
  }

  function Encoded(text: string): string
    requires Bytes(text)
  {
    if text == "" then ""
    else Encoded(text[..|text| - 1]) + EncodedChar(text[|text| - 1])
  }

  function HexValue(c: char): nat {
    if '0' <= c <= '9' then c as nat - '0' as nat
    else if 'A' <= c <= 'F' then c as nat - 'A' as nat + 10
    else 0
  }

  /** The receiver's side: `%XX` is one byte, anything else stands for itself. */
  function Decoded(text: string): string {
    if text == "" then ""
    else if text[0] == '%' && |text| >= 3 then
      [(HexValue(text[1]) * 16 + HexValue(text[2])) as char] + Decoded(text[3..])
    else [text[0]] + Decoded(text[1..])
  }

  lemma {:induction false} DecodedFront(c: char, rest: string)
    requires c as int < 256
    ensures Decoded(EncodedChar(c) + rest) == [c] + Decoded(rest)
  {
    var one := EncodedChar(c);
    if Safe(c) {
      assert (one + rest)[1..] == rest;
    } else {
      assert (one + rest)[3..] == rest;
      var high, low := c as int / 16, c as int % 16;
      HexDigits(high);
      HexDigits(low);
      assert (one + rest)[1] == HEX[high] && (one + rest)[2] == HEX[low];
      assert high * 16 + low == c as int;
    }
  }

  lemma HexDigits(n: nat)
    requires n < 16
    ensures HexValue(HEX[n]) == n
  {
  }

  lemma {:induction false} EncodedFront(c: char, rest: string)
    requires c as int < 256 && Bytes([c] + rest)
    ensures Bytes(rest)
    ensures Encoded([c] + rest) == EncodedChar(c) + Encoded(rest)
  {
    hide EncodedChar;
    var text := [c] + rest;
    assert forall k :: 0 <= k < |rest| ==> rest[k] == text[k + 1];
    if rest == "" {
      assert text[..0] == "" && text[0] == c;
    } else {
      var shorter := [c] + rest[..|rest| - 1];
      assert text[..|text| - 1] == shorter;
      assert forall k :: 0 <= k < |shorter| ==> shorter[k] == text[k];
      EncodedFront(c, rest[..|rest| - 1]);
    }
  }

  /** Decoding what was encoded gives the value back, for every byte string. */
  lemma {:induction false} DecodeEncoded(text: string)
    requires Bytes(text)
    ensures Decoded(Encoded(text)) == text
  {
    if text != "" {
      var c, rest := text[0], text[1..];
      assert text == [c] + rest;
      EncodedFront(c, rest);
      DecodedFront(c, Encoded(rest));
      DecodeEncoded(rest);
    }
  }

  /** The encoding never contains a character that separates parameters. */
  lemma {:induction false} EncodedHides(text: string)
    requires Bytes(text)
    ensures forall k :: 0 <= k < |Encoded(text)| ==> Safe(Encoded(text)[k]) || Encoded(text)[k] == '%'
  {
    if text != "" {
      EncodedHides(text[..|text| - 1]);
      var c := text[|text| - 1] as int;
      assert forall n :: 0 <= n < 16 ==> Safe(HEX[n]);
    }
  }

  // ---------- the query ----------

  datatype Parameter = Parameter(key: string, value: string)

  /** A parameter is encoded when it has both a key and a value. */
  predicate Sent(s: Slot) { s.key.Some? && s.value.Some? }

  predicate BytesTable(slots: seq<Slot>) {
    forall k :: 0 <= k < |slots| && slots[k].value.Some? ==> Bytes(slots[k].value.value)
  }

  /** The last slot is never encoded; `?` belongs to slot 0 alone. */
  function QueryTo(slots: seq<Slot>, n: nat): string
    requires n <= |slots| && BytesTable(slots)
  {
    if n == 0 then ""
    else QueryTo(slots, n - 1) + (if Sent(slots[n - 1]) then Field(slots[n - 1], n - 1) else "")
  }

  function Field(s: Slot, i: nat): string
    requires Sent(s) && Bytes(s.value.value)
  {
    [if i == 0 then '?' else '&'] + s.key.value + "=" + Encoded(s.value.value)
  }

  /** The used slots form a prefix with a spare slot behind it, every used slot has
      a value, and no key contains a separator. */
  predicate Table(slots: seq<Slot>, n: nat) {
    n < |slots| && BytesTable(slots) &&
    (forall k :: 0 <= k < n ==> Sent(slots[k]) && '=' !in slots[k].key.value && '&' !in slots[k].key.value) &&
    (forall k :: n <= k < |slots| ==> !Used(slots[k]))
  }

  function Parameters(slots: seq<Slot>, n: nat): seq<Parameter>
    requires n <= |slots| && forall k :: 0 <= k < n ==> Sent(slots[k])
  {
    seq(n, k requires 0 <= k < n && Sent(slots[k]) => Parameter(slots[k].key.value, slots[k].value.value))
  }

  /** Position of a character, or the text's length. */
  function IndexOf(text: string, c: char): (i: nat)
    ensures i <= |text| && (i < |text| ==> text[i] == c) && c !in text[..i]
  {
    if text == "" then 0
    else if text[0] == c then 0
    else
      var rest := IndexOf(text[1..], c);
      assert text[..rest + 1] == [text[0]] + text[1..][..rest];
      rest + 1
  }

  /** The receiver's side: fields between separators, each split at its first `=`. */
  function ParseQuery(text: string): seq<Parameter>
    decreases |text|
  {
    if text == "" then []
    else
      var rest := text[1..];
      var end := IndexOf(rest, '&');
      var field := rest[..end];
      var eq := IndexOf(field, '=');
      [Parameter(field[..eq], if eq < end then Decoded(field[eq + 1..]) else "")] + ParseQuery(rest[end..])
  }

  lemma {:induction false} IndexOfAt(text: string, c: char, i: nat)
    requires i <= |text| && c !in text[..i] && (i < |text| ==> text[i] == c)
    ensures IndexOf(text, c) == i
  {
    if i > 0 {
      assert text[0] == text[..i][0];
      assert text[1..][..i - 1] == text[..i][1..];
      IndexOfAt(text[1..], c, i - 1);
    }
  }

  lemma FirstField(field: string, tail: string)
    requires '&' !in field && (tail == "" || tail[0] == '&')
    ensures var rest := field + tail; IndexOf(rest, '&') == |field| && rest[..|field|] == field && rest[|field|..] == tail
  {
    var rest := field + tail;
    assert rest[..|field|] == field && rest[|field|..] == tail;
    IndexOfAt(rest, '&', |field|);
  }

  lemma KeyOfField(key: string, encoded: string)
    requires '=' !in key
    ensures var field := key + "=" + encoded; IndexOf(field, '=') == |key| && field[..|key|] == key && field[|key| + 1..] == encoded
  {
    var field := key + "=" + encoded;
    assert field[..|key|] == key && field[|key| + 1..] == encoded;
    IndexOfAt(field, '=', |key|);
  }

  lemma ParseOne(first: char, key: string, encoded: string, tail: string)
    requires '&' !in key && '&' !in encoded && '=' !in key
    requires tail == "" || tail[0] == '&'
    ensures ParseQuery([first] + key + "=" + encoded + tail) == [Parameter(key, Decoded(encoded))] + ParseQuery(tail)
  {
    hide Decoded, IndexOf;
    var text := [first] + key + "=" + encoded + tail;
    var field := key + "=" + encoded;
    assert text[1..] == field + tail;
    FirstField(field, tail);
    KeyOfField(key, encoded);
  }

  lemma ParseField(s: Slot, i: nat, tail: string)
    requires Sent(s) && Bytes(s.value.value) && '=' !in s.key.value && '&' !in s.key.value
    requires tail == "" || tail[0] == '&'
    ensures ParseQuery(Field(s, i) + tail) == [Parameter(s.key.value, s.value.value)] + ParseQuery(tail)
  {
    hide ParseQuery, Encoded, Decoded;
    var encoded := Encoded(s.value.value);
    EncodedHides(s.value.value);
    assert '&' !in encoded;
    ParseOne(if i == 0 then '?' else '&', s.key.value, encoded, tail);
    DecodeEncoded(s.value.value);
  }

  lemma ParametersGrow(slots: seq<Slot>, k: nat)
    requires 0 < k <= |slots| && forall j :: 0 <= j < k ==> Sent(slots[j])
    ensures Parameters(slots, k) == Parameters(slots, k - 1) + [Parameter(slots[k - 1].key.value, slots[k - 1].value.value)]
  {
  }

  lemma QueryGrows(slots: seq<Slot>, n: nat, k: nat, tail: string)
    requires Table(slots, n) && 0 < k <= n
    ensures QueryTo(slots, k) + tail == QueryTo(slots, k - 1) + (Field(slots[k - 1], k - 1) + tail)
    ensures k > 1 ==> Field(slots[k - 1], k - 1)[0] == '&'
  {
    hide Encoded;
  }

  lemma {:induction false} ParseUpTo(slots: seq<Slot>, n: nat, k: nat, tail: string)
    requires Table(slots, n) && k <= n
    requires tail == "" || tail[0] == '&'
    ensures ParseQuery(QueryTo(slots, k) + tail) == Parameters(slots, k) + ParseQuery(tail)
  {
    hide ParseQuery, Field, Parameters, Encoded;
    if k == 0 {
      ParseNone(slots, tail);
    } else {
      var rest := Field(slots[k - 1], k - 1) + tail;
      ParseField(slots[k - 1], k - 1, tail);
      QueryGrows(slots, n, k, tail);
      ParametersGrow(slots, k);
      if k == 1 {
        ParseNone(slots, rest);
      } else {
        ParseUpTo(slots, n, k - 1, rest);
      }
    }
  }

  lemma ParseNone(slots: seq<Slot>, tail: string)
    requires BytesTable(slots)
    ensures ParseQuery(QueryTo(slots, 0) + tail) == Parameters(slots, 0) + ParseQuery(tail)
  {
    hide ParseQuery;
    assert QueryTo(slots, 0) + tail == tail;
  }

  lemma {:induction false} NothingBehind(slots: seq<Slot>, n: nat, k: nat)
    requires Table(slots, n) && n <= k <= |slots|
    ensures QueryTo(slots, k) == QueryTo(slots, n)
  {
    hide Field, Bytes, Encoded;
    if n < k {
      NothingBehind(slots, n, k - 1);
    }
  }

  lemma ParseNothing()
    ensures ParseQuery("") == []
  {
  }

  /** Parsing the query gives back every parameter of the table, once, in order. */
  lemma QueryRoundTrip(slots: seq<Slot>, n: nat)
    requires Table(slots, n)
    ensures ParseQuery(QueryTo(slots, |slots| - 1)) == Parameters(slots, n)
  {
    hide ParseQuery, Parameters, QueryTo;
    NothingBehind(slots, n, |slots| - 1);
    ParseNothing();
    ParseUpTo(slots, n, n, "");
    assert QueryTo(slots, n) + "" == QueryTo(slots, n);
    assert Parameters(slots, n) + [] == Parameters(slots, n);
  }

  lemma SortedTable(was: seq<Slot>, now: seq<Slot>, n: nat)
    requires Table(was, n) && Rearranged(was, now)
    ensures Table(now, n)
  {
    forall k | 0 <= k < |now| && now[k].value.Some? ensures Bytes(now[k].value.value) {
      RearrangedFrom(was, now, k);
    }
    forall k | 0 <= k < n ensures Sent(now[k]) && '=' !in now[k].key.value && '&' !in now[k].key.value {
      RearrangedFrom(was, now, k);
      var j :| 0 <= j < |was| && was[j] == now[k];
    }
  }

  lemma {:induction false} ParametersOf(slots: seq<Slot>, n: nat, p: Parameter)
    requires n <= |slots| && forall k :: 0 <= k < n ==> Sent(slots[k])
    ensures multiset(Parameters(slots, n))[p] == multiset(slots[..n])[Slot(Some(p.key), Some(p.value))]
  {
    if n > 0 {
      ParametersOf(slots, n - 1, p);
      assert slots[..n] == slots[..n - 1] + [slots[n - 1]];
      assert Parameters(slots, n) == Parameters(slots, n - 1) + [Parameter(slots[n - 1].key.value, slots[n - 1].value.value)];
    }
  }

  /** Sorting the table and encoding it: the receiver reads the same parameters, in
      key order. */
  lemma SortedQuery(was: seq<Slot>, now: seq<Slot>, n: nat)
    requires Table(was, n) && Rearranged(was, now) && Sorted(now)
    ensures Table(now, n)
    ensures var read := ParseQuery(QueryTo(now, |now| - 1));
      multiset(read) == multiset(Parameters(was, n)) &&
      forall p, q :: 0 <= p < q < |read| ==> !Less(read[q].key, read[p].key)
  {
    SortedTable(was, now, n);
    QueryRoundTrip(now, n);
    var read := Parameters(now, n);
    UsedPrefix(was, now, n);
    forall p, q | 0 <= p < q < |read| ensures !Less(read[q].key, read[p].key) {
      assert Before(now[p], now[q]);
    }
    forall p: Parameter ensures multiset(read)[p] == multiset(Parameters(was, n))[p] {
      ParametersOf(was, n, p);
      ParametersOf(now, n, p);
    }
  }

  lemma UsedPrefix(was: seq<Slot>, now: seq<Slot>, n: nat)
    requires Table(was, n) && Rearranged(was, now)
    ensures multiset(was[..n]) == multiset(now[..n])
  {
    assert was[n..] == now[n..] by {
      assert forall k :: n <= k < |was| ==> now[k] == was[k];
    }
    SameTail(was, now, n);
  }

  lemma SameTail(was: seq<Slot>, now: seq<Slot>, n: nat)
    requires n <= |was| == |now| && was[n..] == now[n..] && multiset(was) == multiset(now)
    ensures multiset(was[..n]) == multiset(now[..n])
  {
    assert was == was[..n] + was[n..] && now == now[..n] + now[n..];
    assert multiset(was[..n]) == multiset(was) - multiset(was[n..]);
    assert multiset(now[..n]) == multiset(now) - multiset(now[n..]);
  }

  /** Sorting a table with a spare slot always succeeds. */
  lemma SpareSlotSorts(was: seq<Slot>, n: nat)
    requires Table(was, n)
    ensures Sortable(was)
  {
  }
}
