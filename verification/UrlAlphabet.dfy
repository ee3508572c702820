/** The characters a query may hold, the text of a query and the order of its keys,
    each against a description of its own. */
module UrlAlphabet {
  import opened Common
  import opened UrlParameters
  import opened UrlQuery

  // ---------- characters ----------

  const LOWER: string := "abcdefghijklmnopqrstuvwxyz"
  const UPPER: string := "ABCDEFGHIJKLMNOPQRSTUVWXYZ"
  const DIGITS: string := "0123456789"
  const MARKS: string := "-_.~,[]"

  /** The characters that travel as they are. */
  const ALPHABET: string := LOWER + UPPER + DIGITS + MARKS

  /** Characters with a meaning in a request line: none of them may come from a value. */
  const SEPARATORS: string := " &=?#/+\"\r\n\t"

  lemma LowerIs(c: char)
    ensures c in LOWER <==> 'a' <= c <= 'z'
  {
    if 'a' <= c <= 'z' {
      var k := c as int - 'a' as int;
      assert LOWER[k] == c;
    }
  }

  lemma UpperIs(c: char)
    ensures c in UPPER <==> 'A' <= c <= 'Z'
  {
    if 'A' <= c <= 'Z' {
      var k := c as int - 'A' as int;
      assert UPPER[k] == c;
    }
  }

  lemma DigitIs(c: char)
    ensures c in DIGITS <==> '0' <= c <= '9'
  {
    if '0' <= c <= '9' {
      var k := c as int - '0' as int;
      assert DIGITS[k] == c;
    }
  }

  lemma MarkIs(c: char)
    ensures c in MARKS <==> c == '-' || c == '_' || c == '.' || c == '~' || c == ',' || c == '[' || c == ']'
  {
  }

  lemma Listed(c: char)
    ensures c in ALPHABET <==> Safe(c)
  {
    hide LOWER, UPPER, DIGITS, MARKS;
    LowerIs(c);
    UpperIs(c);
    DigitIs(c);
    MarkIs(c);
  }

  /** The alphabet has 69 characters, all of them printable ASCII, and no separator. */
  lemma NoSeparatorListed(c: char)
    ensures |ALPHABET| == 69
    ensures c in ALPHABET ==> 32 < c as int < 127 && c !in SEPARATORS && c != '%'
  {
    hide LOWER, UPPER, DIGITS, MARKS;
    Lengths();
    Listed(c);
    SeparatorIs(c);
  }

  lemma Lengths()
    ensures |LOWER| == |UPPER| == 26 && |DIGITS| == 10 && |MARKS| == 7
  {
  }

  lemma SeparatorIs(c: char)
    ensures c in SEPARATORS ==> !Safe(c)
  {
  }

  /** A byte is kept as it is if and only if it is one of the listed characters. */
  lemma KeptExactlyIfListed(c: char)
    requires c as int < 256
    ensures EncodedChar(c) == [c] <==> c in ALPHABET
    ensures c !in ALPHABET ==> |EncodedChar(c)| == 3 && EncodedChar(c)[0] == '%'
  {
    hide Safe;
    Listed(c);
  }

  /** The digits of an escape are upper-case hexadecimal ones, the higher one first. */
  lemma Escapes()
    ensures EncodedChar(' ') == "%20" && EncodedChar('%') == "%25" && EncodedChar('&') == "%26"
    ensures EncodedChar('=') == "%3D" && EncodedChar('/') == "%2F" && EncodedChar('\U{fa}') == "%FA"
  {
  }

  lemma EscapeListed(c: char)
    requires c as int < 256
    ensures forall k :: 0 <= k < |EncodedChar(c)| ==> EncodedChar(c)[k] in ALPHABET || EncodedChar(c)[k] == '%'
  {
    hide Safe;
    Listed(c);
    if c !in ALPHABET {
      DigitListed(c as int / 16);
      DigitListed(c as int % 16);
    }
  }

  lemma DigitListed(n: nat)
    requires n < 16
    ensures HEX[n] in ALPHABET
  {
    Listed(HEX[n]);
  }

  /** Every character of an encoded value is a listed one or starts an escape. */
  lemma {:induction false} OnlyListed(text: string)
    requires Bytes(text)
    ensures forall k :: 0 <= k < |Encoded(text)| ==> Encoded(text)[k] in ALPHABET || Encoded(text)[k] == '%'
  {
    hide EncodedChar;
    if text != "" {
      OnlyListed(text[..|text| - 1]);
      EscapeListed(text[|text| - 1]);
    }
  }

  /** No separator, no control character and nothing outside ASCII comes from a value. */
  lemma NothingSeparates(text: string, k: nat)
    requires Bytes(text) && k < |Encoded(text)|
    ensures Encoded(text)[k] !in SEPARATORS && 32 < Encoded(text)[k] as int < 127
  {
    hide Encoded;
    OnlyListed(text);
    NoSeparatorListed(Encoded(text)[k]);
  }

  // ---------- the query ----------

  function Assignment(p: Parameter): string
    requires Bytes(p.value)
  {
    p.key + "=" + Encoded(p.value)
  }

  predicate Encodable(ps: seq<Parameter>) {
    forall k :: 0 <= k < |ps| ==> Bytes(ps[k].value)
  }

  function Assignments(ps: seq<Parameter>): string
    requires Encodable(ps)
  {
    if ps == [] then ""
    else if |ps| == 1 then Assignment(ps[0])
    else Assignments(ps[..|ps| - 1]) + "&" + Assignment(ps[|ps| - 1])
  }

  lemma AssignmentsGrow(ps: seq<Parameter>, p: Parameter)
    requires Encodable(ps) && Bytes(p.value)
    ensures Encodable(ps + [p])
    ensures Assignments(ps + [p]) == (if ps == [] then "" else Assignments(ps) + "&") + Assignment(p)
  {
    hide Bytes, Assignment;
    assert (ps + [p])[..|ps|] == ps;
  }

  lemma FieldText(s: Slot, i: nat)
    requires Sent(s) && Bytes(s.value.value)
    ensures Field(s, i) == (if i == 0 then "?" else "&") + Assignment(Parameter(s.key.value, s.value.value))
  {
    hide Encoded, Bytes;
    assert Field(s, i) == [if i == 0 then '?' else '&'] + (s.key.value + "=" + Encoded(s.value.value));
  }

  lemma ParametersSize(slots: seq<Slot>, k: nat)
    requires k <= |slots| && forall j :: 0 <= j < k ==> Sent(slots[j])
    ensures |Parameters(slots, k)| == k
  {
  }

  lemma {:induction false} QueryUpTo(slots: seq<Slot>, n: nat, k: nat)
    requires Table(slots, n) && k <= n
    ensures Encodable(Parameters(slots, k))
    ensures QueryTo(slots, k) == if k == 0 then "" else "?" + Assignments(Parameters(slots, k))
  {
    hide Bytes, Parameters, Field, Assignment, Assignments;
    if k == 0 {
      ParametersSize(slots, 0);
    } else {
      QueryUpTo(slots, n, k - 1);
      QueryStep(slots, n, k);
    }
  }

  lemma QueryStep(slots: seq<Slot>, n: nat, k: nat)
    requires Table(slots, n) && 0 < k <= n && Encodable(Parameters(slots, k - 1))
    ensures Encodable(Parameters(slots, k))
    ensures "?" + Assignments(Parameters(slots, k)) ==
      (if k == 1 then "" else "?" + Assignments(Parameters(slots, k - 1))) + Field(slots[k - 1], k - 1)
  {
    hide Bytes, Parameters, Field, Assignment, Assignments, Encodable, QueryTo;
    var s := slots[k - 1];
    var p := Parameter(s.key.value, s.value.value);
    var before := Parameters(slots, k - 1);
    ParametersSize(slots, k - 1);
    ParametersGrow(slots, k);
    AssignmentsGrow(before, p);
    FieldText(s, k - 1);
    if k > 1 {
      assert "?" + (Assignments(before) + "&" + Assignment(p)) == ("?" + Assignments(before)) + ("&" + Assignment(p));
    }
  }

  /** A query is a question mark and the assignments with ampersands between them. */
  lemma QueryText(slots: seq<Slot>, n: nat)
    requires Table(slots, n)
    ensures Encodable(Parameters(slots, n))
    ensures QueryTo(slots, |slots| - 1) == if n == 0 then "" else "?" + Assignments(Parameters(slots, n))
  {
    hide QueryTo, Assignments, Parameters, Bytes, Encodable;
    NothingBehind(slots, n, |slots| - 1);
    QueryUpTo(slots, n, n);
  }

  // ---------- the order of keys ----------

  /** `a` and `b` agree up to `k`, and there `a` ends or has the smaller byte. */
  predicate SmallerAt(a: string, b: string, k: nat) {
    k <= |a| && k < |b| && a[..k] == b[..k] && (k == |a| || a[k] < b[k])
  }

  lemma {:induction false} LessSmaller(a: string, b: string) returns (k: nat)
    requires Less(a, b)
    ensures SmallerAt(a, b, k)
  {
    k := 0;
    if a != "" && a[0] == b[0] {
      var rest := LessSmaller(a[1..], b[1..]);
      k := rest + 1;
      assert a[..k] == [a[0]] + a[1..][..rest] && b[..k] == [b[0]] + b[1..][..rest];
    }
  }

  lemma {:induction false} SmallerLess(a: string, b: string, k: nat)
    requires SmallerAt(a, b, k)
    ensures Less(a, b)
  {
    if k > 0 {
      assert a[0] == a[..k][0] && b[0] == b[..k][0];
      assert a[1..][..k - 1] == a[..k][1..] && b[1..][..k - 1] == b[..k][1..];
      SmallerLess(a[1..], b[1..], k - 1);
    }
  }

  /** The first difference decides, and a key stands before its continuations. */
  lemma FirstDifference(a: string, b: string)
    ensures Less(a, b) <==> exists k: nat :: SmallerAt(a, b, k)
  {
    hide Less, SmallerAt;
    if Less(a, b) {
      var k := LessSmaller(a, b);
    }
    if k: nat :| SmallerAt(a, b, k) {
      SmallerLess(a, b, k);
    }
  }
}
