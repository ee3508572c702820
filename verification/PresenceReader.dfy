/** Reads the presence state back: a brace, quoted keys, colons, values, commas, a brace. */
module PresenceReader {
  import opened Common
  import opened NameLists
  import opened PresenceState
  import opened ReplyText
  import Json
  import ReplyJson

  datatype Field = Field(key: string, value: string)

  // ---------- the reader ----------

  /** Where a value ends: at a comma or brace outside strings at its own depth. */
  function ValueEnd(t: string, s: Lexer): (i: nat)
    ensures i <= |t|
  {
    if t == "" || (!s.escaped && !s.inString && s.level == 0 && (t[0] == ',' || t[0] == '}')) then 0
    else 1 + ValueEnd(t[1..], Step(s, t[0]))
  }

  function QuoteFrom(t: string, p: nat): (i: nat)
    requires p <= |t|
    ensures p <= i <= |t|
    decreases |t| - p
  {
    if p == |t| || t[p] == '"' then p else QuoteFrom(t, p + 1)
  }

  /** A quoted key, a colon, and what follows. */
  function ReadFields(t: string): Option<seq<Field>>
    decreases |t|
  {
    if t == "" || t[0] != '"' then None
    else
      var q := QuoteFrom(t, 1);
      if q + 1 >= |t| || t[q + 1] != ':' then None else ReadValue(t[1..q], t[q + 2..])
  }

  /** A value, then more fields behind a comma, or the closing brace and nothing. */
  function ReadValue(key: string, t: string): Option<seq<Field>>
    decreases |t|
  {
    var v := ValueEnd(t, OUTSIDE);
    if v == |t| then None
    else if t[v] == '}' then (if v + 1 == |t| then Some([Field(key, t[..v])]) else None)
    else
      var others := ReadFields(t[v + 1..]);
      if others.None? then None else Some([Field(key, t[..v])] + others.value)
  }

  function ReadObject(t: string): Option<seq<Field>> {
    if t == "" || t[0] != '{' then None
    else if t == "{}" then Some([])
    else ReadFields(t[1..])
  }

  // ---------- the state as a value ----------

  /** A state that ends where it began, with nothing at its own depth that separates. */
  predicate ClosedValue(state: string) {
    Scan(OUTSIDE, state) == OUTSIDE && ValueEnd(state, OUTSIDE) == |state|
  }

  lemma {:induction false} EndJoined(a: string, b: string, s: Lexer)
    requires ValueEnd(a, s) == |a|
    ensures ValueEnd(a + b, s) == |a| + ValueEnd(b, Scan(s, a))
    decreases |a|
  {
    hide Step, Scan;
    if a == "" {
      assert a + b == b;
      ReplyJson.ScanNone(s);
    } else {
      assert (a + b)[1..] == a[1..] + b;
      ReplyJson.FirstChar(s, a);
      EndJoined(a[1..], b, Step(s, a[0]));
    }
  }

  lemma ValueStops(state: string, rest: string)
    requires ClosedValue(state) && rest != "" && (rest[0] == ',' || rest[0] == '}')
    ensures ValueEnd(state + rest, OUTSIDE) == |state|
  {
    EndJoined(state, rest, OUTSIDE);
  }

  /** Every JSON value is such a state. */
  lemma ValuesAreClosed(v: Json.Value)
    requires Json.Valid(v)
    ensures ClosedValue(Json.Print(v))
  {
    hide Scan, Split;
    ReplyJson.ValuePasses(OUTSIDE, v);
    WholeRuns(Json.Print(v), OUTSIDE);
  }

  lemma {:induction false} WholeRuns(t: string, s: Lexer)
    requires forall k :: 0 <= k < |t| ==> !ReplyJson.Ends(0, Scan(s, t[..k]), t[k])
    ensures ValueEnd(t, s) == |t|
    decreases |t|
  {
    if t != "" {
      hide Scan, Step;
      assert t[..0] == "";
      ReplyJson.ScanNone(s);
      forall k | 0 <= k < |t[1..]| ensures !ReplyJson.Ends(0, Scan(Step(s, t[0]), t[1..][..k]), t[1..][k]) {
        ReplyJson.FirstPrefix(s, t, k + 1);
      }
      WholeRuns(t[1..], Step(s, t[0]));
    }
  }

  lemma NoTrailingComma(state: string)
    requires ClosedValue(state)
    ensures !EndsInComma(state)
  {
    hide Scan;
    if EndsInComma(state) {
      var front := state[..|state| - 1];
      assert state == front + ",";
      RunsThrough(front, ",", OUTSIDE);
      EndJoined(front, ",", OUTSIDE);
      ScanJoined(OUTSIDE, front, ",");
      ReplyJson.OneChar(Scan(OUTSIDE, front), ',');
      EscapesInside(front, OUTSIDE);
      assert false;
    }
  }

  lemma {:induction false} RunsThrough(a: string, b: string, s: Lexer)
    requires ValueEnd(a + b, s) == |a + b|
    ensures ValueEnd(a, s) == |a|
    decreases |a|
  {
    if a != "" {
      assert (a + b)[1..] == a[1..] + b;
      RunsThrough(a[1..], b, Step(s, a[0]));
    }
  }

  lemma {:induction false} EscapesInside(t: string, s: Lexer)
    requires s.escaped ==> s.inString
    ensures Scan(s, t).escaped ==> Scan(s, t).inString
  {
    if t != "" {
      EscapesInside(t[..|t| - 1], s);
    }
  }

  // ---------- reading back ----------

  function FieldsOf(names: seq<string>, state: string): seq<Field> {
    if names == [] then [] else [Field(names[0], state)] + FieldsOf(names[1..], state)
  }

  predicate QuoteFree(names: seq<string>) {
    forall k :: 0 <= k < |names| ==> '"' !in names[k]
  }

  lemma {:induction false} PairsFront(names: seq<string>, state: string)
    requires |names| > 1
    ensures Pairs(names, state) == Pair(names[0], state) + "," + Pairs(names[1..], state)
  {
    hide Pair;
    var n := |names|;
    var front, last := names[..n - 1], names[n - 1];
    if n == 2 {
      assert front == [names[0]] && names[1..] == [last];
    } else {
      PairsFront(front, state);
      assert front[1..] == names[1..][..n - 2] && front[0] == names[0];
      assert Pairs(names[1..], state) == Pairs(front[1..], state) + "," + Pair(last, state);
      assert Pairs(names, state) == (Pair(names[0], state) + "," + Pairs(front[1..], state)) + "," + Pair(last, state);
    }
  }

  lemma {:induction false} QuoteFound(t: string, p: nat, q: nat)
    requires p <= q < |t| && t[q] == '"' && (forall k :: p <= k < q ==> t[k] != '"')
    ensures QuoteFrom(t, p) == q
    decreases q - p
  {
    if p < q {
      QuoteFound(t, p + 1, q);
    }
  }

  /** One quoted key, a colon and the state, with something behind it. */
  lemma ReadsOne(name: string, state: string, rest: string)
    requires '"' !in name && ClosedValue(state) && rest != "" && (rest[0] == ',' || rest[0] == '}')
    ensures ReadFields(Pair(name, state) + rest) ==
      if rest[0] == '}' then (if |rest| == 1 then Some([Field(name, state)]) else None)
      else if ReadFields(rest[1..]).None? then None
      else Some([Field(name, state)] + ReadFields(rest[1..]).value)
  {
    hide ValueEnd, ClosedValue, QuoteFrom, Pair, ReadFields, ReadValue;
    var t, q := Pair(name, state) + rest, |name| + 1;
    KeyAt(name, state, rest);
    QuoteFound(t, 1, q);
    ValueStops(state, rest);
    assert (state + rest)[..|state|] == state && (state + rest)[|state|] == rest[0] && (state + rest)[|state| + 1..] == rest[1..];
    KeyRead(t, q);
    ValueRead(name, state + rest, |state|);
  }

  lemma KeyRead(t: string, q: nat)
    requires 1 <= q && q + 1 < |t| && t[0] == '"' && QuoteFrom(t, 1) == q && t[q + 1] == ':'
    ensures ReadFields(t) == ReadValue(t[1..q], t[q + 2..])
  {
    hide QuoteFrom, ReadValue;
  }

  lemma ValueRead(key: string, t: string, v: nat)
    requires v < |t| && ValueEnd(t, OUTSIDE) == v
    ensures ReadValue(key, t) ==
      if t[v] == '}' then (if v + 1 == |t| then Some([Field(key, t[..v])]) else None)
      else if ReadFields(t[v + 1..]).None? then None
      else Some([Field(key, t[..v])] + ReadFields(t[v + 1..]).value)
  {
    hide ValueEnd, ReadFields;
  }

  lemma KeyAt(name: string, state: string, rest: string)
    requires '"' !in name
    ensures var t, q := Pair(name, state) + rest, |name| + 1;
      |t| > q + 1 && t[0] == '"' && t[1..q] == name && t[q] == '"' && t[q + 1] == ':' && t[q + 2..] == state + rest &&
      forall k :: 1 <= k < q ==> t[k] != '"'
  {
    var t, q := Pair(name, state) + rest, |name| + 1;
    assert t == "\"" + (name + ("\":" + (state + rest)));
    forall k | 1 <= k < q ensures t[k] != '"' {
      assert t[k] == name[k - 1];
    }
  }

  lemma {:induction false} ReadsPairs(names: seq<string>, state: string)
    requires names != [] && QuoteFree(names) && ClosedValue(state)
    ensures ReadFields(Pairs(names, state) + "}") == Some(FieldsOf(names, state))
  {
    hide ReadFields, Pair, ClosedValue;
    assert '"' !in names[0];
    if |names| == 1 {
      ReadsOne(names[0], state, "}");
      assert names[1..] == [];
      assert FieldsOf(names, state) == [Field(names[0], state)];
      assert Pairs(names, state) == Pair(names[0], state);
    } else {
      PairsFront(names, state);
      ReadsPairs(names[1..], state);
      var rest := "," + (Pairs(names[1..], state) + "}");
      ReadsOne(names[0], state, rest);
      assert rest[1..] == Pairs(names[1..], state) + "}";
      assert Pairs(names, state) + "}" == Pair(names[0], state) + rest;
    }
  }

  lemma ReadsObject(names: seq<string>, state: string)
    requires QuoteFree(NonEmptyNames(names)) && ClosedValue(state)
    ensures ReadObject(Object(names, state)) == Some(FieldsOf(NonEmptyNames(names), state))
  {
    hide ReadFields, ClosedValue;
    var kept := NonEmptyNames(names);
    var t := Object(names, state);
    if kept == [] {
      assert t == "{}";
    } else {
      PairsStart(kept, state);
      assert t[1..] == Pairs(kept, state) + "}";
      assert t[1] == '"';
      ReadsPairs(kept, state);
    }
  }

  lemma {:induction false} KeptQuoteFree(names: seq<string>)
    requires QuoteFree(names)
    ensures QuoteFree(NonEmptyNames(names))
  {
    if names != [] {
      KeptQuoteFree(names[..|names| - 1]);
    }
  }

  /** For quote-free names and a state that is a value, no channel being passed over and
      the first list walked starting with a name, reading the built text gives exactly
      the non-empty names, channels first and in order, each with the state. */
  lemma StateReadsBack(channel: Option<string>, group: Option<string>, state: string)
    requires QuoteFree(Given(channel, group)) && ClosedValue(state)
    requires !(Skipped(channel) && NonEmptyNames(NamesIn(channel)) != []) && !StartsEmpty(FirstWalked(channel, group))
    ensures ReadObject(Result(Walked(channel, group), state)) == Some(FieldsOf(NonEmptyNames(Given(channel, group)), state))
  {
    hide ReadObject, Result, Object, Names, NonEmptyNames, ClosedValue, StartsEmpty;
    NoTrailingComma(state);
    BuildsObject(channel, group, state);
    KeptQuoteFree(Given(channel, group));
    ReadsObject(Given(channel, group), state);
  }

  /** The same when the state is any JSON value, as it is written. */
  lemma ValueStateReadsBack(channel: Option<string>, group: Option<string>, v: Json.Value)
    requires QuoteFree(Given(channel, group)) && Json.Valid(v)
    requires !(Skipped(channel) && NonEmptyNames(NamesIn(channel)) != []) && !StartsEmpty(FirstWalked(channel, group))
    ensures ReadObject(Result(Walked(channel, group), Json.Print(v))) ==
      Some(FieldsOf(NonEmptyNames(Given(channel, group)), Json.Print(v)))
  {
    ValuesAreClosed(v);
    StateReadsBack(channel, group, Json.Print(v));
  }
}
