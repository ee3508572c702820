/** The splitter's lexer on written JSON values: it comes out of every value as it went
    in and finds no comma of its own level inside. */
module ReplyJson {
  import opened Common
  import opened ReplyText
  import opened Json

  /** Outside strings, at some depth. */
  predicate Outside(s: Lexer) {
    !s.escaped && !s.inString && s.level >= 0
  }

  /** The lexer passes a text without leaving a trace or getting less deep on its way. */
  predicate Passes(s: Lexer, text: Text) {
    Scan(s, text) == s && Split(s, text) == text && Floor(s, text)
  }

  predicate Floor(s: Lexer, text: Text) {
    forall k :: 0 <= k <= |text| ==> Scan(s, text[..k]).level >= s.level
  }

  /** Nothing at the text's own depth separates or closes. */
  predicate Whole(s: Lexer, text: Text) {
    forall k :: 0 <= k < |text| ==> !Ends(s.level, Scan(s, text[..k]), text[k])
  }

  predicate Ends(level: int, s: Lexer, c: char) {
    !s.escaped && !s.inString && s.level == level && c in ",]}"
  }

  lemma PassesJoined(s: Lexer, a: Text, b: Text)
    requires Passes(s, a) && Passes(s, b)
    ensures Passes(s, a + b)
  {
    hide Scan, Split;
    ScanJoined(s, a, b);
    SplitJoined(s, a, b);
    forall k | 0 <= k <= |a + b| ensures Scan(s, (a + b)[..k]).level >= s.level {
      PrefixJoined(s, a, b, k);
    }
  }

  /** The prefixes of two texts of which the first is passed. */
  lemma PrefixJoined(s: Lexer, a: Text, b: Text, k: nat)
    requires Scan(s, a) == s && k <= |a + b|
    ensures Scan(s, (a + b)[..k]) == if k <= |a| then Scan(s, a[..k]) else Scan(s, b[..k - |a|])
    ensures k < |a + b| && k >= |a| ==> Scan(s, (a + b)[..k]) == Scan(s, b[..k - |a|])
  {
    hide Scan;
    if k <= |a| {
      assert (a + b)[..k] == a[..k];
      if k == |a| {
        assert a[..k] == a && b[..0] == [];
        ScanNone(s);
      }
    } else {
      assert (a + b)[..k] == a + b[..k - |a|];
      ScanJoined(s, a, b[..k - |a|]);
    }
  }

  lemma ScanNone(s: Lexer)
    ensures Scan(s, []) == s
  {
  }

  lemma WholeJoined(s: Lexer, a: Text, b: Text)
    requires Scan(s, a) == s && Whole(s, a) && Whole(s, b)
    ensures Whole(s, a + b)
  {
    hide Scan, Ends;
    forall k | 0 <= k < |a + b| ensures !Ends(s.level, Scan(s, (a + b)[..k]), (a + b)[k]) {
      PrefixJoined(s, a, b, k);
    }
  }

  lemma OneChar(s: Lexer, c: char)
    ensures Scan(s, [c]) == Step(s, c) && Split(s, [c]) == [if TopComma(s, c) then NUL else c]
  {
    assert [c][..0] == [];
  }

  lemma Three(s: Lexer, a: Text, b: Text, c: Text)
    ensures Scan(s, a + b + c) == Scan(Scan(Scan(s, a), b), c)
    ensures Split(s, a + b + c) == Split(s, a) + Split(Scan(s, a), b) + Split(Scan(Scan(s, a), b), c)
  {
    hide Scan, Split;
    ScanJoined(s, a, b);
    SplitJoined(s, a, b);
    ScanJoined(s, a + b, c);
    SplitJoined(s, a + b, c);
  }

  lemma Opens(s: Lexer, c: char)
    requires Outside(s) && (c == '[' || c == '{')
    ensures Scan(s, [c]) == s.(level := s.level + 1) && Split(s, [c]) == [c]
  {
    OneChar(s, c);
  }

  lemma Closes(s: Lexer, c: char)
    requires Outside(s) && (c == ']' || c == '}')
    ensures Scan(s, [c]) == s.(level := s.level - 1) && Split(s, [c]) == [c]
  {
    OneChar(s, c);
  }

  lemma Quotes(s: Lexer)
    requires !s.escaped
    ensures Scan(s, "\"") == s.(inString := !s.inString) && Split(s, "\"") == "\""
  {
    OneChar(s, '"');
  }

  lemma FirstChar(s: Lexer, text: Text)
    requires text != []
    ensures Scan(s, text) == Scan(Step(s, text[0]), text[1..])
    ensures Split(s, text) == [if TopComma(s, text[0]) then NUL else text[0]] + Split(Step(s, text[0]), text[1..])
  {
    hide Scan, Split, Step, TopComma;
    assert text == [text[0]] + text[1..];
    OneChar(s, text[0]);
    ScanJoined(s, [text[0]], text[1..]);
    SplitJoined(s, [text[0]], text[1..]);
  }

  lemma FirstPrefix(s: Lexer, text: Text, k: nat)
    requires 0 < k <= |text|
    ensures Scan(s, text[..k]) == Scan(Step(s, text[0]), text[1..][..k - 1])
  {
    hide Scan, Step;
    assert text[..k][1..] == text[1..][..k - 1];
    FirstChar(s, text[..k]);
  }

  /** A string body stays inside its string. */
  predicate Inside(s: Lexer, text: Text) {
    forall k :: 0 <= k <= |text| ==> Scan(s, text[..k]).inString && Scan(s, text[..k]).level == s.level
  }

  lemma InsideMore(s: Lexer, text: Text, n: nat)
    requires n <= |text| && s.inString
    requires Inside(Scan(s, text[..n]), text[n..]) && Scan(s, text[..n]).level == s.level
    requires forall k :: 0 <= k < n ==> Scan(s, text[..k]).inString && Scan(s, text[..k]).level == s.level
    ensures Inside(s, text)
  {
    hide Scan;
    forall k | 0 <= k <= |text| ensures Scan(s, text[..k]).inString && Scan(s, text[..k]).level == s.level {
      if k >= n {
        assert text[..k] == text[..n] + text[n..][..k - n];
        ScanJoined(s, text[..n], text[n..][..k - n]);
      }
    }
  }

  lemma {:induction false} BodyPasses(s: Lexer, body: string)
    requires s.inString && !s.escaped && Body(body)
    ensures Scan(s, body) == s && Split(s, body) == body && Inside(s, body)
    decreases |body|
  {
    hide Scan, Split, Inside;
    if body == "" {
      NothingInside(s);
    } else {
      var n := if body[0] == '\\' then 2 else 1;
      FirstOfBody(s, body, n);
      BodyPasses(s, body[n..]);
      assert body == body[..n] + body[n..];
      ScanJoined(s, body[..n], body[n..]);
      SplitJoined(s, body[..n], body[n..]);
      InsideMore(s, body, n);
    }
  }

  lemma NothingInside(s: Lexer)
    requires s.inString
    ensures Scan(s, "") == s && Split(s, "") == "" && Inside(s, "")
  {
    assert ""[..0] == "";
  }

  /** One character of a body, or an escape and its character. */
  lemma FirstOfBody(s: Lexer, body: string, n: nat)
    requires s.inString && !s.escaped && body != "" && Body(body) && n == if body[0] == '\\' then 2 else 1
    ensures n <= |body| && Body(body[n..]) && Scan(s, body[..n]) == s && Split(s, body[..n]) == body[..n]
    ensures forall k :: 0 <= k < n ==> Scan(s, body[..k]).inString && Scan(s, body[..k]).level == s.level
  {
    hide Scan, Split;
    assert body[..0] == "" && body[..1] == [body[0]];
    ScanNone(s);
    OneChar(s, body[0]);
    if n == 2 {
      assert body[..2] == [body[0]] + [body[1]];
      ScanJoined(s, [body[0]], [body[1]]);
      SplitJoined(s, [body[0]], [body[1]]);
      OneChar(s.(escaped := true), body[1]);
    }
  }

  lemma QuotedPasses(s: Lexer, body: string)
    requires Outside(s) && Body(body)
    ensures Passes(s, "\"" + body + "\"") && Whole(s, "\"" + body + "\"")
    ensures forall k :: 0 < k < |body| + 2 ==> Scan(s, ("\"" + body + "\"")[..k]).inString
  {
    hide Scan, Split, Step, Body;
    var inside, text := s.(inString := true), "\"" + body + "\"";
    BodyPasses(inside, body);
    Quotes(s);
    Quotes(inside);
    Three(s, "\"", body, "\"");
    forall k | 0 < k < |text| ensures Scan(s, text[..k]).inString && Scan(s, text[..k]).level == s.level {
      Behind(s, "\"", body, "\"", k);
    }
    StringPasses(s, text);
  }

  lemma StringPasses(s: Lexer, text: Text)
    requires Scan(s, text) == s && Split(s, text) == text && text != [] && text[0] == '"'
    requires forall k :: 0 < k < |text| ==> Scan(s, text[..k]).inString && Scan(s, text[..k]).level == s.level
    ensures Passes(s, text) && Whole(s, text)
  {
    hide Scan, Split;
    ScanNone(s);
    assert text[..0] == [] && text[..|text|] == text;
  }

  lemma {:induction false} WordPasses(s: Lexer, text: string)
    requires Outside(s) && forall k :: 0 <= k < |text| ==> text[k] !in "\"\\[]{},:" && text[k] != NUL
    ensures Passes(s, text) && Whole(s, text)
  {
    hide Scan, Split;
    ScanNone(s);
    if text == "" {
      NothingPasses(s);
    } else {
      FirstChar(s, text);
      var c := text[0];
      assert c !in "\"\\[]{},:";
      assert Step(s, c) == s;
      OneChar(s, c);
      OneCharPasses(s, c);
      WordPasses(s, text[1..]);
      assert text == [c] + text[1..];
      PassesJoined(s, [c], text[1..]);
      WholeJoined(s, [c], text[1..]);
    }
  }

  lemma OneCharPasses(s: Lexer, c: char)
    requires Step(s, c) == s && !TopComma(s, c)
    ensures Passes(s, [c]) && (c !in ",]}" ==> Whole(s, [c]))
  {
    OneChar(s, c);
    assert [c][..0] == [] && [c][..1] == [c];
  }

  /** What is passed one level deeper is passed between its brackets, and nothing in
      between is at the outer level. */
  lemma BracketsPass(s: Lexer, inner: Text, open: char, close: char)
    requires Outside(s) && Passes(s.(level := s.level + 1), inner)
    requires (open == '[' && close == ']') || (open == '{' && close == '}')
    ensures var text := [open] + inner + [close];
      Passes(s, text) && Whole(s, text) && forall k :: 0 < k < |text| ==> Scan(s, text[..k]).level > s.level
  {
    hide Scan, Split, Passes;
    var text := [open] + inner + [close];
    BracketsScan(s, inner, open, close);
    forall k | 0 < k < |text| ensures Scan(s, text[..k]).level > s.level {
      Between(s, inner, open, close, k);
    }
    Enclosed(s, text);
  }

  lemma BracketsScan(s: Lexer, inner: Text, open: char, close: char)
    requires Outside(s) && Passes(s.(level := s.level + 1), inner)
    requires (open == '[' && close == ']') || (open == '{' && close == '}')
    ensures var text := [open] + inner + [close]; Scan(s, text) == s && Split(s, text) == text
  {
    hide Scan, Split, Floor;
    var deeper := s.(level := s.level + 1);
    Opens(s, open);
    Closes(deeper, close);
    Three(s, [open], inner, [close]);
  }

  lemma Between(s: Lexer, inner: Text, open: char, close: char, k: nat)
    requires Outside(s) && Passes(s.(level := s.level + 1), inner) && (open == '[' || open == '{') && 0 < k < |inner| + 2
    ensures Scan(s, ([open] + inner + [close])[..k]).level > s.level
  {
    hide Scan, Split, Step;
    Opens(s, open);
    Behind(s, [open], inner, [close], k);
  }

  /** A prefix that ends in the middle of three texts. */
  lemma Behind(s: Lexer, a: Text, b: Text, c: Text, k: nat)
    requires |a| <= k <= |a| + |b|
    ensures Scan(s, (a + b + c)[..k]) == Scan(Scan(s, a), b[..k - |a|])
  {
    hide Scan, Split;
    assert (a + b + c)[..k] == a + b[..k - |a|];
    ScanJoined(s, a, b[..k - |a|]);
  }

  lemma Enclosed(s: Lexer, text: Text)
    requires Scan(s, text) == s && Split(s, text) == text && text != [] && text[0] !in ",]}"
    requires forall k :: 0 < k < |text| ==> Scan(s, text[..k]).level > s.level
    ensures Passes(s, text) && Whole(s, text)
  {
    hide Scan, Split;
    ScanNone(s);
    assert text[..0] == [] && text[..|text|] == text;
  }

  lemma CommaPasses(s: Lexer)
    requires Outside(s) && s.level > 0
    ensures Passes(s, ",")
  {
    OneCharPasses(s, ',');
  }

  lemma {:induction false} ValuePasses(s: Lexer, v: Value)
    requires Outside(s) && Valid(v)
    ensures Passes(s, Print(v)) && Whole(s, Print(v))
    decreases v, 0
  {
    hide Passes, Whole, Scan, Split;
    match v
    case Quoted(body) => QuotedPasses(s, body);
    case Bare(text) => WordPasses(s, text);
    case List(items) =>
      ItemsPass(s.(level := s.level + 1), items);
      BracketsPass(s, PrintItems(items), '[', ']');
    case Record(members) =>
      MembersPass(s.(level := s.level + 1), members);
      BracketsPass(s, PrintMembers(members), '{', '}');
  }

  lemma {:induction false} ItemsPass(s: Lexer, items: seq<Value>)
    requires Outside(s) && s.level > 0 && forall k :: 0 <= k < |items| ==> Valid(items[k])
    ensures Passes(s, PrintItems(items))
    decreases items, 0
  {
    if items == [] {
      NothingPasses(s);
    } else {
      hide Passes;
      ValuePasses(s, items[0]);
      if |items| > 1 {
        ItemsPass(s, items[1..]);
        CommaPasses(s);
        PassesJoined(s, Print(items[0]), ",");
        PassesJoined(s, Print(items[0]) + ",", PrintItems(items[1..]));
      }
    }
  }

  lemma {:induction false} MembersPass(s: Lexer, members: seq<Member>)
    requires Outside(s) && s.level > 0 && forall k :: 0 <= k < |members| ==> Body(members[k].key) && Valid(members[k].value)
    ensures Passes(s, PrintMembers(members))
    decreases members, 0
  {
    if members == [] {
      NothingPasses(s);
    } else {
      hide Passes;
      var m := members[0];
      ValuePasses(s, m.value);
      MemberPasses(s, m.key, Print(m.value));
      if |members| > 1 {
        MembersPass(s, members[1..]);
        CommaPasses(s);
        PassesJoined(s, PrintMember(m), ",");
        PassesJoined(s, PrintMember(m) + ",", PrintMembers(members[1..]));
      }
    }
  }

  lemma MemberPasses(s: Lexer, key: string, value: string)
    requires Outside(s) && Body(key) && Passes(s, value)
    ensures Passes(s, "\"" + key + "\":" + value)
  {
    hide Passes;
    QuotedPasses(s, key);
    ColonPasses(s);
    PassesJoined(s, "\"" + key + "\"", ":");
    assert ("\"" + key + "\"") + ":" == "\"" + key + "\":";
    PassesJoined(s, "\"" + key + "\":", value);
  }

  lemma ColonPasses(s: Lexer)
    requires Outside(s)
    ensures Passes(s, ":")
  {
    OneCharPasses(s, ':');
  }

  lemma NothingPasses(s: Lexer)
    ensures Passes(s, "")
  {
  }

  lemma {:induction false} BodyClean(body: string)
    requires Body(body)
    ensures NUL !in body
  {
    if body != "" {
      if body[0] == '\\' {
        BodyClean(body[2..]);
        assert body == [body[0]] + ([body[1]] + body[2..]);
      } else {
        BodyClean(body[1..]);
        assert body == [body[0]] + body[1..];
      }
    }
  }

  lemma {:induction false} ValueClean(v: Value)
    requires Valid(v)
    ensures Print(v) != "" && NUL !in Print(v)
    decreases v, 0
  {
    match v
    case Quoted(body) => BodyClean(body);
    case Bare(text) =>
    case List(items) => ItemsClean(items);
    case Record(members) => MembersClean(members);
  }

  lemma {:induction false} ItemsClean(items: seq<Value>)
    requires forall k :: 0 <= k < |items| ==> Valid(items[k])
    ensures NUL !in PrintItems(items)
    decreases items, 0
  {
    if items != [] {
      ValueClean(items[0]);
      if |items| > 1 {
        ItemsClean(items[1..]);
      }
    }
  }

  lemma {:induction false} MembersClean(members: seq<Member>)
    requires forall k :: 0 <= k < |members| ==> Body(members[k].key) && Valid(members[k].value)
    ensures NUL !in PrintMembers(members)
    decreases members, 0
  {
    if members != [] {
      BodyClean(members[0].key);
      ValueClean(members[0].value);
      if |members| > 1 {
        MembersClean(members[1..]);
      }
    }
  }

  /** Every JSON value is a message that can be delivered: the splitter finds no comma
      of its own in it and comes out of it where it went in. */
  lemma ValuesArePlain(v: Value)
    requires Valid(v)
    ensures Plain(Print(v))
  {
    ValuePasses(OUTSIDE, v);
    ValueClean(v);
  }

  /** A string, an array or an object cut short never counts as closed. */
  lemma CutShortIsOpen(v: Value, k: nat)
    requires Valid(v) && !v.Bare? && 0 < k < |Print(v)|
    ensures !Closed(Scan(OUTSIDE, Print(v)[..k]))
  {
    hide Scan, Split, Passes, Whole;
    match v
    case Quoted(body) => QuotedPasses(OUTSIDE, body);
    case List(items) =>
      ItemsPass(OUTSIDE.(level := 1), items);
      BracketsPass(OUTSIDE, PrintItems(items), '[', ']');
    case Record(members) =>
      MembersPass(OUTSIDE.(level := 1), members);
      BracketsPass(OUTSIDE, PrintMembers(members), '{', '}');
  }

  lemma WholeValueIsClosed(v: Value)
    requires Valid(v)
    ensures Closed(Scan(OUTSIDE, Print(v)))
  {
    ValuePasses(OUTSIDE, v);
  }
}
