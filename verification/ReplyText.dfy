/** Texts in a reply buffer: scanning for NULs and quotes, splitting an array at
    its top-level commas, joining and draining lists. */
module ReplyText {
  import opened Common

  type Text = seq<char>

  // ---------- the splitter's lexer ----------

  /** Where the splitter stands: inside an escape, inside a string, and how many
      brackets and braces deep. */
  datatype Lexer = Lexer(escaped: bool, inString: bool, level: int)

  const OUTSIDE := Lexer(false, false, 0)

  function Step(s: Lexer, c: char): Lexer {
    if s.escaped then s.(escaped := false)
    else if c == '"' then s.(inString := !s.inString)
    else if s.inString then s.(escaped := c == '\\')
    else if c == '[' || c == '{' then s.(level := s.level + 1)
    else if c == ']' || c == '}' then s.(level := s.level - 1)
    else s
  }

  predicate TopComma(s: Lexer, c: char) {
    !s.escaped && !s.inString && s.level == 0 && c == ','
  }

  predicate Closed(s: Lexer) {
    !(s.escaped || s.inString || s.level > 0)
  }

  function Scan(s: Lexer, text: Text): Lexer {
    if text == [] then s else Step(Scan(s, text[..|text| - 1]), text[|text| - 1])
  }

  /** The text with its top-level commas turned into NULs. */
  function Split(s: Lexer, text: Text): (r: Text)
    ensures |r| == |text|
  {
    if text == [] then []
    else
      var before := text[..|text| - 1];
      var c := text[|text| - 1];
      Split(s, before) + [if TopComma(Scan(s, before), c) then NUL else c]
  }

  lemma Appended(a: Text, b: Text)
    requires b != []
    ensures (a + b)[..|a + b| - 1] == a + b[..|b| - 1] && (a + b)[|a + b| - 1] == b[|b| - 1] && a + b != []
  {
  }

  lemma {:induction false} ScanJoined(s: Lexer, a: Text, b: Text)
    ensures Scan(s, a + b) == Scan(Scan(s, a), b)
  {
    hide Step;
    if b == [] {
      assert a + b == a;
    } else {
      ScanJoined(s, a, b[..|b| - 1]);
      Appended(a, b);
    }
  }

  lemma {:induction false} SplitJoined(s: Lexer, a: Text, b: Text)
    ensures Split(s, a + b) == Split(s, a) + Split(Scan(s, a), b)
  {
    hide Scan, TopComma;
    if b == [] {
      assert a + b == a;
    } else {
      var before, c := b[..|b| - 1], b[|b| - 1];
      SplitJoined(s, a, before);
      Appended(a, b);
      ScanJoined(s, a, before);
      var last := if TopComma(Scan(s, a + before), c) then NUL else c;
      assert Split(s, a + b) == Split(s, a + before) + [last];
      assert Split(Scan(s, a), b) == Split(Scan(s, a), before) + [last];
    }
  }

  /** Exactly the commas outside strings at level 0 are changed. */
  lemma {:induction false} SplitChangesTopCommas(text: Text, k: nat)
    requires k < |text|
    ensures Split(OUTSIDE, text)[k] ==
            if TopComma(Scan(OUTSIDE, text[..k]), text[k]) then NUL else text[k]
  {
    var before := text[..|text| - 1];
    if k < |before| {
      SplitChangesTopCommas(before, k);
      assert before[..k] == text[..k];
    }
  }

  // ---------- NUL-ended strings ----------

  /** Index of the first NUL at or after `from`, or the text's length. */
  function StringEnd(text: Text, from: nat): (z: nat)
    requires from <= |text|
    ensures from <= z <= |text|
    ensures z < |text| ==> text[z] == NUL
    ensures forall k :: from <= k < z ==> text[k] != NUL
    decreases |text| - from
  {
    if from == |text| || text[from] == NUL then from else StringEnd(text, from + 1)
  }

  lemma StringEndAt(text: Text, from: nat, z: nat)
    requires from <= z < |text| && text[z] == NUL
    requires forall k :: from <= k < z ==> text[k] != NUL
    ensures StringEnd(text, from) == z
  {
  }

  // ---------- lists ----------

  function Join(items: seq<Text>, separator: char): Text {
    if items == [] then []
    else if |items| == 1 then items[0]
    else items[0] + [separator] + Join(items[1..], separator)
  }

  /** The NUL-separated pieces of a text. */
  function Pieces(text: Text): (r: seq<Text>)
    ensures r != []
  {
    if text == [] then [[]]
    else if text[0] == NUL then [[]] + Pieces(text[1..])
    else
      var rest := Pieces(text[1..]);
      [[text[0]] + rest[0]] + rest[1..]
  }

  /** Joining the pieces with the separator that was replaced gives back the text. */
  function Restore(text: Text, separator: char): Text {
    if text == [] then []
    else [if text[0] == NUL then separator else text[0]] + Restore(text[1..], separator)
  }

  lemma {:induction false} JoinPieces(text: Text, separator: char)
    ensures Join(Pieces(text), separator) == Restore(text, separator)
  {
    if text != [] {
      var rest := Pieces(text[1..]);
      JoinPieces(text[1..], separator);
      if text[0] == NUL {
        assert Pieces(text)[1..] == rest;
      } else {
        assert Pieces(text)[1..] == rest[1..];
        if |rest| > 1 {
          assert Join(Pieces(text), separator) == ([text[0]] + rest[0]) + [separator] + Join(rest[1..], separator);
        }
      }
    }
  }

  lemma {:induction false} RestoreJoined(a: Text, b: Text, separator: char)
    ensures Restore(a + b, separator) == Restore(a, separator) + Restore(b, separator)
  {
    if a == [] {
      assert a + b == b;
    } else {
      assert (a + b)[1..] == a[1..] + b;
      RestoreJoined(a[1..], b, separator);
    }
  }

  /** The splitter loses nothing: joining what it leaves with commas is the text. */
  lemma {:induction false} SplitLosesNothing(s: Lexer, text: Text)
    requires NUL !in text
    ensures Join(Pieces(Split(s, text)), ',') == text
  {
    SplitRestored(s, text);
    JoinPieces(Split(s, text), ',');
  }

  lemma {:induction false} SplitRestored(s: Lexer, text: Text)
    requires NUL !in text
    ensures Restore(Split(s, text), ',') == text
  {
    if text != [] {
      var before := text[..|text| - 1];
      SplitRestored(s, before);
      var last := Split(s, text)[|before|..];
      assert Split(s, text) == Split(s, before) + last;
      RestoreJoined(Split(s, before), last, ',');
      assert Restore(last, ',') == [text[|text| - 1]];
      assert text == before + [text[|text| - 1]];
    }
  }

  /** A message the splitter leaves alone and comes out of where it went in. */
  predicate Plain(message: Text) {
    message != [] && NUL !in message &&
    Scan(OUTSIDE, message) == OUTSIDE && Split(OUTSIDE, message) == message
  }

  lemma {:induction false} SplitMessages(messages: seq<Text>)
    requires forall m :: m in messages ==> Plain(m)
    ensures Scan(OUTSIDE, Join(messages, ',')) == OUTSIDE
    ensures Split(OUTSIDE, Join(messages, ',')) == Join(messages, NUL)
  {
    if |messages| == 1 {
      assert messages[0] in messages;
    } else if messages != [] {
      assert messages[0] in messages;
      var head, rest := messages[0], Join(messages[1..], ',');
      SplitMessages(messages[1..]);
      ScanJoined(OUTSIDE, head + [','], rest);
      ScanJoined(OUTSIDE, head, [',']);
      SplitJoined(OUTSIDE, head + [','], rest);
      SplitJoined(OUTSIDE, head, [',']);
      assert [','][..0] == [];
      assert Scan(OUTSIDE, [',']) == OUTSIDE && Split(OUTSIDE, [',']) == [NUL];
      assert head + [','] + rest == Join(messages, ',');
    }
  }

  /** What repeated calls of a getter deliver from a region of NUL-ended strings. */
  function Drain(text: Text, from: nat, end: nat): seq<Text>
    requires end <= |text|
    decreases end - from
  {
    if from >= end then []
    else
      var z := StringEnd(text, from);
      if z <= end then [text[from..z]] + Drain(text, z + 1, end) else []
  }

  lemma JoinParts(items: seq<Text>, separator: char)
    requires |items| > 1
    ensures var joined := Join(items, separator);
      |joined| > |items[0]| && joined[..|items[0]|] == items[0] && joined[|items[0]|] == separator &&
      joined[|items[0]| + 1..] == Join(items[1..], separator)
  {
  }

  lemma DrainOne(text: Text, from: nat, stop: nat, end: nat)
    requires from < end <= |text| && from <= stop <= end && stop < |text| && text[stop] == NUL
    requires NUL !in text[from..stop]
    ensures Drain(text, from, end) == [text[from..stop]] + Drain(text, stop + 1, end)
  {
    forall k | from <= k < stop ensures text[k] != NUL {
      assert text[k] == text[from..stop][k - from];
    }
    StringEndAt(text, from, stop);
  }

  /** A NUL-joined list of non-empty names is drained name by name. The region may
      end at the last NUL or just behind it. */
  lemma {:induction false} DrainJoined(text: Text, from: nat, z: nat, end: nat, items: seq<Text>)
    requires from <= z < |text| && text[z] == NUL && text[from..z] == Join(items, NUL)
    requires end == z || (end == z + 1 && items != [])
    requires forall item :: item in items ==> item != [] && NUL !in item
    ensures Drain(text, from, end) == items
    decreases |items|
  {
    hide Drain, StringEnd;
    if items == [] {
      DrainNothing(text, from, end);
    } else if |items| == 1 {
      assert items[0] in items;
      DrainOne(text, from, z, end);
      DrainNothing(text, z + 1, end);
    } else {
      var stop := from + |items[0]|;
      assert items[0] in items;
      JoinParts(items, NUL);
      assert text[from..stop] == text[from..z][..|items[0]|];
      assert text[stop] == text[from..z][|items[0]|];
      assert text[stop + 1..z] == text[from..z][|items[0]| + 1..];
      forall item | item in items[1..] ensures item != [] && NUL !in item {
        assert item in items;
      }
      DrainOne(text, from, stop, end);
      DrainJoined(text, stop + 1, z, end, items[1..]);
    }
  }

  lemma DrainNothing(text: Text, from: nat, end: nat)
    requires from >= end && end <= |text|
    ensures Drain(text, from, end) == []
  {
  }
}
