/** Printing a subscribe response and parsing it back. */
module SubscribeReplyRoundTrip {
  import opened Common
  import opened ReplyText
  import opened SubscribeReply

  /** What may follow the timetoken; a group list never comes alone. */
  datatype Lists = NoLists | ChannelList(channels: seq<Text>) | GroupsAndChannels(groups: Text, channels: seq<Text>)

  function Quoted(text: Text): Text {
    ",\"" + text + "\""
  }

  function PrintLists(lists: Lists): Text {
    match lists
    case NoLists => ""
    case ChannelList(channels) => Quoted(Join(channels, ','))
    case GroupsAndChannels(groups, channels) => Quoted(groups) + Quoted(Join(channels, ','))
  }

  /** `[[m1,..,mn],"timetoken"]`, `..,"channels"]` or `..,"groups","channels"]`. */
  function Print(messages: seq<Text>, timetoken: Text, lists: Lists): Text {
    "[[" + Join(messages, ',') + "]" + Quoted(timetoken) + PrintLists(lists) + "]"
  }

  function Head(messages: seq<Text>, timetoken: Text): Text {
    "[[" + Join(messages, ',') + "]" + ",\"" + timetoken
  }

  predicate Name(name: Text) {
    name != [] && '"' !in name && ',' !in name && NUL !in name
  }

  predicate Names(names: seq<Text>) {
    names != [] && forall name :: name in names ==> Name(name)
  }

  predicate WellFormed(messages: seq<Text>, timetoken: Text, lists: Lists) {
    (forall m :: m in messages ==> Plain(m)) &&
    '"' !in timetoken && |timetoken| < TIMETOKEN_SIZE &&
    (lists.ChannelList? ==> Names(lists.channels)) &&
    (lists.GroupsAndChannels? ==> Names(lists.channels) && '"' !in lists.groups)
  }

  function ChannelsOf(lists: Lists): seq<Text> {
    if lists.NoLists? then [] else lists.channels
  }

  // ---------- lists of names ----------

  lemma {:induction false} JoinedNames(names: seq<Text>)
    requires forall name :: name in names ==> Name(name)
    ensures |Join(names, NUL)| == |Join(names, ',')|
    ensures forall k :: 0 <= k < |Join(names, ',')| ==>
      Join(names, ',')[k] != '"' &&
      Join(names, NUL)[k] == if Join(names, ',')[k] == ',' then NUL else Join(names, ',')[k]
  {
    if names != [] {
      assert Name(names[0]) by { assert names[0] in names; }
      forall name | name in names[1..] ensures Name(name) {
        assert name in names;
      }
      JoinedNames(names[1..]);
    }
  }

  lemma {:induction false} StringStartAt(text: Text, i: nat, top: int)
    requires 0 < i <= top < |text| && text[i] == '"' && text[i - 1] == ','
    requires forall k :: i < k <= top ==> text[k] != '"'
    ensures StringStart(text, top) == i
    decreases top
  {
    if i < top {
      StringStartAt(text, i, top - 1);
    }
  }

  /** Cutting the commas of a printed list of names makes it NUL-separated. */
  lemma CutNames(text: Text, from: nat, names: seq<Text>)
    requires Names(names)
    requires from + |Join(names, ',')| < |text| && text[from + |Join(names, ',')|] == NUL
    requires text[from..from + |Join(names, ',')|] == Join(names, ',')
    ensures var to := from + |Join(names, ',')|;
      CutCommas(text, from + 1, to + 1)[from..to] == Join(names, NUL)
  {
    var joined := Join(names, ',');
    var to := from + |joined|;
    var cut := CutCommas(text, from + 1, to + 1);
    JoinedNames(names);
    assert names[0] in names;
    assert joined[0] == names[0][0];
    forall k | 0 <= k < |joined| ensures cut[from..to][k] == Join(names, NUL)[k] {
      assert text[from + k] == text[from..to][k] == joined[k];
    }
  }

  // ---------- the message array ----------

  /** The text starts like a printed response, up to the end of its timetoken. */
  predicate Headed(text: Text, messages: seq<Text>, timetoken: Text) {
    var j := |Join(messages, ',')|;
    j + 5 + |timetoken| < |text| &&
    text[0] == '[' && text[2..j + 2] == Join(messages, ',') && text[j + 2] == ']' && text[j + 3] == ',' &&
    text[j + 4] == '"' && text[j + 5..j + 5 + |timetoken|] == timetoken
  }

  lemma HeadHeaded(text: Text, messages: seq<Text>, timetoken: Text)
    requires var n := |Head(messages, timetoken)|;
      n < |text| && text[..n] == Head(messages, timetoken)
    ensures Headed(text, messages, timetoken)
  {
    var joined := Join(messages, ',');
    var head := Head(messages, timetoken);
    var n := |head|;
    assert text[2..|joined| + 2] == text[..n][2..|joined| + 2] == joined;
    assert text[|joined| + 5..n] == text[..n][|joined| + 5..] == timetoken;
    assert forall k :: 0 <= k < n ==> text[k] == text[..n][k];
  }

  /** The splitter runs exactly up to where the message array was cut off. */
  lemma FinishCuts(s: Reader, i: nat, end: nat, joined: Text)
    requires 4 <= i < end < |s.reply| && s.reply[end] == NUL
    requires end - (i + 1) < TIMETOKEN_SIZE
    requires s.reply[2..i - 2] == joined && NUL !in joined
    ensures var (result, r) := Finish(s, i, end);
      result == (if Closed(Scan(OUTSIDE, joined)) then Ok else FormatError) &&
      r == s.(reply := s.reply[..2] + Split(OUTSIDE, joined) + [NUL] + s.reply[i - 1..],
              timetoken := s.reply[i + 1..end], msgOfs := 2, msgEnd := i - 2)
  {
    hide Scan, Split, StringStart, Join, Drain;
    var cut := s.reply[i - 2 := NUL];
    assert cut[2..i - 2] == joined;
    forall k | 2 <= k < i - 2 ensures cut[k] != NUL {
      assert cut[k] == joined[k - 2];
    }
    StringEndAt(cut, 2, i - 2);
    assert cut[..2] == s.reply[..2];
    assert cut[i - 2..] == [NUL] + s.reply[i - 1..];
  }

  lemma FinishPrinted(s: Reader, j: nat, messages: seq<Text>, timetoken: Text)
    requires j == |Join(messages, ',')|
    requires j + 5 + |timetoken| < |s.reply| && s.reply[j + 5 + |timetoken|] == NUL
    requires Headed(s.reply, messages, timetoken)
    requires forall m :: m in messages ==> Plain(m)
    requires |timetoken| < TIMETOKEN_SIZE
    ensures var (result, r) := Finish(s, j + 4, j + 5 + |timetoken|);
      result == Ok && r.timetoken == timetoken && |r.reply| == |s.reply| &&
      r.chanOfs == s.chanOfs && r.chanEnd == s.chanEnd && r.msgEnd <= |r.reply| &&
      Messages(r) == messages && r.reply[j + 3..] == s.reply[j + 3..]
  {
    hide Scan, Split, Finish, StringStart, Join, Drain;
    var joined := Join(messages, ',');
    JoinedPlain(messages);
    FinishCuts(s, j + 4, j + 5 + |timetoken|, joined);
    SplitMessages(messages);
    var (result, r) := Finish(s, j + 4, j + 5 + |timetoken|);
    var before := s.reply[..2] + Join(messages, NUL);
    assert |before| == j + 2;
    assert r.reply == before + [NUL] + s.reply[j + 3..];
    assert r.reply[2..j + 2] == Join(messages, NUL);
    forall m | m in messages ensures m != [] && NUL !in m {
      assert Plain(m);
    }
    DrainJoined(r.reply, 2, j + 2, j + 2, messages);
  }

  lemma {:induction false} JoinedPlain(messages: seq<Text>)
    requires forall m :: m in messages ==> Plain(m)
    ensures NUL !in Join(messages, ',')
  {
    if messages != [] {
      assert Plain(messages[0]) by { assert messages[0] in messages; }
      JoinedPlain(messages[1..]);
    }
  }

  lemma TimetokenStart(text: Text, messages: seq<Text>, timetoken: Text)
    requires Headed(text, messages, timetoken) && '"' !in timetoken
    ensures var j := |Join(messages, ',')|;
      StringStart(text, j + 4 + |timetoken|) == j + 4
  {
    var j := |Join(messages, ',')|;
    forall k | j + 4 < k <= j + 4 + |timetoken| ensures text[k] != '"' {
      assert text[k] == text[j + 5..j + 5 + |timetoken|][k - (j + 5)];
    }
    StringStartAt(text, j + 4, j + 4 + |timetoken|);
  }

  /** Changes behind the timetoken leave the head as it was. */
  lemma StillHeaded(text: Text, next: Text, messages: seq<Text>, timetoken: Text)
    requires Headed(text, messages, timetoken) && |next| == |text|
    requires forall k :: 0 <= k < |Join(messages, ',')| + 5 + |timetoken| ==> next[k] == text[k]
    ensures Headed(next, messages, timetoken)
  {
    var j := |Join(messages, ',')|;
    assert next[2..j + 2] == text[2..j + 2];
    assert next[j + 5..j + 5 + |timetoken|] == text[j + 5..j + 5 + |timetoken|];
  }

  // ---------- the three shapes ----------

  predicate Delivers(parsed: (ParseResult, Reader), messages: seq<Text>, timetoken: Text, channels: seq<Text>) {
    var (result, r) := parsed;
    result == Ok && r.timetoken == timetoken &&
    r.msgEnd <= |r.reply| && Messages(r) == messages &&
    r.chanEnd <= |r.reply| && Channels(r) == channels
  }

  lemma ParseShort(s: Reader, n: nat, i: nat)
    requires Bracketed(s.reply, n) && StringStart(s.reply, n - 3) == i
    requires 2 <= i && s.reply[i - 2] != '"'
    ensures Parse(s, n, NoError) == Finish(s.(reply := s.reply[n - 2 := NUL], chanOfs := 0, chanEnd := 0), i, n - 2)
  {
    hide Finish, WithChannels, StringStart;
  }

  lemma ParseListed(s: Reader, n: nat, i: nat)
    requires Bracketed(s.reply, n) && StringStart(s.reply, n - 3) == i
    requires 2 < i && s.reply[i - 2] == '"'
    ensures Parse(s, n, NoError) == WithChannels(s.(reply := s.reply[n - 2 := NUL]), i, n)
  {
    hide Finish, WithChannels, StringStart;
  }

  lemma WithoutLists(s: Reader, n: nat, messages: seq<Text>, timetoken: Text)
    requires WellFormed(messages, timetoken, NoLists)
    requires Headed(s.reply, messages, timetoken)
    requires n == |Join(messages, ',')| + 7 + |timetoken| <= |s.reply|
    requires s.reply[n - 2] == '"' && s.reply[n - 1] == ']'
    ensures Delivers(Parse(s, n, NoError), messages, timetoken, [])
  {
    hide Plain, Scan, Split, StringEnd, Parse, Finish, StringStart, Join;
    var j := |Join(messages, ',')|;
    TimetokenStart(s.reply, messages, timetoken);
    ParseShort(s, n, j + 4);
    var ended := s.(reply := s.reply[n - 2 := NUL], chanOfs := 0, chanEnd := 0);
    StillHeaded(s.reply, ended.reply, messages, timetoken);
    FinishPrinted(ended, j, messages, timetoken);
    assert Drain(Finish(ended, j + 4, n - 2).1.reply, 0, 0) == [];
  }

  lemma SameBehind(a: Text, b: Text, i: nat, from: nat, to: nat)
    requires i <= from <= to < |a| == |b| && a[i..] == b[i..]
    ensures a[from..to] == b[from..to] && a[to] == b[to]
  {
    assert forall k :: i <= k < |a| ==> a[k] == a[i..][k - i] && b[k] == b[i..][k - i];
  }

  /** The channel list is drained from behind the timetoken, whatever `Finish`
      does in front of it. */
  lemma ChannelsDrained(s: Reader, r: Reader, i: nat, e: nat, channels: seq<Text>)
    requires Names(channels)
    requires i + 1 + |Join(channels, ',')| == e < |s.reply| == |r.reply|
    requires s.reply[i + 1..e] == Join(channels, NUL) && s.reply[e] == NUL
    requires 0 < i && r.reply[i..] == s.reply[i..]
    requires r.chanOfs == i + 1 && r.chanEnd == e + 1
    ensures Channels(r) == channels
  {
    hide Drain, StringEnd, Join;
    JoinedNames(channels);
    SameBehind(r.reply, s.reply, i, i + 1, e);
    forall name | name in channels ensures name != [] && NUL !in name {
      assert Name(name);
    }
    DrainJoined(r.reply, i + 1, e, e + 1, channels);
  }

  /** A reader whose channel list has been cut: `i` is the quote that opened it. */
  predicate Listed(s: Reader, n: nat, i: nat, channels: seq<Text>) {
    Names(channels) && n == i + 3 + |Join(channels, ',')| <= |s.reply| && 2 < i &&
    |Join(channels, NUL)| == |Join(channels, ',')| &&
    s.reply[i + 1..n - 2] == Join(channels, NUL) && s.reply[n - 2] == NUL &&
    s.chanOfs == i + 1 && s.chanEnd == n - 1
  }

  lemma FinishListed(s: Reader, n: nat, i: nat, messages: seq<Text>, timetoken: Text, channels: seq<Text>)
    requires WellFormed(messages, timetoken, ChannelList(channels))
    requires Headed(s.reply, messages, timetoken) && Listed(s, n, i, channels)
    requires var q := |Join(messages, ',')| + 5 + |timetoken|; s.reply[q] == NUL && q + 2 <= i
    ensures var j := |Join(messages, ',')|;
      Delivers(Finish(s, j + 4, j + 5 + |timetoken|), messages, timetoken, channels)
  {
    hide Plain, Scan, Split, Drain, StringEnd, Finish, StringStart, CutCommas, Name, Join;
    var j := |Join(messages, ',')|;
    FinishPrinted(s, j, messages, timetoken);
    var r := Finish(s, j + 4, j + 5 + |timetoken|).1;
    TailKept(r.reply, s.reply, j + 3, i);
    ChannelsDrained(s, r, i, n - 2, channels);
  }

  /** A group list: quotes at `q` (closing the timetoken) and `q + 2`, none inside. */
  predicate GroupsBetween(text: Text, q: nat, i: nat) {
    q + 2 < i - 2 < |text| && text[q] == '"' && text[q + 1] == ',' && text[q + 2] == '"' &&
    forall k :: q + 2 < k < i - 2 ==> text[k] != '"'
  }

  lemma OneList(s: Reader, i: nat, n: nat, start: nat)
    requires Fronted(s, i, n)
    requires start > 2 && StringStart(Cut(s, i, n).reply, i - 3) == start && Cut(s, i, n).reply[start - 2] != '"'
    ensures WithChannels(s, i, n) == Finish(Cut(s, i, n), start, i - 2)
  {
    hide Finish, StringStart, CutCommas;
  }

  lemma TwoLists(s: Reader, i: nat, n: nat, start: nat, first: nat)
    requires Fronted(s, i, n)
    requires start > 2 && StringStart(Cut(s, i, n).reply, i - 3) == start && Cut(s, i, n).reply[start - 2] == '"'
    requires first > 2 && StringStart(Cut(s, i, n).reply[start - 2 := NUL], start - 3) == first
    ensures WithChannels(s, i, n) == Finish(Cut(s, i, n).(reply := Cut(s, i, n).reply[start - 2 := NUL]), first, start - 2)
  {
    hide Finish, StringStart, CutCommas;
  }

  /** Cutting the channel list at its commas, and the quote in front of it. */
  lemma CutListed(s: Reader, n: nat, i: nat, channels: seq<Text>)
    requires Names(channels) && n == i + 3 + |Join(channels, ',')| <= |s.reply| && 2 < i < n - 2
    requires s.reply[n - 2] == NUL && s.reply[i + 1..n - 2] == Join(channels, ',')
    ensures var r := Cut(s, i, n);
      Listed(r, n, i, channels) && |r.reply| == |s.reply| && r.reply[i - 2] == NUL &&
      forall k :: 0 <= k < i - 2 ==> r.reply[k] == s.reply[k]
  {
    JoinedNames(channels);
    CutNames(s.reply, i + 1, channels);
    var cut := CutCommas(s.reply, i + 2, n - 1);
    assert cut[i - 2 := NUL][i + 1..n - 2] == cut[i + 1..n - 2];
  }

  predicate Ready(s: Reader, n: nat, i: nat, messages: seq<Text>, timetoken: Text, channels: seq<Text>) {
    WellFormed(messages, timetoken, ChannelList(channels)) &&
    Headed(s.reply, messages, timetoken) &&
    n == i + 3 + |Join(channels, ',')| <= |s.reply| && 2 < i < n - 2 && s.reply[0] == '[' &&
    s.reply[n - 2] == NUL && s.reply[i - 2] == '"' && s.reply[i + 1..n - 2] == Join(channels, ',')
  }

  lemma Ungrouped(s: Reader, n: nat, i: nat, messages: seq<Text>, timetoken: Text, channels: seq<Text>)
    requires Ready(s, n, i, messages, timetoken, channels)
    requires i == |Join(messages, ',')| + 7 + |timetoken|
    ensures Delivers(WithChannels(s, i, n), messages, timetoken, channels)
  {
    hide Plain, Names, Listed, Delivers, Finish, WithChannels, StringStart, Cut, Join;
    var r := Cut(s, i, n);
    CutListed(s, n, i, channels);
    StillHeaded(s.reply, r.reply, messages, timetoken);
    TimetokenStart(r.reply, messages, timetoken);
    OneList(s, i, n, |Join(messages, ',')| + 4);
    FinishListed(r, n, i, messages, timetoken, channels);
  }

  lemma ListedAgain(s: Reader, n: nat, i: nat, channels: seq<Text>, k: nat)
    requires Listed(s, n, i, channels) && k < i
    ensures Listed(s.(reply := s.reply[k := NUL]), n, i, channels)
  {
    assert s.reply[k := NUL][i + 1..n - 2] == s.reply[i + 1..n - 2];
  }

  /** The group list in front of the channel list is skipped first. */
  lemma Grouped(s: Reader, n: nat, i: nat, messages: seq<Text>, timetoken: Text, channels: seq<Text>)
    requires Ready(s, n, i, messages, timetoken, channels)
    requires GroupsBetween(s.reply, |Join(messages, ',')| + 5 + |timetoken|, i)
    ensures Delivers(WithChannels(s, i, n), messages, timetoken, channels)
  {
    hide Plain, Names, Headed, Listed, Delivers, Finish, WithChannels, StringStart, Cut, CutCommas, Join, Scan, Split;
    var q := |Join(messages, ',')| + 5 + |timetoken|;
    var r := Cut(s, i, n);
    CutListed(s, n, i, channels);
    StillHeaded(s.reply, r.reply, messages, timetoken);
    StringStartAt(r.reply, q + 2, i - 3);
    var skipped := r.(reply := r.reply[q := NUL]);
    StillHeaded(r.reply, skipped.reply, messages, timetoken);
    TimetokenStart(skipped.reply, messages, timetoken);
    TwoLists(s, i, n, q + 2, |Join(messages, ',')| + 4);
    ListedAgain(r, n, i, channels, q);
    FinishListed(skipped, n, i, messages, timetoken, channels);
  }

  /** `q` closes the timetoken and `i` opens the channel list; they are two apart
      unless a group list stands between them. */
  lemma WithLists(s: Reader, n: nat, i: nat, messages: seq<Text>, timetoken: Text, channels: seq<Text>)
    requires WellFormed(messages, timetoken, ChannelList(channels))
    requires Headed(s.reply, messages, timetoken) && Bracketed(s.reply, n)
    requires n == i + 3 + |Join(channels, ',')|
    requires 2 < i && s.reply[i] == '"' && s.reply[i - 1] == ',' && s.reply[i - 2] == '"'
    requires s.reply[i + 1..n - 2] == Join(channels, ',')
    requires var q := |Join(messages, ',')| + 5 + |timetoken|;
      i == q + 2 || GroupsBetween(s.reply, q, i)
    ensures Delivers(Parse(s, n, NoError), messages, timetoken, channels)
  {
    hide Plain, Scan, Split, Drain, StringEnd, Finish, WithChannels, StringStart, CutCommas, Delivers, Parse, Name, Join;
    var ended := s.(reply := s.reply[n - 2 := NUL]);
    ListStart(s.reply, n, i, channels);
    ParseListed(s, n, i);
    StillHeaded(s.reply, ended.reply, messages, timetoken);
    assert ended.reply[i + 1..n - 2] == s.reply[i + 1..n - 2];
    assert Ready(ended, n, i, messages, timetoken, channels);
    if i == |Join(messages, ',')| + 7 + |timetoken| {
      Ungrouped(ended, n, i, messages, timetoken, channels);
    } else {
      Grouped(ended, n, i, messages, timetoken, channels);
    }
  }

  lemma ListStart(text: Text, n: nat, i: nat, channels: seq<Text>)
    requires Names(channels) && n == i + 3 + |Join(channels, ',')| <= |text|
    requires 2 < i && text[i] == '"' && text[i - 1] == ',' && text[i + 1..n - 2] == Join(channels, ',')
    ensures i < n - 3 && StringStart(text, n - 3) == i
  {
    JoinedNames(channels);
    assert channels[0] in channels;
    forall k | i < k <= n - 3 ensures text[k] != '"' {
      assert text[k] == text[i + 1..n - 2][k - (i + 1)];
    }
    StringStartAt(text, i, n - 3);
  }

  lemma TailKept(a: Text, b: Text, from: nat, to: nat)
    requires |a| == |b| && from <= to <= |a| && a[from..] == b[from..]
    ensures a[to..] == b[to..]
  {
    assert a[to..] == a[from..][to - from..];
    assert b[to..] == b[from..][to - from..];
  }

  lemma PrintedShape(text: Text, head: Text, rest: Text)
    requires text == head + rest
    ensures text[..|head|] == head
    ensures forall k :: 0 <= k < |rest| ==> text[|head| + k] == rest[k]
  {
  }

  lemma PrintedList(text: Text, before: Text, joined: Text)
    requires text == before + "\",\"" + joined + "\"]"
    ensures var i := |before| + 2;
      text[i - 2] == '"' && text[i - 1] == ',' && text[i] == '"' && |text| == i + 3 + |joined| &&
      text[i + 1..|text| - 2] == joined && text[|text| - 2] == '"' && text[|text| - 1] == ']' &&
      text[..|before|] == before
  {
  }

  predicate Holds(reply: Text, text: Text) {
    |text| <= |reply| && reply[..|text|] == text
  }

  lemma TripWithoutLists(s: Reader, messages: seq<Text>, timetoken: Text)
    requires WellFormed(messages, timetoken, NoLists)
    requires Holds(s.reply, Print(messages, timetoken, NoLists))
    ensures Delivers(Parse(s, |Print(messages, timetoken, NoLists)|, NoError), messages, timetoken, [])
  {
    hide Plain, Scan, Split, Delivers, Parse, Join;
    var text := Print(messages, timetoken, NoLists);
    var n := |text|;
    var head := Head(messages, timetoken);
    assert text == head + "\"]";
    PrintedShape(text, head, "\"]");
    assert s.reply[..|head|] == s.reply[..n][..|head|];
    HeadHeaded(s.reply, messages, timetoken);
    assert s.reply[n - 2] == s.reply[..n][n - 2] && s.reply[n - 1] == s.reply[..n][n - 1];
    WithoutLists(s, n, messages, timetoken);
  }

  /** The text is `before`, then a quote, then the quoted list, then a bracket. */
  lemma BufferShape(reply: Text, text: Text, before: Text, joined: Text)
    requires Holds(reply, text) && text == before + "\",\"" + joined + "\"]"
    ensures var i, n := |before| + 2, |text|;
      n == i + 3 + |joined| && n <= |reply| && reply[..|before|] == before && reply[i + 1..n - 2] == joined &&
      reply[i - 2] == '"' && reply[i - 1] == ',' && reply[i] == '"' && reply[n - 2] == '"' && reply[n - 1] == ']'
  {
    PrintedList(text, before, joined);
    Copied(reply, |text|, text, |before| + 2, |before|);
  }

  lemma HeadBracketed(reply: Text, messages: seq<Text>, timetoken: Text, n: nat)
    requires |Head(messages, timetoken)| + 2 <= n <= |reply|
    requires reply[..|Head(messages, timetoken)|] == Head(messages, timetoken)
    requires reply[n - 2] == '"' && reply[n - 1] == ']'
    ensures Headed(reply, messages, timetoken) && Bracketed(reply, n)
  {
    hide Join;
    HeadHeaded(reply, messages, timetoken);
  }

  lemma HeadLength(messages: seq<Text>, timetoken: Text)
    ensures |Head(messages, timetoken)| == |Join(messages, ',')| + 5 + |timetoken|
  {
  }

  lemma ChannelsPrinted(messages: seq<Text>, timetoken: Text, channels: seq<Text>)
    ensures Print(messages, timetoken, ChannelList(channels))
         == Head(messages, timetoken) + "\",\"" + Join(channels, ',') + "\"]"
  {
    hide Join;
  }

  lemma TripWithChannels(s: Reader, messages: seq<Text>, timetoken: Text, channels: seq<Text>)
    requires WellFormed(messages, timetoken, ChannelList(channels))
    requires Holds(s.reply, Print(messages, timetoken, ChannelList(channels)))
    ensures Delivers(Parse(s, |Print(messages, timetoken, ChannelList(channels))|, NoError), messages, timetoken, channels)
  {
    hide WellFormed, Delivers, Parse, Headed, Bracketed, Join, Holds, Print, Head;
    var text := Print(messages, timetoken, ChannelList(channels));
    var head := Head(messages, timetoken);
    ChannelsPrinted(messages, timetoken, channels);
    BufferShape(s.reply, text, head, Join(channels, ','));
    HeadBracketed(s.reply, messages, timetoken, |text|);
    HeadLength(messages, timetoken);
    WithLists(s, |text|, |head| + 2, messages, timetoken, channels);
  }

  lemma GroupsShape(reply: Text, head: Text, groups: Text)
    requires '"' !in groups
    requires var before := head + "\",\"" + groups;
      |before| < |reply| && reply[..|before|] == before
    ensures reply[..|head|] == head
    ensures GroupsBetween(reply, |head|, |head| + 5 + |groups|)
  {
    var before := head + "\",\"" + groups;
    assert reply[..|head|] == reply[..|before|][..|head|] == before[..|head|] == head;
    forall k | 0 <= k < |before| ensures reply[k] == before[k] {
      assert reply[k] == reply[..|before|][k];
    }
    forall k | |head| + 2 < k < |before| ensures reply[k] != '"' {
      assert before[k] == groups[k - (|head| + 3)];
    }
  }

  lemma GroupsPrinted(messages: seq<Text>, timetoken: Text, groups: Text, channels: seq<Text>)
    ensures Print(messages, timetoken, GroupsAndChannels(groups, channels))
         == (Head(messages, timetoken) + "\",\"" + groups) + "\",\"" + Join(channels, ',') + "\"]"
  {
    hide Join;
  }

  lemma TripWithGroups(s: Reader, messages: seq<Text>, timetoken: Text, groups: Text, channels: seq<Text>)
    requires WellFormed(messages, timetoken, GroupsAndChannels(groups, channels))
    requires Holds(s.reply, Print(messages, timetoken, GroupsAndChannels(groups, channels)))
    ensures Delivers(Parse(s, |Print(messages, timetoken, GroupsAndChannels(groups, channels))|, NoError), messages, timetoken, channels)
  {
    hide Plain, Name, Delivers, Parse, Headed, Bracketed, Join, Holds, Print, Head, GroupsBetween;
    var text := Print(messages, timetoken, GroupsAndChannels(groups, channels));
    var head := Head(messages, timetoken);
    var before := head + "\",\"" + groups;
    GroupsPrinted(messages, timetoken, groups, channels);
    BufferShape(s.reply, text, before, Join(channels, ','));
    GroupsShape(s.reply, head, groups);
    HeadBracketed(s.reply, messages, timetoken, |text|);
    HeadLength(messages, timetoken);
    WithLists(s, |text|, |before| + 2, messages, timetoken, channels);
  }

  /** The round trip: parsing a printed response stores its timetoken, and draining
      the two getters delivers exactly its messages and exactly its channels. What
      the buffer holds behind the response does not matter. */
  lemma RoundTrip(s: Reader, messages: seq<Text>, timetoken: Text, lists: Lists)
    requires WellFormed(messages, timetoken, lists)
    requires Holds(s.reply, Print(messages, timetoken, lists))
    ensures Delivers(Parse(s, |Print(messages, timetoken, lists)|, NoError), messages, timetoken, ChannelsOf(lists))
  {
    hide Plain, Scan, Split, Delivers, Parse, Holds, Name, Join, Print;
    match lists
    case NoLists => TripWithoutLists(s, messages, timetoken);
    case ChannelList(channels) => TripWithChannels(s, messages, timetoken, channels);
    case GroupsAndChannels(groups, channels) => TripWithGroups(s, messages, timetoken, groups, channels);
  }

  lemma Copied(reply: Text, n: nat, text: Text, i: nat, q: nat)
    requires |text| == n <= |reply| && reply[..n] == text && q <= i && 2 <= i && i + 3 <= n
    ensures reply[..q] == text[..q] && reply[i + 1..n - 2] == text[i + 1..n - 2]
    ensures forall k :: 0 <= k < n ==> reply[k] == text[k]
  {
    assert forall k :: 0 <= k < n ==> reply[k] == reply[..n][k];
  }
}
