/** Subscribe replies over JSON values, with and without the line end behind them, and
    error replies. */
module SubscribeReplyValues {
  import opened Common
  import opened ReplyText
  import opened SubscribeReply
  import opened SubscribeReplyRoundTrip
  import Json
  import ReplyJson

  function Written(values: seq<Json.Value>): (texts: seq<Text>)
    ensures |texts| == |values| && forall k :: 0 <= k < |values| ==> texts[k] == Json.Print(values[k])
  {
    if values == [] then [] else [Json.Print(values[0])] + Written(values[1..])
  }

  /** A reply is its text, perhaps with a line end of two bytes that is no bracket. */
  predicate Received(reply: Text, text: Text, length: nat) {
    length <= |reply| && text <= reply &&
    (length == |text| || (length == |text| + 2 && reply[length - 1] != ']'))
  }

  /** The two bytes of a line end are not part of the reply. */
  lemma LineEndSkipped(s: Reader, n: nat)
    requires 2 <= n && n + 2 <= |s.reply| && s.reply[n - 1] == ']' && s.reply[n + 1] != ']'
    ensures Parse(s, n + 2, NoError) == Parse(s, n, NoError)
  {
    hide ParseArguments;
  }

  /** Parsing a reply over any JSON values, a timetoken shorter than 20 and any lists
      gives back exactly the values as they were written, the timetoken and the
      channels, line end or not. */
  lemma ValuesRoundTrip(s: Reader, values: seq<Json.Value>, timetoken: Text, lists: Lists, length: nat)
    requires forall k :: 0 <= k < |values| ==> Json.Valid(values[k])
    requires '"' !in timetoken && |timetoken| < 20
    requires lists.ChannelList? || lists.GroupsAndChannels? ==> Names(lists.channels)
    requires lists.GroupsAndChannels? ==> '"' !in lists.groups
    requires Received(s.reply, Print(Written(values), timetoken, lists), length)
    ensures Delivers(Parse(s, length, NoError), Written(values), timetoken, ChannelsOf(lists))
  {
    hide Delivers, Parse, Print, WellFormed, Received, Written, Json.Valid, Names;
    WrittenWell(values, timetoken, lists);
    RoundTripAnyEnd(s, Written(values), timetoken, lists, length);
  }

  lemma RoundTripAnyEnd(s: Reader, messages: seq<Text>, timetoken: Text, lists: Lists, length: nat)
    requires WellFormed(messages, timetoken, lists) && Received(s.reply, Print(messages, timetoken, lists), length)
    ensures Delivers(Parse(s, length, NoError), messages, timetoken, ChannelsOf(lists))
  {
    hide Delivers, Parse, Print, WellFormed, Received;
    var text := Print(messages, timetoken, lists);
    ReceivedShape(s.reply, text, length);
    RoundTrip(s, messages, timetoken, lists);
    if length != |text| {
      PrintCloses(messages, timetoken, lists);
      LineEndSkipped(s, |text|);
    }
  }

  lemma ReceivedShape(reply: Text, text: Text, length: nat)
    requires Received(reply, text, length)
    ensures Holds(reply, text) && (length == |text| || (length == |text| + 2 <= |reply| && reply[length - 1] != ']'))
    ensures forall k :: 0 <= k < |text| ==> reply[k] == text[k]
  {
  }

  lemma WrittenWell(values: seq<Json.Value>, timetoken: Text, lists: Lists)
    requires forall k :: 0 <= k < |values| ==> Json.Valid(values[k])
    requires '"' !in timetoken && |timetoken| < 20
    requires lists.ChannelList? || lists.GroupsAndChannels? ==> Names(lists.channels)
    requires lists.GroupsAndChannels? ==> '"' !in lists.groups
    ensures WellFormed(Written(values), timetoken, lists)
  {
    hide Plain, Names, Json.Valid, Json.Print;
    forall m | m in Written(values) ensures Plain(m) {
      var k :| 0 <= k < |values| && Written(values)[k] == m;
      ReplyJson.ValuesArePlain(values[k]);
    }
  }

  lemma PrintCloses(messages: seq<Text>, timetoken: Text, lists: Lists)
    ensures var text := Print(messages, timetoken, lists); |text| > 2 && text[|text| - 1] == ']'
  {
  }

  /** What the status field of an error reply leads to, and nothing else does. */
  lemma StatusDecides(s: Reader, length: nat, status: ErrorStatus)
    requires length <= |s.reply|
    ensures var (result, r) := Parse(s, length, status);
      (result == AccessDenied <==> length >= 2 && status == Denied) &&
      (result == GroupEmpty <==> length >= 2 && status == EmptyGroups) &&
      (result == Ok ==> status == NoError) &&
      (length < 2 || status != NoError ==> r == s && result != Ok)
  {
    hide StringStart, Scan, Split, CutCommas;
  }
}
