/** Builds the presence state in the buffer the context keeps between calls. */
module PresenceStateBuilder {
  import opened Common
  import opened NameLists
  import opened PresenceState

  /** Index of the NUL that ends the string. */
  function StrLen(s: string): (n: nat)
    requires NUL in s
    ensures n < |s| && s[n] == NUL
    ensures forall k :: 0 <= k < n ==> s[k] != NUL
  {
    if s[0] == NUL then 0 else 1 + StrLen(s[1..])
  }

  lemma {:induction false} BuiltGrows(names: seq<string>, m: nat, n: nat, state: string)
    requires m <= n <= |names|
    ensures |Built(names, m, state)| <= |Built(names, n, state)|
  {
    if m < n {
      BuiltGrows(names, m, n - 1, state);
    }
  }

  /** What one name adds, with the comma it may need. */
  function Separator(names: seq<string>, n: nat, state: string): string
    requires n < |names|
  {
    if n > 0 && !EndsInComma(Built(names, n, state)) then "," else ""
  }

  lemma BuiltStep(names: seq<string>, n: nat, state: string)
    requires n < |names|
    ensures Built(names, n + 1, state) == Built(names, n, state) + Separator(names, n, state) + (if names[n] == "" then "" else Pair(names[n], state))
  {
    hide Pair, EndsInComma;
    var before := Built(names, n, state);
    assert before + "" == before;
    assert before + "," + "" == before + ",";
  }

  lemma FirstName(list: string)
    ensures var i := CommaAt(list);
      Names(list)[0] == list[..i] && (i == |list| <==> |Names(list)| == 1) && (i < |list| ==> Names(list)[1..] == Names(list[i + 1..]))
  {
    assert list[..|list|] == list;
  }

  lemma NamesSkip(list: string)
    requires list != ""
    ensures |Names(list)| == |Names(list[1..])| + if list[0] == ',' then 1 else 0
  {
    hide Names, CommaAt;
    var rest := list[1..];
    CommaNext(list);
    FirstName(list);
    FirstName(rest);
    var i := CommaAt(list);
    NamesCount(list);
    if list[0] != ',' {
      NamesCount(rest);
      if i < |list| {
        assert rest[i..] == list[i + 1..];
      }
    }
  }

  lemma CommaNext(list: string)
    requires list != ""
    ensures CommaAt(list) == if list[0] == ',' then 0 else 1 + CommaAt(list[1..])
  {
  }

  lemma NamesCount(list: string)
    ensures var i := CommaAt(list); |Names(list)| == if i == |list| then 1 else 1 + |Names(list[i + 1..])|
  {
    hide CommaAt;
  }

  /** One more than the commas. */
  method CountNames(list: string) returns (total: nat)
    ensures total == |Names(list)|
  {
    hide Names;
    total := 1;
    var i := 0;
    assert list[0..] == list;
    while i < |list|
      invariant 0 <= i <= |list|
      invariant total + |Names(list[i..])| - 1 == |Names(list)|
    {
      NamesSkip(list[i..]);
      assert list[i..][1..] == list[i + 1..];
      total := if list[i] == ',' then total + 1 else total;
      i := i + 1;
    }
    OneEmptyName(list[i..]);
  }

  lemma OneEmptyName(list: string)
    requires list == ""
    ensures |Names(list)| == 1
  {
  }

  method Copy(a: array<char>, pos: nat, text: string)
    requires pos + |text| <= a.Length
    modifies a
    ensures a[..pos + |text|] == old(a[..pos]) + text
  {
    forall k | 0 <= k < |text| {
      a[pos + k] := text[k];
    }
  }

  /** Writes one name with its state at `pos`. */
  method KvpBuilder(a: array<char>, pos: nat, key: string, val: string) returns (end: nat)
    requires pos + |Pair(key, val)| <= a.Length
    modifies a
    ensures end == pos + |Pair(key, val)| && a[..end] == old(a[..pos]) + Pair(key, val)
  {
    ghost var before := a[..pos];
    end := pos;
    Copy(a, end, "\"");
    end := end + 1;
    Copy(a, end, key);
    end := end + |key|;
    Copy(a, end, "\"");
    end := end + 1;
    Copy(a, end, ":");
    end := end + 1;
    Copy(a, end, val);
    end := end + |val|;
    assert a[..end] == before + "\"" + key + "\"" + ":" + val;
    assert "\":" == "\"" + ":";
  }

  /** The loop over one list: `count` names of all `names` are already in the buffer. */
  method AppendNames(a: array<char>, pos: nat, list: string, state: string, walked: nat, ghost names: seq<string>)
    returns (end: nat, count: nat)
    requires walked + |Names(list)| <= |names| && names[walked..walked + |Names(list)|] == Names(list)
    requires pos <= a.Length && a[..pos] == Built(names, walked, state)
    requires |Built(names, walked + |Names(list)|, state)| <= a.Length
    modifies a
    ensures count == walked + |Names(list)| && end <= a.Length && a[..end] == Built(names, count, state)
  {
    hide Names, Built, Pair;
    ghost var goal := walked + |Names(list)|;
    end, count := pos, walked;
    var rest, last := list, false;
    while !last
      invariant walked <= count <= goal && end <= a.Length
      invariant a[..end] == Built(names, count, state)
      invariant if last then count == goal else names[count..goal] == Names(rest)
      decreases if last then 0 else 1, |rest|
    {
      FirstName(rest);
      BuiltStep(names, count, state);
      BuiltGrows(names, count + 1, goal, state);
      assert names[count] == names[count..goal][0];
      assert names[count..goal][1..] == names[count + 1..goal];
      ghost var before := a[..end];
      if count > 0 && a[end - 1] != ',' {
        Copy(a, end, ",");
        end := end + 1;
      }
      assert a[..end] == before + Separator(names, count, state);
      var comma := CommaAt(rest);
      if comma != 0 {
        end := KvpBuilder(a, end, rest[..comma], state);
      } else {
        assert names[count] == "";
        assert a[..end] + "" == a[..end];
      }
      count := count + 1;
      if comma == |rest| {
        last := true;
      } else {
        rest := rest[comma + 1..];
      }
    }
  }

  method ComputeSize(channel: Option<string>, group: Option<string>, state: string) returns (size: nat)
    ensures size == BufferSize(channel, group, state)
  {
    hide Names;
    var total_ch, total_cg := 0, 0;
    if channel.Some? {
      total_ch := CountNames(channel.value);
    }
    if group.Some? {
      total_cg := CountNames(group.value);
    }
    var ch_keys := if total_ch >= 1 then |channel.value| + total_ch * 3 + (total_ch - 1) else 0;
    var cg_keys := if total_cg >= 1 then |group.value| + total_cg * 3 + (total_cg - 1) else 0;
    size := (total_ch + total_cg) * |state| + ch_keys + cg_keys + 2 + 1;
  }

  /** Everything up to the closing brace. */
  method WriteNames(a: array<char>, channel: Option<string>, group: Option<string>, state: string) returns (end: nat)
    requires var names := Walked(channel, group); |Built(names, |names|, state)| <= a.Length
    modifies a
    ensures var names := Walked(channel, group); end <= a.Length && a[..end] == Built(names, |names|, state)
  {
    hide Built, Names, Pair;
    ghost var names := Walked(channel, group);
    BuiltGrows(names, 0, |names|, state);
    BuiltNothing(names, state);
    a[0] := '{';
    var count := 0;
    end := 1;
    if channel.Some? && (channel.value == "" || channel.value[0] != ',') {
      BuiltGrows(names, |Names(channel.value)|, |names|, state);
      assert names[0..0 + |Names(channel.value)|] == Names(channel.value);
      end, count := AppendNames(a, end, channel.value, state, count, names);
    }
    if group.Some? {
      assert names[count..count + |Names(group.value)|] == Names(group.value);
      end, count := AppendNames(a, end, group.value, state, count, names);
    }
    assert count == |names|;
  }

  /** Overwrites a trailing comma, closes the object and terminates the string. */
  method Close(a: array<char>, end: nat)
    requires 0 < end <= a.Length && |Closed(a[..end])| < a.Length
    modifies a
    ensures var text := Closed(old(a[..end])); a[..|text|] == text && a[|text|] == NUL
  {
    var trim := if a[end - 1] == ',' then 1 else 0;
    ghost var text := Closed(a[..end]);
    a[end - trim] := '}';
    a[end + 1 - trim] := NUL;
    assert a[..|text|] == text;
  }

  class StateKeeper {
    /** Null until the first call. The array holds the allocated block and the one byte
        behind it. */
    var buffer: array?<char>
    var capacity: nat

    /** What is kept is a C string, whose terminator may stand behind the block. */
    ghost predicate Valid()
      reads this, buffer
    {
      buffer != null ==> buffer.Length == capacity + 1 && NUL in buffer[..]
    }

    /** The computed size exceeds the length of the string kept so far. */
    predicate Allocates(channel: Option<string>, group: Option<string>, state: string)
      reads this, buffer
      requires Valid()
    {
      buffer == null || BufferSize(channel, group, state) > StrLen(buffer[..])
    }

    /** Writes the text and its terminator. The terminator falls behind the block
        exactly for one channel with one group in a block of just the computed size. */
    method AdjustState(channel: Option<string>, group: Option<string>, state: string)
      requires Valid()
      modifies this, buffer
      ensures Valid() && buffer != null && (if old(Allocates(channel, group, state))
                                 then fresh(buffer) && capacity == BufferSize(channel, group, state)
                                 else buffer == old(buffer) && capacity == old(capacity))
      ensures var text := Result(Walked(channel, group), state);
        |text| <= capacity && buffer[..|text|] == text && buffer[|text|] == NUL &&
        (|text| < capacity <==> !(Tight(channel, group, state) && capacity == BufferSize(channel, group, state)))
    {
      hide Built, Walked;
      var size := ComputeSize(channel, group, state);
      FitsUnlessTight(channel, group, state);
      if buffer == null || size > StrLen(buffer[..]) {
        buffer := new char[size + 1];
        capacity := size;
      }
      var end := WriteNames(buffer, channel, group, state);
      Close(buffer, end);
      assert NUL in buffer[..] by {
        assert buffer[..][|Result(Walked(channel, group), state)|] == NUL;
      }
    }
  }

  lemma BuiltNothing(names: seq<string>, state: string)
    ensures Built(names, 0, state) == "{"
  {
  }
}
