/** The request buffer the query is written into. */
module UrlBuffer {
  import opened Common
  import opened UrlParameters
  import opened UrlQuery

  datatype UrlResult = Ok | BufferTooSmall

  /** The encoder's own bound: a run of safe characters must end one byte earlier
      than an escape may. */
  predicate Fits(what: string, size: nat)
    requires Bytes(what)
  {
    what == "" || |Encoded(what)| + 1 < size ||
    (|Encoded(what)| + 1 == size && !Safe(what[|what| - 1]))
  }

  const UNSIGNED_RANGE: int := 0x1_0000_0000
  const SIZE_RANGE: int := 0x1_0000_0000_0000_0000

  /** The test before a run of safe characters: the room left is cut to 32 bits. */
  predicate RefusesRun(room: nat, i: nat, span: nat) {
    span >= (room - i - 1) % UNSIGNED_RANGE
  }

  /** The test before an escape, in the width of sizes. */
  predicate RefusesEscape(room: nat, i: nat) {
    3 > (room - i - 1) % SIZE_RANGE
  }

  /** Both tests are the plain comparisons while something is left, and always pass
      when nothing was left from the start. */
  lemma TestsWrap(room: nat, i: nat, span: nat)
    requires room < UNSIGNED_RANGE && i + span + 4 < UNSIGNED_RANGE && (room == 0 || i < room)
    ensures RefusesRun(room, i, span) <==> room > 0 && span >= room - i - 1
    ensures RefusesEscape(room, i) <==> room > 0 && 3 > room - i - 1
  {
  }

  /** A slot is taken when there is room for it, or when its `=` takes the last byte:
      then the tests wrap around. */
  predicate Accepts(s: Slot, used: nat, size: nat)
    requires s.value.Some? ==> Bytes(s.value.value)
  {
    Sent(s) ==>
      used + |s.key.value| + 2 <= size && (FillsExactly(s, used, size) || Fits(s.value.value, size - used - |s.key.value| - 2))
  }

  /** The `=` takes the last byte. */
  predicate FillsExactly(s: Slot, used: nat, size: nat) {
    Sent(s) && used + |s.key.value| + 2 == size
  }

  predicate AcceptsTo(slots: seq<Slot>, n: nat, used: nat, size: nat)
    requires n <= |slots| && BytesTable(slots)
  {
    forall i :: 0 <= i < n ==> Accepts(slots[i], used + |QueryTo(slots, i)|, size)
  }

  /** Some slot among the first `n` that is reached fills the buffer exactly. */
  predicate Overruns(slots: seq<Slot>, n: nat, used: nat, size: nat)
    requires n <= |slots| && BytesTable(slots)
  {
    exists i :: 0 <= i < n && AcceptsTo(slots, i, used, size) && FillsExactly(slots[i], used + |QueryTo(slots, i)|, size)
  }

  /** The encoding of the first `p` characters. */
  function EncodedTo(what: string, p: nat): string
    requires Bytes(what) && p <= |what|
  {
    if p == 0 then "" else EncodedTo(what, p - 1) + EncodedChar(what[p - 1])
  }

  lemma {:induction false} EncodedToPrefix(what: string, p: nat)
    requires Bytes(what) && p <= |what|
    ensures Bytes(what[..p]) && EncodedTo(what, p) == Encoded(what[..p])
  {
    if p > 0 {
      EncodedToPrefix(what, p - 1);
      assert what[..p][..p - 1] == what[..p - 1];
    }
  }

  lemma EncodedToAll(what: string)
    requires Bytes(what)
    ensures EncodedTo(what, |what|) == Encoded(what)
  {
    EncodedToPrefix(what, |what|);
    assert what[..|what|] == what;
  }

  lemma {:induction false} EncodedGrows(what: string, p: nat, q: nat)
    requires Bytes(what) && p <= q <= |what|
    ensures |EncodedTo(what, p)| + (q - p) <= |EncodedTo(what, q)|
    decreases q
  {
    if p < q {
      EncodedGrows(what, p, q - 1);
    }
  }

  lemma SafeAsIs(what: string, p: nat)
    requires Bytes(what) && p < |what| && Safe(what[p])
    ensures EncodedChar(what[p]) == [what[p]]
  {
  }

  lemma {:induction false} EncodedRun(what: string, p: nat, q: nat)
    requires Bytes(what) && p <= q <= |what|
    requires forall k :: p <= k < q ==> Safe(what[k])
    ensures EncodedTo(what, q) == EncodedTo(what, p) + what[p..q]
    decreases q
  {
    hide Safe, EncodedChar, Bytes;
    if p < q {
      EncodedRun(what, p, q - 1);
      SafeAsIs(what, q - 1);
      assert what[p..q] == what[p..q - 1] + [what[q - 1]];
    } else {
      assert what[p..q] == "";
    }
  }

  class RequestBuffer {
    /** The request buffer in its first `size` places, and what stands behind it. */
    const memory: array<char>
    const size: nat
    var httpBufLen: nat
    /** The end of the farthest byte ever written. */
    ghost var farthest: nat

    ghost predicate Valid()
      reads this
    {
      httpBufLen <= memory.Length && size <= memory.Length && size < UNSIGNED_RANGE
    }

    ghost function Text(): string
      reads this, memory
      requires Valid()
    {
      memory[..httpBufLen]
    }

    constructor (size: nat, behind: nat)
      requires size < UNSIGNED_RANGE
      ensures Valid() && fresh(memory) && this.size == size && memory.Length == size + behind && Text() == "" && farthest == 0
    {
      memory := new char[size + behind];
      this.size := size;
      httpBufLen := 0;
      farthest := 0;
    }

    method SafeSpan(what: string, p: nat) returns (q: nat)
      requires p <= |what|
      ensures p <= q <= |what| && (forall k :: p <= k < q ==> Safe(what[k]))
      ensures q < |what| ==> !Safe(what[q])
    {
      q := p;
      while q < |what| && Safe(what[q])
        invariant p <= q <= |what| && forall k :: p <= k < q ==> Safe(what[k])
      {
        q := q + 1;
      }
    }

    /** The first `p` characters have been encoded into `i` bytes and terminated. */
    ghost predicate Written(what: string, p: nat, i: nat)
      reads this, memory
      requires Bytes(what)
    {
      p <= |what| && httpBufLen + i < memory.Length && memory[httpBufLen + i] == NUL &&
      i == |EncodedTo(what, p)| && memory[httpBufLen..httpBufLen + i] == EncodedTo(what, p)
    }

    /** Encodes behind the text without extending it; a negative length says it did
        not fit. With no room at all everything fits, and is written behind the
        buffer. */
    method UrlEncode(what: string) returns (length: int)
      requires Valid() && httpBufLen <= size && Bytes(what)
      requires |Encoded(what)| + 4 < UNSIGNED_RANGE && size + |Encoded(what)| < memory.Length
      modifies memory, this`farthest
      ensures Valid() && farthest >= old(farthest) && memory[..httpBufLen] == old(memory[..httpBufLen])
      ensures length >= 0 <==> httpBufLen == size || Fits(what, size - httpBufLen)
      ensures length >= 0 ==>
        length == |Encoded(what)| && memory[httpBufLen..httpBufLen + length] == Encoded(what) && memory[httpBufLen + length] == NUL
      ensures httpBufLen < size ==> memory[size..] == old(memory[size..]) && farthest <= Farther(old(farthest), size)
      ensures httpBufLen == size ==> farthest > size + |Encoded(what)|
    {
      hide Encoded, EncodedChar, Bytes, Safe, EncodedTo, Fits, Written, InRoom, Spared;
      var room := size - httpBufLen;
      ghost var was, far := memory[..], farthest;
      Put(httpBufLen, [NUL]);
      Spares(was, far, httpBufLen, 1);
      var i: nat, p: nat := 0, 0;
      EncodedToAll(what);
      NothingWritten(what, room);
      while p < |what|
        invariant p <= |what| && Written(what, p, i) && InRoom(what, p, i, room)
        invariant Spared(was, far, i)
        decreases |what| - p
      {
        var ok: bool;
        p, i, ok := EncodeRun(what, p, i, room, was, far);
        if ok && p < |what| {
          p, i, ok := EncodeEscape(what, p, i, room, was, far);
        }
        if !ok {
          SparedIs(was, far, i);
          return -1;
        }
      }
      WrittenLength(what, p, i);
      SparedIs(was, far, i);
      WholeFits(what, i, room);
      return i;
    }

    /** One parameter. When the `=` takes the last byte, the whole value is written
        behind the buffer; in every other case nothing is. */
    method AppendUrlParamEncoded(name: string, value: string, separator: char) returns (result: UrlResult)
      requires Valid() && Bytes(value) && Shows(value, size, memory.Length)
      modifies memory, this`httpBufLen, this`farthest
      ensures Valid() && farthest >= old(farthest)
      ensures var rest := size as int - old(httpBufLen) - |name| - 2;
        if rest < 0 then result == BufferTooSmall && httpBufLen == old(httpBufLen) && memory[..] == old(memory[..]) && farthest == old(farthest)
        else if rest == 0 || Fits(value, rest) then result == Ok && Text() == old(Text()) + [separator] + name + "=" + Encoded(value)
        else result == BufferTooSmall && httpBufLen == 0
      ensures old(httpBufLen) + |name| + 2 != size ==> memory[size..] == old(memory[size..]) && farthest <= Farther(old(farthest), size)
      ensures old(httpBufLen) + |name| + 2 == size ==>
        farthest > size + |Encoded(value)| && memory[size..size + |Encoded(value)|] == Encoded(value)
    {
      hide Encoded, Bytes, Fits;
      if httpBufLen + 1 + |name| + 1 > size { return BufferTooSmall; }
      WriteName([separator] + name + "=");
      ghost var named := Text();
      var length := UrlEncode(value);
      if length < 0 {
        httpBufLen := 0;
        return BufferTooSmall;
      }
      Joins(memory[..], httpBufLen, httpBufLen + length, named, Encoded(value));
      httpBufLen := httpBufLen + length;
      return Ok;
    }

    /** Separator, name and `=`, without a terminator. */
    method WriteName(bytes: string)
      requires Valid() && httpBufLen + |bytes| <= size
      modifies memory, this`httpBufLen, this`farthest
      ensures Valid() && httpBufLen == old(httpBufLen) + |bytes| && Text() == old(Text()) + bytes
      ensures memory[size..] == old(memory[size..]) && old(farthest) <= farthest <= Farther(old(farthest), size)
    {
      ghost var text, was := Text(), memory[..];
      Put(httpBufLen, bytes);
      SparedSlices(was, memory[..], httpBufLen, |bytes|, httpBufLen, size);
      Joins(memory[..], httpBufLen, httpBufLen + |bytes|, text, bytes);
      httpBufLen := httpBufLen + |bytes|;
    }

    /** One slot of the table, if it is sent. */
    method EncodeSlot(slot: Slot, i: nat) returns (result: UrlResult)
      requires Valid() && (slot.value.Some? ==> Bytes(slot.value.value) && Shows(slot.value.value, size, memory.Length))
      modifies memory, this`httpBufLen, this`farthest
      ensures Valid() && farthest >= old(farthest) && (result == Ok <==> Accepts(slot, old(httpBufLen), size))
      ensures result == Ok ==> Text() == old(Text()) + if Sent(slot) then Field(slot, i) else ""
      ensures result != Ok ==> httpBufLen == 0 || Text() == old(Text())
      ensures !FillsExactly(slot, old(httpBufLen), size) ==> memory[size..] == old(memory[size..]) && farthest <= Farther(old(farthest), size)
      ensures FillsExactly(slot, old(httpBufLen), size) ==> farthest > size
    {
      hide Encoded, Bytes, Fits, Shows;
      result := Ok;
      if slot.key != None && slot.value != None {
        FieldLength(slot, i);
        result := AppendUrlParamEncoded(slot.key.value, slot.value.value, if i == 0 then '?' else '&');
      }
    }

    /** Appends every parameter of the table but the last slot's, exactly when each is
        accepted in its turn; otherwise the buffer is emptied or keeps what was already
        written. Bytes are written behind the buffer if and only if a slot that is
        reached fills it exactly. */
    method EncodeUrlParameters(name: array<Slot>) returns (result: UrlResult)
      requires Valid() && BytesTable(name[..]) && ShowsTable(name[..], size, memory.Length) && farthest <= size
      modifies memory, this`httpBufLen, this`farthest
      ensures Valid() && (result == Ok <==> name.Length == 0 || AcceptsTo(name[..], name.Length - 1, old(httpBufLen), size))
      ensures result == Ok ==> Text() == old(Text()) + if name.Length == 0 then "" else QueryTo(name[..], name.Length - 1)
      ensures result != Ok ==> httpBufLen == 0 || KeepsPart(Text(), old(Text()), name[..])
      ensures name.Length > 0 ==>
        (farthest > size <==> Overruns(name[..], name.Length - 1, old(httpBufLen), size)) &&
        (farthest <= size ==> memory[size..] == old(memory[size..]))
    {
      hide AcceptsTo, Overruns, QueryTo, KeepsPart, So;
      var count := name.Length;
      if count == 0 { return Ok; }
      ghost var slots, was, used, behind := name[..], Text(), httpBufLen, memory[size..];
      SoAtFirst(slots);
      for i := 0 to count - 1
        invariant Valid() && name[..] == slots && So(slots, i, was, used, behind)
      {
        var r := EncodeNext(name[i], i, slots, count - 1, was, used, behind);
        if r != Ok {
          return r;
        }
      }
      SoIs(slots, count - 1, was, used, behind);
      return Ok;
    }

    /** The first `i` slots have been written. */
    ghost predicate So(slots: seq<Slot>, i: nat, was: string, used: nat, behind: seq<char>)
      reads this, memory
    {
      Valid() && i <= |slots| && BytesTable(slots) && |was| == used &&
      Text() == was + QueryTo(slots, i) && AcceptsTo(slots, i, used, size) &&
      (farthest > size <==> Overruns(slots, i, used, size)) && (farthest <= size ==> memory[size..] == behind)
    }

    lemma SoAtFirst(slots: seq<Slot>)
      requires Valid() && BytesTable(slots) && farthest <= size
      ensures So(slots, 0, Text(), httpBufLen, memory[size..])
    {
      QueryStart(slots);
      NothingReached(slots, httpBufLen, size);
      assert Text() + "" == Text();
    }

    lemma SoIs(slots: seq<Slot>, i: nat, was: string, used: nat, behind: seq<char>)
      requires So(slots, i, was, used, behind)
      ensures Valid() && i <= |slots| && BytesTable(slots)
      ensures Text() == was + QueryTo(slots, i) && AcceptsTo(slots, i, used, size)
      ensures (farthest > size <==> Overruns(slots, i, used, size)) && (farthest <= size ==> memory[size..] == behind)
    {
    }

    method EncodeNext(slot: Slot, i: nat, ghost slots: seq<Slot>, ghost n: nat, ghost was: string, ghost used: nat, ghost behind: seq<char>)
      returns (result: UrlResult)
      requires Valid() && i < n <= |slots| && slot == slots[i] && BytesTable(slots) && ShowsTable(slots, size, memory.Length)
      requires So(slots, i, was, used, behind)
      modifies memory, this`httpBufLen, this`farthest
      ensures Valid() && (result == Ok ==> So(slots, i + 1, was, used, behind))
      ensures result != Ok ==>
        !AcceptsTo(slots, n, used, size) && (httpBufLen == 0 || KeepsPart(Text(), was, slots)) &&
        (farthest > size <==> Overruns(slots, n, used, size)) && (farthest <= size ==> memory[size..] == behind)
    {
      hide BytesTable, ShowsTable, KeepsPart, Encoded, Bytes, Fits, Field, Accepts, FillsExactly, QueryTo, Shows, AcceptsTo, Overruns;
      TextLength();
      QueryNext(slots, i);
      OverrunsNext(slots, i, used, size);
      SlotOf(slots, i, size, memory.Length);
      result := EncodeSlot(slot, i);
      if result != Ok {
        PartKept(was, slots, i);
        OverrunsNoMore(slots, i, n, used, size);
        NotExact(slot, used + |QueryTo(slots, i)|, size);
      }
    }

    lemma TextLength()
      requires Valid()
      ensures |Text()| == httpBufLen
    {
    }

    /** A run of safe characters, if there is one. */
    method EncodeRun(what: string, p: nat, i: nat, room: nat, ghost was: seq<char>, ghost far: nat) returns (q: nat, next: nat, ok: bool)
      requires Valid() && Bytes(what) && p < |what| && room == size - httpBufLen && Written(what, p, i) && InRoom(what, p, i, room)
      requires |EncodedTo(what, |what|)| + 4 < UNSIGNED_RANGE && size + |EncodedTo(what, |what|)| < memory.Length
      requires Spared(was, far, i)
      modifies memory, this`farthest
      ensures Valid() && Spared(was, far, next)
      ensures ok ==> p <= q <= |what| && Written(what, q, next) && InRoom(what, q, next, room) && (q < |what| ==> !Safe(what[q]))
      ensures !ok ==> room > 0 && !Fits(what, room)
    {
      hide Encoded, EncodedChar, Bytes, EncodedTo, Fits, Written, RefusesRun, RefusesEscape, Spared, InRoom, Safe;
      RoomIs(what, p, i, room);
      q := SafeSpan(what, p);
      next, ok := i, true;
      WrittenLength(what, p, i);
      EncodedRun(what, p, q);
      EncodedGrows(what, q, |what|);
      TestsWrap(room, i, q - p);
      if q > p {
        if RefusesRun(room, i, q - p) {
          NoRoomForRun(what, p, q, room);
          return q, i, false;
        }
        RunInRoom(what, q, i + (q - p), room);
        next := WriteRun(what, p, q, i, was, far);
      }
    }

    method WriteRun(what: string, p: nat, q: nat, i: nat, ghost was: seq<char>, ghost far: nat) returns (next: nat)
      requires Valid() && Bytes(what) && p < q <= |what| && (forall k :: p <= k < q ==> Safe(what[k])) && Written(what, p, i)
      requires size + i + (q - p) < memory.Length && (httpBufLen < size ==> i + (q - p) < size - httpBufLen)
      requires Spared(was, far, i)
      modifies memory, this`farthest
      ensures Valid() && next == i + (q - p) && Spared(was, far, next) && Written(what, q, next)
    {
      hide Encoded, EncodedChar, Bytes, EncodedTo, Written, Spared, Safe;
      ghost var before, reached := memory[..], farthest;
      WrittenLength(what, p, i);
      SparedIs(was, far, i);
      Put(httpBufLen + i, what[p..q] + [NUL]);
      next := i + (q - p);
      RunWritten(what, p, q, i, before);
      Spares2(was, far, before, reached, i, next);
    }

    method EncodeEscape(what: string, p: nat, i: nat, room: nat, ghost was: seq<char>, ghost far: nat) returns (q: nat, next: nat, ok: bool)
      requires Valid() && Bytes(what) && p < |what| && !Safe(what[p]) && room == size - httpBufLen && Written(what, p, i) && InRoom(what, p, i, room)
      requires |EncodedTo(what, |what|)| + 4 < UNSIGNED_RANGE && size + |EncodedTo(what, |what|)| < memory.Length
      requires Spared(was, far, i)
      modifies memory, this`farthest
      ensures Valid() && Spared(was, far, next)
      ensures ok ==> q == p + 1 && Written(what, q, next) && InRoom(what, q, next, room)
      ensures !ok ==> room > 0 && !Fits(what, room)
    {
      hide Encoded, Safe, EncodedTo, Fits, Written, RefusesRun, RefusesEscape, Spared;
      q, next, ok := p, i, true;
      WrittenLength(what, p, i);
      EscapeGrows(what, p);
      TestsWrap(room, i, 0);
      if RefusesEscape(room, i) {
        NoRoomForEscape(what, p, room);
        return p, i, false;
      }
      ghost var before, reached := memory[..], farthest;
      SparedIs(was, far, i);
      var code := what[p] as int;
      Put(httpBufLen + i, ['%', HEX[code / 16], HEX[code % 16], NUL]);
      q, next := p + 1, i + 3;
      EscapeWritten(what, p, i, before);
      Spares2(was, far, before, reached, i, next);
    }

    /** With something left, nothing behind the buffer was touched; without, the bytes
        written reach behind it. */
    ghost predicate Spared(was: seq<char>, far: nat, i: nat)
      reads this, memory
    {
      |was| == memory.Length && httpBufLen <= size <= |was| && farthest >= far && memory[..httpBufLen] == was[..httpBufLen] &&
      (httpBufLen < size ==> memory[size..] == was[size..] && farthest <= Farther(far, size)) &&
      (httpBufLen == size ==> farthest > size + i)
    }

    /** Only `count` bytes from `at` on were written. */
    ghost predicate Touched(at: nat, count: nat, was: seq<char>, far: nat)
      reads this, memory
    {
      at + count <= |was| == memory.Length && memory[..at] == was[..at] && memory[at + count..] == was[at + count..] &&
      farthest == Farther(far, at + count)
    }

    method Put(at: nat, bytes: string)
      requires at + |bytes| <= memory.Length
      modifies memory, this`farthest
      ensures memory[at..at + |bytes|] == bytes && Touched(at, |bytes|, old(memory[..]), old(farthest))
    {
      forall k | 0 <= k < |bytes| {
        memory[at + k] := bytes[k];
      }
      farthest := Farther(farthest, at + |bytes|);
    }

    lemma Spares(was: seq<char>, far: nat, at: nat, count: nat)
      requires Valid() && httpBufLen <= size && at == httpBufLen && count == 1 && Touched(at, count, was, far)
      ensures Spared(was, far, 0)
    {
      SparedSlices(was, memory[..], at, count, httpBufLen, size);
    }

    lemma Spares2(was: seq<char>, far: nat, before: seq<char>, reached: nat, i: nat, next: nat)
      requires Valid() && |was| == |before| == memory.Length && httpBufLen <= size && i <= next && (httpBufLen < size ==> next < size - httpBufLen)
      requires reached >= far && before[..httpBufLen] == was[..httpBufLen]
      requires httpBufLen < size ==> before[size..] == was[size..] && reached <= Farther(far, size)
      requires httpBufLen == size ==> reached > size + i
      requires httpBufLen + next < |was| && Touched(httpBufLen + i, next - i + 1, before, reached)
      ensures Spared(was, far, next)
    {
      SparedSlices(before, memory[..], httpBufLen + i, next - i + 1, httpBufLen, size);
    }

    lemma SparedIs(was: seq<char>, far: nat, i: nat)
      requires Spared(was, far, i)
      ensures |was| == memory.Length && httpBufLen <= size <= |was| && farthest >= far && memory[..httpBufLen] == was[..httpBufLen]
      ensures httpBufLen < size ==> memory[size..] == was[size..] && farthest <= Farther(far, size)
      ensures httpBufLen == size ==> farthest > size + i
    {
    }

    lemma RunWritten(what: string, p: nat, q: nat, i: nat, before: seq<char>)
      requires Bytes(what) && p < q <= |what| && (forall k :: p <= k < q ==> Safe(what[k]))
      requires |before| == memory.Length && httpBufLen + i + (q - p) < |before|
      requires i == |EncodedTo(what, p)| && before[httpBufLen..httpBufLen + i] == EncodedTo(what, p)
      requires memory[..httpBufLen + i] == before[..httpBufLen + i]
      requires memory[httpBufLen + i..httpBufLen + i + (q - p) + 1] == what[p..q] + [NUL]
      ensures Written(what, q, i + (q - p))
    {
      hide Encoded, EncodedChar, Bytes, EncodedTo, Safe;
      EncodedRun(what, p, q);
      Appended(before, memory[..], httpBufLen, i, what[p..q]);
    }

    lemma EscapeWritten(what: string, p: nat, i: nat, before: seq<char>)
      requires Bytes(what) && p < |what| && !Safe(what[p])
      requires |before| == memory.Length && httpBufLen + i + 3 < |before|
      requires i == |EncodedTo(what, p)| && before[httpBufLen..httpBufLen + i] == EncodedTo(what, p)
      requires memory[..httpBufLen + i] == before[..httpBufLen + i]
      requires memory[httpBufLen + i..httpBufLen + i + 4] == EncodedChar(what[p]) + [NUL]
      ensures Written(what, p + 1, i + 3)
    {
      hide EncodedChar, EncodedTo, Encoded, Safe;
      EncodedNext(what, p);
      EscapeGrows(what, p);
      Appended(before, memory[..], httpBufLen, i, EncodedChar(what[p]));
    }

    lemma NothingWritten(what: string, room: nat)
      requires Bytes(what) && httpBufLen < memory.Length && memory[httpBufLen] == NUL
      ensures Written(what, 0, 0) && InRoom(what, 0, 0, room)
    {
    }

    lemma WrittenLength(what: string, p: nat, i: nat)
      requires Bytes(what) && p <= |what| && Written(what, p, i)
      ensures httpBufLen + i < memory.Length && i == |EncodedTo(what, p)|
      ensures memory[httpBufLen..httpBufLen + i] == EncodedTo(what, p) && memory[httpBufLen + i] == NUL
    {
    }
  }

  /** What stands behind the buffer is long enough to show an overrun. */
  predicate Shows(value: string, size: nat, length: nat)
    requires Bytes(value)
  {
    |Encoded(value)| + 4 < UNSIGNED_RANGE && size + |Encoded(value)| < length
  }

  predicate ShowsTable(slots: seq<Slot>, size: nat, length: nat)
    requires BytesTable(slots)
  {
    forall k :: 0 <= k < |slots| && slots[k].value.Some? ==> Shows(slots[k].value.value, size, length)
  }

  lemma SlotOf(slots: seq<Slot>, i: nat, size: nat, length: nat)
    requires i < |slots| && BytesTable(slots) && ShowsTable(slots, size, length)
    ensures slots[i].value.Some? ==> Bytes(slots[i].value.value) && Shows(slots[i].value.value, size, length)
  {
    hide Bytes, Shows;
  }

  /** What was written before some slot is kept. */
  predicate KeepsPart(now: string, was: string, slots: seq<Slot>)
    requires BytesTable(slots)
  {
    exists i :: 0 <= i < |slots| && now == was + QueryTo(slots, i)
  }

  lemma PartKept(was: string, slots: seq<Slot>, i: nat)
    requires BytesTable(slots) && i < |slots|
    ensures KeepsPart(was + QueryTo(slots, i), was, slots)
  {
  }

  function Farther(far: nat, end: nat): nat {
    if far > end then far else end
  }

  /** What the encoder keeps free while something was left. */
  predicate InRoom(what: string, p: nat, i: nat, room: nat)
    requires p <= |what|
  {
    room > 0 ==> i < room && (p == 0 || i + 1 < room || (i + 1 == room && !Safe(what[p - 1])))
  }

  lemma Joins(now: seq<char>, n: nat, m: nat, text: string, bytes: string)
    requires n <= m <= |now| && now[..n] == text && now[n..m] == bytes
    ensures now[..m] == text + bytes
  {
    assert now[..m] == now[..n] + now[n..m];
  }

  lemma NotExact(s: Slot, used: nat, size: nat)
    requires s.value.Some? ==> Bytes(s.value.value)
    ensures FillsExactly(s, used, size) ==> Accepts(s, used, size)
  {
  }

  lemma NothingReached(slots: seq<Slot>, used: nat, size: nat)
    requires BytesTable(slots)
    ensures AcceptsTo(slots, 0, used, size) && !Overruns(slots, 0, used, size)
  {
  }

  lemma OverrunsNext(slots: seq<Slot>, i: nat, used: nat, size: nat)
    requires i < |slots| && BytesTable(slots) && AcceptsTo(slots, i, used, size)
    ensures Overruns(slots, i + 1, used, size) <==>
      Overruns(slots, i, used, size) || FillsExactly(slots[i], used + |QueryTo(slots, i)|, size)
    ensures AcceptsTo(slots, i + 1, used, size) <==> Accepts(slots[i], used + |QueryTo(slots, i)|, size)
  {
    hide Accepts, FillsExactly, QueryTo, BytesTable;
  }

  /** Behind a slot that is not accepted none is reached. */
  lemma OverrunsNoMore(slots: seq<Slot>, i: nat, n: nat, used: nat, size: nat)
    requires i < n <= |slots| && BytesTable(slots) && !Accepts(slots[i], used + |QueryTo(slots, i)|, size)
    ensures Overruns(slots, n, used, size) <==> Overruns(slots, i, used, size)
    ensures !AcceptsTo(slots, n, used, size)
  {
    hide QueryTo, BytesTable;
  }

  lemma RoomIs(what: string, p: nat, i: nat, room: nat)
    requires p <= |what| && InRoom(what, p, i, room)
    ensures room > 0 ==> i < room
  {
  }

  lemma RunInRoom(what: string, q: nat, i: nat, room: nat)
    requires q <= |what| && (room > 0 ==> i + 1 < room)
    ensures InRoom(what, q, i, room)
  {
  }

  lemma SparedSlices(was: seq<char>, now: seq<char>, at: nat, count: nat, length: nat, size: nat)
    requires at + count <= |was| == |now| && now[..at] == was[..at] && now[at + count..] == was[at + count..]
    requires length <= at && size <= |was|
    ensures now[..length] == was[..length]
    ensures at + count <= size ==> now[size..] == was[size..]
  {
    assert now[..length] == now[..at][..length];
    if at + count <= size {
      assert now[size..] == now[at + count..][size - at - count..];
    }
  }

  lemma Appended(before: seq<char>, now: seq<char>, from: nat, i: nat, bytes: string)
    requires |before| == |now| && from + i + |bytes| < |before|
    requires now[..from + i] == before[..from + i] && now[from + i..from + i + |bytes| + 1] == bytes + [NUL]
    ensures now[from..from + i + |bytes|] == before[from..from + i] + bytes && now[from + i + |bytes|] == NUL
  {
    assert now[from..from + i] == now[..from + i][from..];
    var written := now[from + i..from + i + |bytes| + 1];
    assert now[from + i..from + i + |bytes|] == written[..|bytes|];
    assert now[from + i + |bytes|] == written[|bytes|];
    assert now[from..from + i + |bytes|] == now[from..from + i] + now[from + i..from + i + |bytes|];
  }

  lemma WholeFits(what: string, i: nat, room: nat)
    requires Bytes(what) && i == |EncodedTo(what, |what|)| && InRoom(what, |what|, i, room)
    ensures room > 0 ==> Fits(what, room)
  {
    if room > 0 {
      RoomEnough(what, room);
    }
  }

  lemma RoomEnough(what: string, size: nat)
    requires Bytes(what)
    requires |what| == 0 || |EncodedTo(what, |what|)| + 1 < size ||
      (|EncodedTo(what, |what|)| + 1 == size && !Safe(what[|what| - 1]))
    ensures Fits(what, size)
  {
    EncodedToAll(what);
  }

  lemma EncodedNext(what: string, p: nat)
    requires Bytes(what) && p < |what|
    ensures EncodedTo(what, p + 1) == EncodedTo(what, p) + EncodedChar(what[p])
  {
  }

  lemma EscapeGrows(what: string, p: nat)
    requires Bytes(what) && p < |what| && !Safe(what[p])
    ensures |EncodedTo(what, p)| + 3 == |EncodedTo(what, p + 1)| <= |EncodedTo(what, |what|)|
  {
    EncodedGrows(what, p + 1, |what|);
  }

  lemma NoRoomForRun(what: string, p: nat, q: nat, size: nat)
    requires Bytes(what) && p < q <= |what| && (forall k :: p <= k < q ==> Safe(what[k]))
    requires |EncodedTo(what, p)| + (q - p) + 1 >= size
    ensures !Fits(what, size)
  {
    hide Encoded, Bytes, EncodedTo, Safe;
    EncodedRun(what, p, q);
    EncodedGrows(what, q, |what|);
    EncodedToAll(what);
  }

  lemma NoRoomForEscape(what: string, p: nat, size: nat)
    requires Bytes(what) && p < |what| && !Safe(what[p])
    requires |EncodedTo(what, p)| + 3 + 1 > size
    ensures !Fits(what, size)
  {
    hide Encoded, Bytes;
    EncodedGrows(what, p + 1, |what|);
    EncodedToAll(what);
  }

  lemma QueryStart(slots: seq<Slot>)
    requires BytesTable(slots)
    ensures QueryTo(slots, 0) == ""
  {
  }

  lemma QueryNext(slots: seq<Slot>, i: nat)
    requires i < |slots| && BytesTable(slots)
    ensures QueryTo(slots, i + 1) == QueryTo(slots, i) + if Sent(slots[i]) then Field(slots[i], i) else ""
  {
  }

  /** Room for a field and one byte more is room for the encoder. */
  lemma FieldLength(s: Slot, i: nat)
    requires Sent(s) && Bytes(s.value.value)
    ensures Field(s, i) == [if i == 0 then '?' else '&'] + s.key.value + "=" + Encoded(s.value.value)
    ensures |Field(s, i)| == |s.key.value| + 2 + |Encoded(s.value.value)|
    ensures forall size :: |Encoded(s.value.value)| + 1 < size ==> Fits(s.value.value, size)
  {
  }

  // ---------- inputs that show it ----------

  /** A safe character needs a byte more than it and its terminator take; an escape
      does not. */
  lemma BoundIsUneven()
    ensures Bytes("a") && |Encoded("a")| + 1 == 2 && !Fits("a", 2)
    ensures Bytes("+") && |Encoded("+")| + 1 == 4 && Fits("+", 4)
  {
    assert "a"[..0] == "" && "+"[..0] == "";
  }

  /** A buffer of three bytes behind `?k=`: the value goes behind it. */
  lemma ExactlyFull()
    ensures var slots := [Slot(Some("k"), Some("v")), Slot(None, None)];
      BytesTable(slots) && Overruns(slots, 1, 0, 3) && AcceptsTo(slots, 1, 0, 3)
  {
    var slots := [Slot(Some("k"), Some("v")), Slot(None, None)];
    QueryStart(slots);
    assert FillsExactly(slots[0], 0 + |QueryTo(slots, 0)|, 3);
  }
}
