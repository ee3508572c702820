/** UNSUBSCRIBE_ALL gives its texts to the event and, when no leave call can start, to
    the leave lists as well. */
module LeaveTexts {
  import opened Common
  import opened EngineReferences
  import opened SubscribeTypes
  import opened SubscribeTransitions
  import opened SharedData

  /** A text that has been freed waits to be sent. */
  predicate Dangling(d: Data) {
    exists k :: 0 <= k < |d.leave| && d.leave[k] < |d.freed| && d.freed[d.leave[k]] > 0
  }

  /** A live cell refers to a text that has been freed. */
  predicate HoldsFreed(d: Data) {
    exists c :: 0 <= c < |d.cells| && d.cells[c].counter > 0 && d.cells[c].text.Some? &&
      d.cells[c].text.value < |d.freed| && d.freed[d.cells[c].text.value] > 0
  }

  // ---------- the call ----------

  /** The texts of the call, one or two, each in a cell of its own. */
  function OwnTexts(d: Data, n: nat): Data {
    if n == 0 then d
    else
      var made := NewText(OwnTexts(d, n - 1));
      Wrap(made, |made.freed| - 1, FunctionRef)
  }

  function PutOwn(d: Data, context: nat, first: nat, n: nat): (r: Data)
    requires context < |d.inside| && d.inside[context].Some?
    ensures |r.inside| == |d.inside| && r.inside[context].Some?
  {
    if n == 0 then d else Put(PutOwn(d, context, first, n - 1), context, first + n - 1)
  }

  /** A list the call does not bring is shared with the context of the current state. */
  function Share(d: Data, context: nat, shared: Option<nat>): Data
    requires context < |d.inside| && d.inside[context].Some? && (shared.Some? ==> shared.value < |d.cells|)
  {
    if shared.Some? then Put(Copy(d, shared.value, FunctionRef), context, shared.value) else d
  }

  function LeaveOwn(d: Data, first: nat, n: nat): Data {
    if n == 0 then d else AddLeave(LeaveOwn(d, first, n - 1), first + n - 1)
  }

  /** The event, its context, the leave lists and the emission's own reference. */
  function Asked(d: Data, n: nat, shared: Option<nat>, canStart: bool, emits: bool): Data
    requires |d.cells| == |d.inside| && (shared.Some? ==> shared.value < |d.cells|)
  {
    OwnShape(d, n);
    var own := OwnTexts(d, n);
    var x := |own.cells|;
    var context := NewContext(own, EventRef);
    PutShape(context, x, |d.cells|, n);
    var held := Share(PutOwn(context, x, |d.cells|, n), x, shared);
    var listed := if canStart then held else LeaveOwn(held, |d.freed|, n);
    LeaveShape(held, |d.freed|, n);
    if emits then Copy(listed, x, InvocationRef) else listed
  }

  /** The event goes once it has been handled, and the state it leads to keeps no data.
      An emission keeps its reference: its invocation was merged, and so is never
      freed. */
  function UnsubscribeAllCall(d: Data, n: nat, shared: Option<nat>, canStart: bool, emits: bool): Data
    requires |d.cells| == |d.inside| && (shared.Some? ==> shared.value < |d.cells|)
  {
    AskedShape(d, n, shared, canStart, emits);
    Drop(Asked(d, n, shared, canStart, emits), Ref(EventRef, |d.cells| + n))
  }

  lemma {:induction false} OwnShape(d: Data, n: nat)
    requires |d.cells| == |d.inside|
    ensures var r := OwnTexts(d, n);
      |r.cells| == |r.inside| == |d.cells| + n && |r.freed| == |d.freed| + n && r.leave == d.leave &&
      r.cells[..|d.cells|] == d.cells && r.inside[..|d.cells|] == d.inside && r.freed[..|d.freed|] == d.freed &&
      (forall c :: |d.cells| <= c < |r.cells| ==> r.cells[c] == Cell(1, Some(c - |d.cells| + |d.freed|)) && r.inside[c] == Some([])) &&
      forall s :: |d.freed| <= s < |r.freed| ==> r.freed[s] == 0
  {
    if n > 0 {
      OwnShape(d, n - 1);
    }
  }

  lemma {:induction false} PutShape(d: Data, context: nat, first: nat, n: nat)
    requires context < |d.inside| && d.inside[context] == Some([])
    ensures var r := PutOwn(d, context, first, n);
      r.cells == d.cells && r.freed == d.freed && r.leave == d.leave &&
      r.inside == d.inside[context := r.inside[context]] && r.inside[context] == Some(From(first, n))
  {
    if n > 0 {
      PutShape(d, context, first, n - 1);
    }
  }

  function From(first: nat, n: nat): (s: seq<nat>)
    ensures |s| == n && forall k :: 0 <= k < n ==> s[k] == first + k
  {
    if n == 0 then [] else From(first, n - 1) + [first + n - 1]
  }

  lemma {:induction false} LeaveShape(d: Data, first: nat, n: nat)
    ensures var r := LeaveOwn(d, first, n);
      r.cells == d.cells && r.inside == d.inside && r.freed == d.freed && r.refs == d.refs && r.leave == d.leave + From(first, n)
  {
    if n > 0 {
      LeaveShape(d, first, n - 1);
      assert (d.leave + From(first, n - 1)) + [first + n - 1] == d.leave + From(first, n);
    } else {
      assert d.leave + [] == d.leave;
    }
  }

  /** What stands before the event goes. */
  lemma AskedShape(d: Data, n: nat, shared: Option<nat>, canStart: bool, emits: bool)
    requires |d.cells| == |d.inside| && (shared.Some? ==> shared.value < |d.cells|)
    ensures var r, m, x := Asked(d, n, shared, canStart, emits), |d.cells|, |d.cells| + n;
      |r.cells| == |r.inside| == x + 1 && |r.freed| == |d.freed| + n && r.freed[..|d.freed|] == d.freed &&
      r.leave == d.leave + (if canStart then [] else From(|d.freed|, n)) &&
      r.cells[x] == Cell(if emits then 2 else 1, None) &&
      r.inside[x] == Some(From(m, n) + if shared.Some? then [shared.value] else []) &&
      (forall c :: m <= c < x ==> r.cells[c] == Cell(1, Some(c - m + |d.freed|))) &&
      (forall s :: |d.freed| <= s < |r.freed| ==> r.freed[s] == 0) &&
      (forall c :: 0 <= c < m ==>
         r.cells[c] == if shared == Some(c) then d.cells[c].(counter := d.cells[c].counter + 1) else d.cells[c])
  {
    hide OwnTexts, PutOwn, LeaveOwn;
    OwnShape(d, n);
    var own := OwnTexts(d, n);
    var x := |own.cells|;
    var context := NewContext(own, EventRef);
    PutShape(context, x, |d.cells|, n);
    var held := Share(PutOwn(context, x, |d.cells|, n), x, shared);
    LeaveShape(held, |d.freed|, n);
    assert From(|d.cells|, n) + [] == From(|d.cells|, n) && d.leave + [] == d.leave;
    assert forall c :: 0 <= c < |d.cells| ==> own.cells[c] == own.cells[..|d.cells|][c];
  }

  // ---------- letting go of the parts ----------

  /** A text is freed with its cell's last holder. */
  lemma {:induction false} LetTextsFree(d: Data, parts: seq<nat>, c: nat, s: nat)
    requires c < |d.cells| == |d.inside| && d.cells[c].text == Some(s) && s < |d.freed| && Count(parts, c) <= d.cells[c].counter && d.cells[c].counter > 0
    requires forall b :: 0 <= b < |d.cells| && b != c ==> d.cells[b].text != Some(s)
    ensures var r := LetTextsGo(d, parts);
      r.cells[c].counter == d.cells[c].counter - Count(parts, c) &&
      r.freed[s] == d.freed[s] + (if Count(parts, c) == d.cells[c].counter then 1 else 0) &&
      forall b :: 0 <= b < |d.cells| ==> r.cells[b].text == d.cells[b].text
  {
    if parts != [] {
      LetTextsFree(d, parts[..|parts| - 1], c, s);
    }
  }

  lemma {:induction false} LetTextsSpare(d: Data, parts: seq<nat>, s: nat)
    requires |d.cells| == |d.inside| && s < |d.freed|
    requires forall k :: 0 <= k < |parts| && parts[k] < |d.cells| ==> d.cells[parts[k]].text != Some(s)
    ensures LetTextsGo(d, parts).freed[s] == d.freed[s]
    ensures forall b :: 0 <= b < |d.cells| ==> LetTextsGo(d, parts).cells[b].text == d.cells[b].text
  {
    if parts != [] {
      LetTextsSpare(d, parts[..|parts| - 1], s);
    }
  }

  // ---------- what is freed ----------

  predicate Sharable(d: Data, shared: Option<nat>) {
    shared.Some? ==> shared.value < |d.cells| && d.cells[shared.value].counter > 0 && d.cells[shared.value].text.Some?
  }

  function Parts(d: Data, n: nat, shared: Option<nat>): seq<nat> {
    From(|d.cells|, n) + if shared.Some? then [shared.value] else []
  }

  /** The event's context just after it has been let go. */
  function Gone(d: Data, n: nat, shared: Option<nat>, canStart: bool): Data
    requires |d.cells| == |d.inside| && (shared.Some? ==> shared.value < |d.cells|)
  {
    AskedShape(d, n, shared, canStart, false);
    var asked, x := Asked(d, n, shared, canStart, false), |d.cells| + n;
    LetTextGo(asked.(refs := WithoutRef(asked.refs, Ref(EventRef, x))), x)
  }

  lemma GoneShape(d: Data, n: nat, shared: Option<nat>, canStart: bool)
    requires |d.cells| == |d.inside| && (shared.Some? ==> shared.value < |d.cells|)
    ensures UnsubscribeAllCall(d, n, shared, canStart, false) == LetTextsGo(Gone(d, n, shared, canStart), Parts(d, n, shared))
    ensures var asked, r, x := Asked(d, n, shared, canStart, false), Gone(d, n, shared, canStart), |d.cells| + n;
      |asked.cells| == |r.cells| == |r.inside| == x + 1 && r.freed == asked.freed && r.cells == asked.cells[x := Cell(0, None)]
  {
    hide Asked, LetTextsGo;
    AskedShape(d, n, shared, canStart, false);
  }

  lemma EmittedShape(d: Data, n: nat, shared: Option<nat>, canStart: bool)
    requires |d.cells| == |d.inside| && (shared.Some? ==> shared.value < |d.cells|)
    ensures var asked, r := Asked(d, n, shared, canStart, true), UnsubscribeAllCall(d, n, shared, canStart, true);
      r.freed == asked.freed && |asked.cells| == |d.cells| + n + 1 && r.cells == asked.cells[|d.cells| + n := Cell(1, None)]
  {
    hide Asked;
    AskedShape(d, n, shared, canStart, true);
    var asked, x := Asked(d, n, shared, canStart, true), |d.cells| + n;
    LetTextsNone(LetTextGo(asked.(refs := WithoutRef(asked.refs, Ref(EventRef, x))), x));
  }

  /** The texts of the call are freed with the event exactly when no emission keeps its
      context. */
  lemma OwnFreed(d: Data, n: nat, shared: Option<nat>, canStart: bool, emits: bool, s: nat)
    requires Counted(d) && TextsSafe(d) && Sharable(d, shared) && |d.freed| <= s < |d.freed| + n
    ensures var r := UnsubscribeAllCall(d, n, shared, canStart, emits);
      |r.freed| == |d.freed| + n && r.freed[s] == if emits then 0 else 1
  {
    hide PartsAreTexts, CellCounted, Asked, LetTextsGo, Gone, UnsubscribeAllCall, Count, From;
    AskedShape(d, n, shared, canStart, emits);
    if emits {
      EmittedShape(d, n, shared, canStart);
    } else {
      GoneShape(d, n, shared, canStart);
      var over, c := Gone(d, n, shared, canStart), s - |d.freed| + |d.cells|;
      PartOnce(|d.cells|, n, shared, c);
      forall b | 0 <= b < |over.cells| && b != c ensures over.cells[b].text != Some(s) {
        if b < |d.cells| {
          assert over.cells[b].text == d.cells[b].text;
        }
      }
      LetTextsFree(over, Parts(d, n, shared), c, s);
    }
  }

  lemma PartOnce(first: nat, n: nat, shared: Option<nat>, c: nat)
    requires first <= c < first + n && (shared.Some? ==> shared.value < first)
    ensures Count(From(first, n) + (if shared.Some? then [shared.value] else []), c) == 1
  {
    FromOnce(first, n, c);
    if shared.Some? {
      CountAppend(From(first, n), [shared.value], c);
      CountOne(shared.value, c);
    } else {
      assert From(first, n) + [] == From(first, n);
    }
  }

  lemma {:induction false} FromOnce(first: nat, n: nat, c: nat)
    ensures Count(From(first, n), c) == if first <= c < first + n then 1 else 0
  {
    if n > 0 {
      FromOnce(first, n - 1, c);
      CountAppend(From(first, n - 1), [first + n - 1], c);
      CountOne(first + n - 1, c);
    }
  }

  /** Nothing that was there before is freed. */
  lemma OthersKept(d: Data, n: nat, shared: Option<nat>, canStart: bool, emits: bool, s: nat)
    requires Counted(d) && TextsSafe(d) && Sharable(d, shared) && s < |d.freed|
    ensures var r := UnsubscribeAllCall(d, n, shared, canStart, emits); |r.freed| == |d.freed| + n && r.freed[s] == d.freed[s]
  {
    hide PartsAreTexts, CellCounted, Asked, LetTextsGo, Gone, UnsubscribeAllCall, Count, From;
    AskedShape(d, n, shared, canStart, emits);
    var asked := Asked(d, n, shared, canStart, emits);
    assert asked.freed[s] == asked.freed[..|d.freed|][s];
    if emits {
      EmittedShape(d, n, shared, canStart);
    } else {
      GoneShape(d, n, shared, canStart);
      var over, parts := Gone(d, n, shared, canStart), Parts(d, n, shared);
      forall b | 0 <= b < |over.cells| && over.cells[b].text == Some(s) ensures b < |d.cells| && d.cells[b].text == Some(s) {
      }
      if shared.Some? && d.cells[shared.value].text == Some(s) {
        SharedOnce(|d.cells|, n, shared.value);
        LetTextsFree(over, parts, shared.value, s);
      } else {
        LetTextsSpare(over, parts, s);
      }
    }
  }

  lemma SharedOnce(first: nat, n: nat, c: nat)
    requires c < first
    ensures Count(From(first, n) + [c], c) == 1
  {
    FromOnce(first, n, c);
    CountAppend(From(first, n), [c], c);
    CountOne(c, c);
  }

  lemma LeaveAfter(d: Data, n: nat, shared: Option<nat>, canStart: bool, emits: bool)
    requires |d.cells| == |d.inside| && (shared.Some? ==> shared.value < |d.cells|)
    ensures UnsubscribeAllCall(d, n, shared, canStart, emits).leave == d.leave + (if canStart then [] else From(|d.freed|, n))
  {
    hide Asked, From;
    AskedShape(d, n, shared, canStart, emits);
  }

  lemma LeaveLive(d: Data, k: nat)
    requires TextsSafe(d) && k < |d.leave|
    ensures d.leave[k] < |d.freed| && d.freed[d.leave[k]] == 0
  {
  }

  /** After UNSUBSCRIBE_ALL a freed text waits in the leave lists if and only if no
      leave call could start and no emission keeps the event's context. */
  lemma DanglesExactly(d: Data, n: nat, shared: Option<nat>, canStart: bool, emits: bool)
    requires Counted(d) && TextsSafe(d) && Sharable(d, shared) && n > 0
    ensures Dangling(UnsubscribeAllCall(d, n, shared, canStart, emits)) <==> !canStart && !emits
  {
    hide PartsAreTexts, CellCounted, Asked, Drop, TextsSafe, UnsubscribeAllCall;
    LeaveAfter(d, n, shared, canStart, emits);
    var r := UnsubscribeAllCall(d, n, shared, canStart, emits);
    OwnFreed(d, n, shared, canStart, emits, |d.freed|);
    if !canStart && !emits {
      assert r.leave[|d.leave|] == |d.freed|;
    }
    if Dangling(r) {
      var k :| 0 <= k < |r.leave| && r.leave[k] < |r.freed| && r.freed[r.leave[k]] > 0;
      if k < |d.leave| {
        assert r.leave[k] == d.leave[k];
        LeaveLive(d, k);
        OthersKept(d, n, shared, canStart, emits, d.leave[k]);
      } else {
        OwnFreed(d, n, shared, canStart, emits, r.leave[k]);
      }
    }
  }

  // ---------- the states ----------

  /** UNSUBSCRIBE_ALL emits a status, and so keeps the event's context, in RECEIVING
      alone. */
  lemma EmitsInReceiving(state: StateType, context: Context)
    ensures Decide(state, UnsubscribeAll(context.channels, context.groups), context).emission.Some? <==> state == Receiving
  {
  }

  /** UNSUBSCRIBE_ALL leaves a freed text in the leave lists if and only if no leave
      call can start and the state is not RECEIVING. */
  lemma UnsubscribeAllDangles(d: Data, state: StateType, context: Context, n: nat, shared: Option<nat>, canStart: bool)
    requires Counted(d) && TextsSafe(d) && Sharable(d, shared) && n > 0
    ensures var emits := Decide(state, UnsubscribeAll(context.channels, context.groups), context).emission.Some?;
      Dangling(UnsubscribeAllCall(d, n, shared, canStart, emits)) <==> !canStart && state != Receiving
  {
    EmitsInReceiving(state, context);
    DanglesExactly(d, n, shared, canStart, state == Receiving);
  }

  /** How often each text has been freed once the postponed leave has been sent. */
  lemma SentFreed(d: Data, n: nat, shared: Option<nat>, canStart: bool, emits: bool, s: nat)
    requires Counted(d) && TextsSafe(d) && Sharable(d, shared) && s < |d.freed| + n
    ensures var sent := SendPostponed(UnsubscribeAllCall(d, n, shared, canStart, emits));
      |sent.freed| == |d.freed| + n &&
      sent.freed[s] ==
        if s < |d.freed| then d.freed[s] + Count(d.leave, s) else (if emits then 0 else 1) + (if canStart then 0 else 1)
  {
    hide PartsAreTexts, CellCounted, UnsubscribeAllCall, FreeAll;
    var r := UnsubscribeAllCall(d, n, shared, canStart, emits);
    LeaveAfter(d, n, shared, canStart, emits);
    if s < |d.freed| {
      OthersKept(d, n, shared, canStart, emits, s);
    } else {
      OwnFreed(d, n, shared, canStart, emits, s);
      CountAbsent(d.leave, s);
    }
    FreeAllCounts(r.freed, r.leave, s);
    FromOnce(|d.freed|, n, s);
    CountAppend(d.leave, From(|d.freed|, n), s);
    CountAppend(d.leave, [], s);
    NoneCounted(s);
  }

  /** Sending the postponed leave then frees a text once more if and only if a freed
      one waited. */
  lemma PostponedLeaveFreesTwice(d: Data, n: nat, shared: Option<nat>, canStart: bool, emits: bool)
    requires Counted(d) && TextsSafe(d) && Sharable(d, shared) && n > 0
    ensures var sent := SendPostponed(UnsubscribeAllCall(d, n, shared, canStart, emits));
      (exists s :: 0 <= s < |sent.freed| && sent.freed[s] > 1) <==> !canStart && !emits
  {
    hide PartsAreTexts, CellCounted, UnsubscribeAllCall, SendPostponed, Count;
    var sent := SendPostponed(UnsubscribeAllCall(d, n, shared, canStart, emits));
    SentFreed(d, n, shared, canStart, emits, |d.freed|);
    forall s | 0 <= s < |sent.freed| ensures sent.freed[s] <= if !canStart && !emits then 2 else 1 {
      SentFreed(d, n, shared, canStart, emits, s);
      if s < |d.freed| {
        FreedAtMostOnce(d, s);
      }
    }
  }

  lemma FreedAtMostOnce(d: Data, s: nat)
    requires TextsSafe(d) && s < |d.freed|
    ensures d.freed[s] + Count(d.leave, s) <= 1
    ensures Wrapped(d, s) ==> Count(d.leave, s) == 0
  {
    CountOnce(d.leave, s);
    if s !in d.leave {
      CountAbsent(d.leave, s);
    }
  }

  /** In RECEIVING it frees a text that the queued emission still refers to, and only
      there. */
  lemma PostponedLeaveFreesHeld(d: Data, n: nat, shared: Option<nat>, canStart: bool, emits: bool)
    requires Counted(d) && TextsSafe(d) && Sharable(d, shared) && n > 0
    ensures HoldsFreed(SendPostponed(UnsubscribeAllCall(d, n, shared, canStart, emits))) <==> !canStart && emits
  {
    hide PartsAreTexts, CellCounted, UnsubscribeAllCall, Count, FreeAll;
    var r := UnsubscribeAllCall(d, n, shared, canStart, emits);
    var sent := SendPostponed(r);
    SentFreed(d, n, shared, canStart, emits, |d.freed|);
    forall c | 0 <= c < |sent.cells| && sent.cells[c].counter > 0 && sent.cells[c].text.Some?
      ensures sent.cells[c].text.value < |sent.freed| && (sent.freed[sent.cells[c].text.value] > 0 ==> !canStart && emits)
    {
      LiveAfter(d, n, shared, canStart, emits, c);
      SentFreed(d, n, shared, canStart, emits, sent.cells[c].text.value);
      if c < |d.cells| {
        assert Wrapped(d, sent.cells[c].text.value);
        FreedAtMostOnce(d, sent.cells[c].text.value);
      }
    }
    if !canStart && emits {
      EmittedShape(d, n, shared, canStart);
      AskedShape(d, n, shared, canStart, true);
      assert sent.cells[|d.cells|] == Cell(1, Some(|d.freed|));
    }
  }

  /** Which text cells are live after the call. */
  lemma LiveAfter(d: Data, n: nat, shared: Option<nat>, canStart: bool, emits: bool, c: nat)
    requires Counted(d) && TextsSafe(d) && Sharable(d, shared)
    requires var r := UnsubscribeAllCall(d, n, shared, canStart, emits); c < |r.cells| && r.cells[c].counter > 0 && r.cells[c].text.Some?
    ensures var r := UnsubscribeAllCall(d, n, shared, canStart, emits);
      if c < |d.cells| then d.cells[c].counter > 0 && r.cells[c].text == d.cells[c].text
      else emits && c < |d.cells| + n && r.cells[c].text == Some(c - |d.cells| + |d.freed|)
  {
    hide PartsAreTexts, CellCounted, Asked, LetTextsGo, Gone, UnsubscribeAllCall, Count, From;
    AskedShape(d, n, shared, canStart, emits);
    if emits {
      EmittedShape(d, n, shared, canStart);
    } else {
      GoneShape(d, n, shared, canStart);
      var over, parts := Gone(d, n, shared, canStart), Parts(d, n, shared);
      OnlyLess(over, parts, c);
      if |d.cells| <= c < |d.cells| + n {
        var s := c - |d.cells| + |d.freed|;
        PartOnce(|d.cells|, n, shared, c);
        forall b | 0 <= b < |over.cells| && b != c ensures over.cells[b].text != Some(s) {
          if b < |d.cells| {
            assert over.cells[b].text == d.cells[b].text;
          }
        }
        LetTextsFree(over, parts, c, s);
      }
    }
  }

  lemma {:induction false} OnlyLess(d: Data, parts: seq<nat>, c: nat)
    requires c < |d.cells| == |d.inside|
    ensures LetTextsGo(d, parts).cells[c].text == d.cells[c].text && LetTextsGo(d, parts).cells[c].counter <= d.cells[c].counter
  {
    if parts != [] {
      OnlyLess(d, parts[..|parts| - 1], c);
    }
  }

  // ---------- the input that shows it ----------

  const SUBSCRIBED: Context := Context(Some("a"), None, DEFAULT_CURSOR, RESULT_OK, false)

  /** UNSUBSCRIBE_ALL while HANDSHAKING and a transaction is under way: the text of the
      channel is freed, waits in the leave lists, and is freed again when it is sent. */
  lemma HandshakingFreesTwice()
    ensures Decide(Handshaking, UnsubscribeAll(Some("a"), None), SUBSCRIBED) == Goto(Unsubscribed)
    ensures var r := UnsubscribeAllCall(NO_DATA, 1, None, false, false); Dangling(r) && exists s :: 0 <= s < |SendPostponed(r).freed| && SendPostponed(r).freed[s] > 1
  {
    hide UnsubscribeAllCall, SendPostponed, Dangling, Counted, TextsSafe;
    NothingYet();
    DanglesExactly(NO_DATA, 1, None, false, false);
    PostponedLeaveFreesTwice(NO_DATA, 1, None, false, false);
  }

  lemma NothingYet()
    ensures Counted(NO_DATA) && TextsSafe(NO_DATA)
  {
  }
}
