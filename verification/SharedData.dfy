/** Counted data: the contexts of events, states and invocations, the channel and group
    texts they share, and the texts the leave lists hold without counting. */
module SharedData {
  import opened Common
  import opened EngineReferences

  datatype Holder = EventRef | StateRef | InvocationRef | FunctionRef

  datatype Ref = Ref(holder: Holder, cell: nat)

  /** A counted cell carries a text and frees it with itself, or is a context and lets
      go of what it holds. */
  datatype Cell = Cell(counter: nat, text: Option<nat>)

  datatype Data = Data(
    /** How often each text has been freed. */
    freed: seq<nat>,
    cells: seq<Cell>,
    /** The cells a live cell holds; None once it has been freed. */
    inside: seq<Option<seq<nat>>>,
    refs: seq<Ref>,
    /** The texts in the leave lists. */
    leave: seq<nat>)

  function RefCount(refs: seq<Ref>, c: nat): nat {
    if refs == [] then 0 else RefCount(refs[..|refs| - 1], c) + (if refs[|refs| - 1].cell == c then 1 else 0)
  }

  function WithoutRef(refs: seq<Ref>, ref: Ref): seq<Ref> {
    if refs == [] then []
    else if refs[|refs| - 1] == ref then refs[..|refs| - 1]
    else WithoutRef(refs[..|refs| - 1], ref) + [refs[|refs| - 1]]
  }

  // ---------- steps ----------

  function NewText(d: Data): Data {
    d.(freed := d.freed + [0])
  }

  function FreeText(freed: seq<nat>, text: Option<nat>): (r: seq<nat>)
    ensures |r| == |freed|
  {
    if text.Some? && text.value < |freed| then freed[text.value := freed[text.value] + 1] else freed
  }

  /** A counted cell around a text. */
  function Wrap(d: Data, text: nat, holder: Holder): Data {
    d.(cells := d.cells + [Cell(1, Some(text))], inside := d.inside + [Some([])], refs := d.refs + [Ref(holder, |d.cells|)])
  }

  function NewContext(d: Data, holder: Holder): Data {
    d.(cells := d.cells + [Cell(1, None)], inside := d.inside + [Some([])], refs := d.refs + [Ref(holder, |d.cells|)])
  }

  function Copy(d: Data, c: nat, holder: Holder): Data
    requires c < |d.cells|
  {
    d.(cells := d.cells[c := d.cells[c].(counter := d.cells[c].counter + 1)], refs := d.refs + [Ref(holder, c)])
  }

  /** A running function's reference goes into a context. */
  function Put(d: Data, context: nat, c: nat): Data
    requires context < |d.inside| && d.inside[context].Some?
  {
    d.(inside := d.inside[context := Some(d.inside[context].value + [c])], refs := WithoutRef(d.refs, Ref(FunctionRef, c)))
  }

  /** A reference changes hands. */
  function Pass(d: Data, c: nat, from: Holder, to: Holder): Data {
    d.(refs := WithoutRef(d.refs, Ref(from, c)) + [Ref(to, c)])
  }

  function Less(cells: seq<Cell>, c: nat): (r: seq<Cell>)
    ensures |r| == |cells|
  {
    if c < |cells| && cells[c].counter > 0 then cells[c := cells[c].(counter := cells[c].counter - 1)] else cells
  }

  /** One holder of a text's cell less. */
  function LetTextGo(d: Data, c: nat): (r: Data)
    ensures |r.cells| == |d.cells| && |r.inside| == |d.inside| && |r.freed| == |d.freed| && r.refs == d.refs && r.leave == d.leave
  {
    if c >= |d.cells| || c >= |d.inside| then d
    else
      var less := d.(cells := Less(d.cells, c));
      if less.cells[c].counter > 0 then less
      else less.(inside := less.inside[c := None], freed := FreeText(d.freed, d.cells[c].text))
  }

  function LetTextsGo(d: Data, parts: seq<nat>): (r: Data)
    ensures |r.cells| == |d.cells| && |r.inside| == |d.inside| && |r.freed| == |d.freed| && r.refs == d.refs && r.leave == d.leave
  {
    if parts == [] then d else LetTextGo(LetTextsGo(d, parts[..|parts| - 1]), parts[|parts| - 1])
  }

  /** One holder less; with the last one a cell frees its text or lets go of its parts. */
  function LetGo(d: Data, c: nat): (r: Data)
    requires c < |d.cells| == |d.inside|
    ensures |r.cells| == |d.cells| && |r.inside| == |d.inside| && |r.freed| == |d.freed| && r.refs == d.refs && r.leave == d.leave
  {
    LetTextsGo(LetTextGo(d, c), if d.cells[c].counter <= 1 then Elements(d.inside[c]) else [])
  }

  function Drop(d: Data, ref: Ref): Data
    requires ref.cell < |d.cells| == |d.inside|
  {
    LetGo(d.(refs := WithoutRef(d.refs, ref)), ref.cell)
  }

  /** The leave lists take a text as it is. */
  function AddLeave(d: Data, text: nat): Data {
    d.(leave := d.leave + [text])
  }

  function FreeAll(freed: seq<nat>, texts: seq<nat>): (r: seq<nat>)
    ensures |r| == |freed|
  {
    if texts == [] then freed else FreeText(FreeAll(freed, texts[..|texts| - 1]), Some(texts[|texts| - 1]))
  }

  /** The postponed leave reads the texts, frees each and empties the lists. */
  function SendPostponed(d: Data): Data {
    d.(freed := FreeAll(d.freed, d.leave), leave := [])
  }

  // ---------- what every step keeps ----------

  predicate CellCounted(d: Data, c: nat)
    requires c < |d.cells| == |d.inside|
  {
    d.cells[c].counter == RefCount(d.refs, c) + Holders(d.inside, c) &&
    (d.inside[c].Some? <==> d.cells[c].counter > 0) &&
    (d.cells[c].text.Some? ==> Elements(d.inside[c]) == [])
  }

  /** Every part is a text's cell. */
  predicate PartsAreTexts(d: Data) {
    forall c, k :: 0 <= c < |d.inside| && 0 <= k < |Elements(d.inside[c])| ==>
      Elements(d.inside[c])[k] < |d.cells| && d.cells[Elements(d.inside[c])[k]].text.Some?
  }

  predicate Counted(d: Data) {
    |d.cells| == |d.inside| && PartsAreTexts(d) &&
    (forall k :: 0 <= k < |d.refs| ==> d.refs[k].cell < |d.cells|) &&
    forall c :: 0 <= c < |d.cells| ==> CellCounted(d, c)
  }

  lemma RefsAppend(refs: seq<Ref>, ref: Ref, c: nat)
    ensures RefCount(refs + [ref], c) == RefCount(refs, c) + if ref.cell == c then 1 else 0
  {
    assert (refs + [ref])[..|refs|] == refs;
  }

  lemma {:induction false} RefsAbsent(refs: seq<Ref>, c: nat)
    requires forall k :: 0 <= k < |refs| ==> refs[k].cell != c
    ensures RefCount(refs, c) == 0
  {
    if refs != [] {
      RefsAbsent(refs[..|refs| - 1], c);
    }
  }

  lemma {:induction false} RefsPresent(refs: seq<Ref>, ref: Ref)
    requires ref in refs
    ensures RefCount(refs, ref.cell) > 0
  {
    if refs[|refs| - 1] != ref {
      assert refs == refs[..|refs| - 1] + [refs[|refs| - 1]];
      RefsPresent(refs[..|refs| - 1], ref);
    }
  }

  lemma {:induction false} RefStruck(refs: seq<Ref>, ref: Ref, c: nat)
    requires ref in refs
    ensures RefCount(WithoutRef(refs, ref), c) == RefCount(refs, c) - if ref.cell == c then 1 else 0
    ensures forall k :: 0 <= k < |WithoutRef(refs, ref)| ==> WithoutRef(refs, ref)[k] in refs
  {
    hide RefCount;
    var front, last := refs[..|refs| - 1], refs[|refs| - 1];
    assert refs == front + [last];
    RefsAppend(front, last, c);
    if last != ref {
      RefStruck(front, ref, c);
      RefsAppend(WithoutRef(front, ref), last, c);
    }
  }

  /** An allocation adds a cell that nobody held before. */
  lemma NewCellKeeps(d: Data, cell: Cell, holder: Holder)
    requires Counted(d) && cell.counter == 1
    ensures Counted(d.(cells := d.cells + [cell], inside := d.inside + [Some([])], refs := d.refs + [Ref(holder, |d.cells|)]))
  {
    var n := |d.cells|;
    var r := d.(cells := d.cells + [cell], inside := d.inside + [Some([])], refs := d.refs + [Ref(holder, n)]);
    forall c | 0 <= c <= n ensures CellCounted(r, c) {
      HoldersAppend(d.inside, c);
      RefsAppend(d.refs, Ref(holder, n), c);
      if c < n {
        assert CellCounted(d, c);
      } else {
        RefsAbsent(d.refs, n);
        HoldersAbsent(d.inside, n);
      }
    }
  }

  lemma CopyKeeps(d: Data, c: nat, holder: Holder)
    requires Counted(d) && c < |d.cells| && d.cells[c].counter > 0
    ensures Counted(Copy(d, c, holder))
  {
    var r := Copy(d, c, holder);
    forall x | 0 <= x < |r.cells| ensures CellCounted(r, x) {
      assert CellCounted(d, x);
      RefsAppend(d.refs, Ref(holder, c), x);
    }
  }

  lemma PutKeeps(d: Data, context: nat, c: nat)
    requires Counted(d) && context < |d.cells| && d.cells[context].counter > 0 && d.cells[context].text == None
    requires Ref(FunctionRef, c) in d.refs && c < |d.cells| && d.cells[c].text.Some?
    ensures d.inside[context].Some? && Counted(Put(d, context, c))
  {
    assert CellCounted(d, context);
    var r, parts := Put(d, context, c), d.inside[context].value;
    forall k | 0 <= k < |r.refs| ensures r.refs[k].cell < |r.cells| {
      RefStruck(d.refs, Ref(FunctionRef, c), 0);
      assert r.refs[k] in d.refs;
    }
    forall x, k | 0 <= x < |r.inside| && 0 <= k < |Elements(r.inside[x])|
      ensures Elements(r.inside[x])[k] < |r.cells| && r.cells[Elements(r.inside[x])[k]].text.Some?
    {
      if x == context && k < |parts| {
        assert Elements(d.inside[context])[k] == parts[k];
      }
    }
    forall x | 0 <= x < |r.cells| ensures CellCounted(r, x) {
      assert CellCounted(d, x);
      RefStruck(d.refs, Ref(FunctionRef, c), x);
      HoldersUpdate(d.inside, context, Some(parts + [c]), x);
      CountAppend(parts, [c], x);
      CountOne(c, x);
    }
  }

  lemma PassKeeps(d: Data, c: nat, from: Holder, to: Holder)
    requires Counted(d) && Ref(from, c) in d.refs
    ensures Counted(Pass(d, c, from, to))
  {
    hide RefCount, WithoutRef, Holders;
    var r, rest := Pass(d, c, from, to), WithoutRef(d.refs, Ref(from, c));
    RefStruck(d.refs, Ref(from, c), 0);
    forall k | 0 <= k < |r.refs| ensures r.refs[k].cell < |r.cells| {
      if k < |rest| {
        assert rest[k] in d.refs;
      } else {
        assert Ref(from, c) in d.refs;
      }
    }
    forall x | 0 <= x < |r.cells| ensures CellCounted(r, x) {
      assert CellCounted(d, x);
      RefStruck(d.refs, Ref(from, c), x);
      RefsAppend(rest, Ref(to, c), x);
    }
  }

  // ---------- letting go ----------

  /** Counted, but for the holders in `extra` that have just let go. */
  predicate OverCounted(d: Data, extra: seq<nat>) {
    |d.cells| == |d.inside| && PartsAreTexts(d) &&
    (forall k :: 0 <= k < |d.refs| ==> d.refs[k].cell < |d.cells|) &&
    forall c :: 0 <= c < |d.cells| ==> CellOver(d, c, Count(extra, c))
  }

  predicate CellOver(d: Data, c: nat, extra: nat)
    requires c < |d.cells| == |d.inside|
  {
    d.cells[c].counter == RefCount(d.refs, c) + Holders(d.inside, c) + extra &&
    (d.inside[c].Some? <==> d.cells[c].counter > 0) &&
    (d.cells[c].text.Some? ==> Elements(d.inside[c]) == [])
  }

  lemma NothingOver(d: Data)
    ensures Counted(d) <==> OverCounted(d, [])
  {
    assert |d.cells| == |d.inside| ==> forall c :: 0 <= c < |d.cells| ==> (CellCounted(d, c) <==> CellOver(d, c, Count([], c)));
  }

  lemma LetTextGoOver(d: Data, extra: seq<nat>, c: nat)
    requires OverCounted(d, extra + [c]) && c < |d.cells| && d.cells[c].text.Some?
    ensures OverCounted(LetTextGo(d, c), extra)
  {
    hide Count, RefCount, Holders, FreeText;
    var r := LetTextGo(d, c);
    assert CellOver(d, c, Count(extra + [c], c));
    CountAppend(extra, [c], c);
    CountOne(c, c);
    forall x | 0 <= x < |r.cells| ensures CellOver(r, x, Count(extra, x)) {
      assert CellOver(d, x, Count(extra + [c], x));
      CountAppend(extra, [c], x);
      CountOne(c, x);
      HoldersUpdate(d.inside, c, None, x);
      NoneCounted(x);
    }
  }

  lemma NoneCounted(x: nat)
    ensures Count([], x) == 0
  {
  }

  lemma {:induction false} LetTextsOver(d: Data, extra: seq<nat>, parts: seq<nat>)
    requires OverCounted(d, extra + parts) && forall k :: 0 <= k < |parts| ==> parts[k] < |d.cells| && d.cells[parts[k]].text.Some?
    ensures OverCounted(LetTextsGo(d, parts), extra)
    ensures forall c :: 0 <= c < |d.cells| ==> LetTextsGo(d, parts).cells[c].text == d.cells[c].text
    decreases parts
  {
    if parts == [] {
      assert extra + parts == extra;
    } else {
      hide LetTextGo, RefCount, Holders, Count;
      var front, last := parts[..|parts| - 1], parts[|parts| - 1];
      forall x ensures Count((extra + [last]) + front, x) == Count(extra + parts, x) {
        assert parts == front + [last];
        CountAppend(extra, parts, x);
        CountAppend(front, [last], x);
        CountAppend(extra + [last], front, x);
        CountAppend(extra, [last], x);
      }
      LetTextsOver(d, extra + [last], front);
      LetTextGoOver(LetTextsGo(d, front), extra, last);
      TextStays(LetTextsGo(d, front), last);
    }
  }

  lemma TextStays(d: Data, c: nat)
    ensures forall x :: 0 <= x < |d.cells| ==> LetTextGo(d, c).cells[x].text == d.cells[x].text
  {
  }

  /** A context lets go of what it held when it goes itself. */
  lemma ContextGoes(d: Data, c: nat)
    requires OverCounted(d, [c]) && c < |d.cells| && d.cells[c].text == None && d.cells[c].counter > 0
    ensures OverCounted(LetTextGo(d, c), if d.cells[c].counter == 1 then Elements(d.inside[c]) else [])
  {
    hide Count, RefCount, Holders, FreeText;
    var r := LetTextGo(d, c);
    var parts := if d.cells[c].counter == 1 then Elements(d.inside[c]) else [];
    assert CellOver(d, c, Count([c], c));
    forall x | 0 <= x < |r.cells| ensures CellOver(r, x, Count(parts, x)) {
      assert CellOver(d, x, Count([c], x));
      CountOne(c, x);
      HoldersUpdate(d.inside, c, None, x);
      NoneCounted(x);
    }
  }

  lemma DropKeeps(d: Data, ref: Ref)
    requires Counted(d) && ref in d.refs
    ensures ref.cell < |d.cells| && Counted(Drop(d, ref))
  {
    hide RefCount, Holders, LetTextGo, LetTextsGo, Count;
    var c := ref.cell;
    var struck := d.(refs := WithoutRef(d.refs, ref));
    StruckOver(d, ref);
    var over := LetTextGo(struck, c);
    assert CellOver(struck, c, Count([c], c));
    RefsPresent(d.refs, ref);
    if d.cells[c].text.Some? {
      assert [] + [c] == [c];
      LetTextGoOver(struck, [], c);
      LetTextsNone(over);
    } else {
      ContextGoes(struck, c);
      var parts := if d.cells[c].counter == 1 then Elements(d.inside[c]) else [];
      TextStays(struck, c);
      assert forall k :: 0 <= k < |parts| ==> parts[k] < |d.cells| && d.cells[parts[k]].text.Some?;
      assert [] + parts == parts;
      LetTextsOver(over, [], parts);
    }
    NothingOver(Drop(d, ref));
  }

  lemma LetTextsNone(d: Data)
    ensures LetTextsGo(d, []) == d
  {
  }

  lemma StruckOver(d: Data, ref: Ref)
    requires Counted(d) && ref in d.refs
    ensures ref.cell < |d.cells| && d.cells[ref.cell].counter > 0
    ensures OverCounted(d.(refs := WithoutRef(d.refs, ref)), [ref.cell])
  {
    var c, r := ref.cell, d.(refs := WithoutRef(d.refs, ref));
    var i :| 0 <= i < |d.refs| && d.refs[i] == ref;
    assert c < |d.cells|;
    RefsPresent(d.refs, ref);
    assert CellCounted(d, c);
    forall k | 0 <= k < |r.refs| ensures r.refs[k].cell < |r.cells| {
      RefStruck(d.refs, ref, 0);
      assert r.refs[k] in d.refs;
    }
    forall x | 0 <= x < |r.cells| ensures CellOver(r, x, Count([c], x)) {
      assert CellCounted(d, x);
      RefStruck(d.refs, ref, x);
      CountOne(c, x);
    }
  }

  // ---------- runs ----------

  datatype Step =
    | MakeText
    | WrapText(text: nat, holder: Holder)
    | MakeContext(holder: Holder)
    | CopyCell(c: nat, holder: Holder)
    | PutPart(context: nat, c: nat)
    | PassRef(c: nat, from: Holder, to: Holder)
    | DropRef(ref: Ref)
    | LeaveLater(text: nat)
    | SendLeave

  /** What a function may do with what it holds or reaches. */
  predicate Enabled(d: Data, step: Step) {
    match step
    case MakeText => true
    case WrapText(text, _) => text < |d.freed|
    case MakeContext(_) => true
    case CopyCell(c, _) => c < |d.cells| && d.cells[c].counter > 0
    case PutPart(context, c) =>
      context < |d.cells| == |d.inside| && d.inside[context].Some? && d.cells[context].counter > 0 && d.cells[context].text == None &&
      Ref(FunctionRef, c) in d.refs && c < |d.cells| && d.cells[c].text.Some?
    case PassRef(c, from, _) => Ref(from, c) in d.refs
    case DropRef(ref) => ref in d.refs && ref.cell < |d.cells| == |d.inside|
    case LeaveLater(text) => text < |d.freed|
    case SendLeave => true
  }

  function Apply(d: Data, step: Step): Data
    requires Enabled(d, step)
  {
    match step
    case MakeText => NewText(d)
    case WrapText(text, holder) => Wrap(d, text, holder)
    case MakeContext(holder) => NewContext(d, holder)
    case CopyCell(c, holder) => Copy(d, c, holder)
    case PutPart(context, c) => Put(d, context, c)
    case PassRef(c, from, to) => Pass(d, c, from, to)
    case DropRef(ref) => Drop(d, ref)
    case LeaveLater(text) => AddLeave(d, text)
    case SendLeave => SendPostponed(d)
  }

  const NO_DATA: Data := Data([], [], [], [], [])

  function Run(steps: seq<Step>): Data {
    if steps == [] then NO_DATA
    else
      var d, step := Run(steps[..|steps| - 1]), steps[|steps| - 1];
      if Enabled(d, step) then Apply(d, step) else d
  }

  lemma SameCells(d: Data, r: Data)
    requires Counted(d) && r.cells == d.cells && r.inside == d.inside && r.refs == d.refs
    ensures Counted(r)
  {
    forall c | 0 <= c < |r.cells| ensures CellCounted(r, c) {
      assert CellCounted(d, c);
    }
  }

  lemma StepCounts(d: Data, step: Step)
    requires Counted(d) && Enabled(d, step)
    ensures Counted(Apply(d, step))
  {
    hide Counted;
    match step
    case MakeText => SameCells(d, NewText(d));
    case WrapText(text, holder) => NewCellKeeps(d, Cell(1, Some(text)), holder);
    case MakeContext(holder) => NewCellKeeps(d, Cell(1, None), holder);
    case CopyCell(c, holder) => CopyKeeps(d, c, holder);
    case PutPart(context, c) => PutKeeps(d, context, c);
    case PassRef(c, from, to) => PassKeeps(d, c, from, to);
    case DropRef(ref) => DropKeeps(d, ref);
    case LeaveLater(text) => SameCells(d, AddLeave(d, text));
    case SendLeave => SameCells(d, SendPostponed(d));
  }

  lemma {:induction false} RunCounts(steps: seq<Step>)
    ensures Counted(Run(steps))
  {
    if steps != [] {
      hide Counted, Enabled, Apply;
      RunCounts(steps[..|steps| - 1]);
      var d, step := Run(steps[..|steps| - 1]), steps[|steps| - 1];
      if Enabled(d, step) {
        StepCounts(d, step);
      }
    }
  }

  /** In every run, every context and text cell that an event, state, invocation,
      function or live context refers to is allocated, and its counter is exactly the
      number of those holders. */
  lemma DataIsCounted(steps: seq<Step>, c: nat)
    requires c < |Run(steps).cells|
    ensures var d := Run(steps);
      |d.inside| == |d.cells| && d.cells[c].counter == RefCount(d.refs, c) + Holders(d.inside, c) &&
      (d.inside[c].Some? <==> d.cells[c].counter > 0) &&
      (forall ref :: ref in d.refs && ref.cell == c ==> d.cells[c].counter > 0) &&
      (forall x, k :: 0 <= x < |d.inside| && 0 <= k < |Elements(d.inside[x])| && Elements(d.inside[x])[k] == c ==> d.cells[c].counter > 0)
  {
    var d := Run(steps);
    RunCounts(steps);
    assert CellCounted(d, c);
    forall ref | ref in d.refs && ref.cell == c ensures d.cells[c].counter > 0 {
      RefsPresent(d.refs, ref);
    }
    forall x, k | 0 <= x < |d.inside| && 0 <= k < |Elements(d.inside[x])| && Elements(d.inside[x])[k] == c
      ensures d.cells[c].counter > 0
    {
      CountPresent(Elements(d.inside[x]), k);
      HoldersIn(d.inside, x, c);
    }
  }

  // ---------- texts ----------

  predicate Wrapped(d: Data, text: nat) {
    exists c :: 0 <= c < |d.cells| && d.cells[c].text == Some(text)
  }

  /** A text that only the caller has. */
  predicate Own(d: Data, text: nat) {
    text < |d.freed| && d.freed[text] == 0 && !Wrapped(d, text) && text !in d.leave
  }

  /** A text goes into one cell, or into the leave lists, but never both. */
  predicate Proper(d: Data, step: Step) {
    (step.WrapText? || step.LeaveLater?) ==> Own(d, step.text)
  }

  /** Texts have one owner; no text is freed twice or while a live cell or a leave list
      has it. */
  predicate TextsSafe(d: Data) {
    (forall c :: 0 <= c < |d.cells| && d.cells[c].text.Some? ==>
       d.cells[c].text.value < |d.freed| && (d.cells[c].counter > 0 ==> d.freed[d.cells[c].text.value] == 0)) &&
    (forall b, c :: 0 <= b < c < |d.cells| && d.cells[b].text.Some? ==> d.cells[b].text != d.cells[c].text) &&
    (forall s :: 0 <= s < |d.freed| ==> d.freed[s] <= 1) &&
    (forall k :: 0 <= k < |d.leave| ==> d.leave[k] < |d.freed| && d.freed[d.leave[k]] == 0 && !Wrapped(d, d.leave[k])) &&
    (forall j, k :: 0 <= j < k < |d.leave| ==> d.leave[j] != d.leave[k])
  }

  lemma LetTextGoSafe(d: Data, c: nat)
    requires TextsSafe(d) && |d.cells| == |d.inside| && c < |d.cells| && d.cells[c].counter > 0
    ensures TextsSafe(LetTextGo(d, c))
  {
    var r := LetTextGo(d, c);
    assert forall x :: 0 <= x < |d.cells| ==> r.cells[x].text == d.cells[x].text;
    assert forall s :: Wrapped(r, s) <==> Wrapped(d, s);
    forall k | 0 <= k < |r.leave| ensures r.freed[r.leave[k]] == 0 {
      assert !Wrapped(d, d.leave[k]);
    }
  }

  lemma {:induction false} LetTextsSafe(d: Data, extra: seq<nat>, parts: seq<nat>)
    requires TextsSafe(d) && OverCounted(d, extra + parts)
    requires forall k :: 0 <= k < |parts| ==> parts[k] < |d.cells| && d.cells[parts[k]].text.Some?
    ensures TextsSafe(LetTextsGo(d, parts))
    decreases parts
  {
    if parts != [] {
      hide TextsSafe, LetTextGo, Holders, RefCount, Count;
      var front, last := parts[..|parts| - 1], parts[|parts| - 1];
      assert parts == front + [last];
      OverMoves(d, extra, front, last);
      LetTextsSafe(d, extra + [last], front);
      LetTextsOver(d, extra + [last], front);
      var before := LetTextsGo(d, front);
      assert CellOver(before, last, Count(extra + [last], last));
      CountAppend(extra, [last], last);
      CountOne(last, last);
      LetTextGoSafe(before, last);
    }
  }

  lemma OverMoves(d: Data, extra: seq<nat>, front: seq<nat>, last: nat)
    requires OverCounted(d, extra + (front + [last]))
    ensures OverCounted(d, (extra + [last]) + front)
  {
    forall c | 0 <= c < |d.cells| ensures CellOver(d, c, Count((extra + [last]) + front, c)) {
      assert CellOver(d, c, Count(extra + (front + [last]), c));
      CountAppend(extra, front + [last], c);
      CountAppend(front, [last], c);
      CountAppend(extra + [last], front, c);
      CountAppend(extra, [last], c);
    }
  }

  lemma DropSafe(d: Data, ref: Ref)
    requires Counted(d) && TextsSafe(d) && ref in d.refs
    ensures ref.cell < |d.cells| && TextsSafe(Drop(d, ref))
  {
    hide RefCount, Holders, LetTextGo, Count;
    var c := ref.cell;
    StruckOver(d, ref);
    var struck := d.(refs := WithoutRef(d.refs, ref));
    assert TextsSafe(struck) by {
      assert forall s :: Wrapped(struck, s) <==> Wrapped(d, s);
    }
    LetTextGoSafe(struck, c);
    var over := LetTextGo(struck, c);
    if d.cells[c].text.Some? || d.cells[c].counter > 1 {
      assert CellOver(struck, c, Count([c], c));
      LetTextsNone(over);
    } else {
      ContextGoes(struck, c);
      TextStays(struck, c);
      var parts := Elements(d.inside[c]);
      assert forall k :: 0 <= k < |parts| ==> parts[k] < |d.cells| && d.cells[parts[k]].text.Some?;
      assert [] + parts == parts;
      LetTextsSafe(over, [], parts);
    }
  }

  lemma {:induction false} FreeAllCounts(freed: seq<nat>, texts: seq<nat>, s: nat)
    requires s < |freed|
    ensures FreeAll(freed, texts)[s] == freed[s] + Count(texts, s)
  {
    if texts != [] {
      FreeAllCounts(freed, texts[..|texts| - 1], s);
    }
  }

  lemma {:induction false} CountOnce(s: seq<nat>, i: nat)
    requires forall j, k :: 0 <= j < k < |s| ==> s[j] != s[k]
    ensures Count(s, i) <= 1
  {
    if s != [] {
      var front := s[..|s| - 1];
      CountOnce(front, i);
      if s[|s| - 1] == i {
        CountAbsent(front, i);
      }
    }
  }

  lemma SendSafe(d: Data)
    requires TextsSafe(d)
    ensures TextsSafe(SendPostponed(d))
  {
    var r := SendPostponed(d);
    forall s | 0 <= s < |d.freed| ensures r.freed[s] == d.freed[s] + Count(d.leave, s) <= 1 {
      FreeAllCounts(d.freed, d.leave, s);
      CountOnce(d.leave, s);
      if s !in d.leave {
        CountAbsent(d.leave, s);
      }
    }
    forall c | 0 <= c < |d.cells| && d.cells[c].text.Some? ensures Count(d.leave, d.cells[c].text.value) == 0 {
      assert Wrapped(d, d.cells[c].text.value);
      CountAbsent(d.leave, d.cells[c].text.value);
    }
  }

  lemma AllocSafe(d: Data, cell: Cell, holder: Holder)
    requires TextsSafe(d) && (cell.text.Some? ==> Own(d, cell.text.value))
    ensures TextsSafe(d.(cells := d.cells + [cell], inside := d.inside + [Some([])], refs := d.refs + [Ref(holder, |d.cells|)]))
  {
    var n := |d.cells|;
    var r := d.(cells := d.cells + [cell], inside := d.inside + [Some([])], refs := d.refs + [Ref(holder, n)]);
    forall k | 0 <= k < |d.leave| ensures !Wrapped(r, d.leave[k]) {
      assert !Wrapped(d, d.leave[k]);
    }
    forall b | 0 <= b < n && d.cells[b].text.Some? ensures d.cells[b].text != cell.text {
      assert Wrapped(d, d.cells[b].text.value);
    }
  }

  lemma LeaveSafe(d: Data, text: nat)
    requires TextsSafe(d) && Own(d, text)
    ensures TextsSafe(AddLeave(d, text))
  {
    var r := AddLeave(d, text);
    assert forall s :: Wrapped(r, s) <==> Wrapped(d, s);
  }

  lemma SameTexts(d: Data, r: Data)
    requires TextsSafe(d) && r.leave == d.leave && |r.cells| == |d.cells|
    requires r.freed == d.freed || r.freed == d.freed + [0]
    requires forall c :: 0 <= c < |d.cells| ==> r.cells[c].text == d.cells[c].text && (r.cells[c].counter > 0 ==> d.cells[c].counter > 0)
    ensures TextsSafe(r)
  {
    assert forall s :: Wrapped(r, s) <==> Wrapped(d, s);
  }

  lemma StepSafe(d: Data, step: Step)
    requires Counted(d) && TextsSafe(d) && Enabled(d, step) && Proper(d, step)
    ensures TextsSafe(Apply(d, step))
  {
    hide TextsSafe, Counted, Own;
    match step
    case WrapText(text, holder) => AllocSafe(d, Cell(1, Some(text)), holder);
    case MakeContext(holder) => AllocSafe(d, Cell(1, None), holder);
    case DropRef(ref) => DropSafe(d, ref);
    case LeaveLater(text) => LeaveSafe(d, text);
    case SendLeave => SendSafe(d);
    case _ => SameTexts(d, Apply(d, step));
  }

  predicate ProperRun(steps: seq<Step>) {
    forall n :: 0 <= n < |steps| && Enabled(Run(steps[..n]), steps[n]) ==> Proper(Run(steps[..n]), steps[n])
  }

  /** In every run in which a text goes into one cell or into the leave lists, but not
      both, no text is freed twice, and none that a live cell or a leave list has. */
  lemma {:induction false} NoFreedTextIsReached(steps: seq<Step>)
    requires ProperRun(steps)
    ensures TextsSafe(Run(steps))
  {
    if steps != [] {
      hide TextsSafe, Counted, Enabled, Apply, Proper;
      var last := |steps| - 1;
      assert forall n :: 0 <= n < last ==> steps[..last][..n] == steps[..n];
      NoFreedTextIsReached(steps[..last]);
      RunCounts(steps[..last]);
      if Enabled(Run(steps[..last]), steps[last]) {
        StepSafe(Run(steps[..last]), steps[last]);
      }
    } else {
      assert TextsSafe(NO_DATA);
    }
  }
}
