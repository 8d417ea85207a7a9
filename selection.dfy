/** The formation page (gc1): for every existing idea a grid of 3 x 3
    checkboxes, row r standing for the idea's possibility r and column k for
    formed concept k. Checking a box selects that possibility of the idea for
    formed concept k: `pastel_grupo{(c-1)*3+k}` holds the possibility's text.
    The boxes of one (idea, column) pair form a group with a single choice. */
module Selection {
  import opened Store
  import opened Indexing
  import opened Ideas

  /** The checkbox in row `row` and column `col` of idea `conc`'s table. */
  datatype Box = Box(conc: int, row: int, col: int)

  /** `data-pos`: the possibility slot the box stands for. */
  function PosIndex(b: Box): int {
    FlatIndex(b.conc, b.row)
  }

  /** The slot of the box's group key `pastel_grupo{...}`. */
  function GroupIndex(b: Box): int {
    FlatIndex(b.conc, b.col)
  }

  predicate SameGroup(a: Box, b: Box) {
    a.conc == b.conc && a.col == b.col
  }

  /** Whether generarTablas renders box `b` when the ideas `cs` exist. */
  predicate IsRenderedIn(cs: seq<int>, b: Box) {
    b.conc in cs && IsSlot(b.row) && IsColumn(b.col)
  }

  /** Every box's possibility slot and group slot lie in 1..15; two boxes
      share a group slot exactly when they are in the same group, and a
      possibility slot exactly when they are in the same row of the same
      idea. */
  lemma BoxLayout(a: Box, b: Box)
    requires IsIdea(a.conc) && IsSlot(a.row) && IsColumn(a.col)
    requires IsIdea(b.conc) && IsSlot(b.row) && IsColumn(b.col)
    ensures 1 <= PosIndex(a) <= MaxIdeas * SlotsPerIdea && 1 <= GroupIndex(a) <= MaxIdeas * SlotsPerIdea
    ensures GroupIndex(a) == GroupIndex(b) <==> SameGroup(a, b)
    ensures PosIndex(a) == PosIndex(b) <==> a.conc == b.conc && a.row == b.row
  {
    FlatIndexRange(a.conc, a.row);
    FlatIndexRange(a.conc, a.col);
    FlatIndexInjective(a.conc, a.col, b.conc, b.col);
    FlatIndexInjective(a.conc, a.row, b.conc, b.row);
  }

  // ---------------------------------------------------------------------------
  // Rendering

  /** The nine boxes of idea c, in document order: row by row, column by
      column. */
  function Grid(c: int): seq<Box> {
    [Box(c, 1, 1), Box(c, 1, 2), Box(c, 1, 3),
     Box(c, 2, 1), Box(c, 2, 2), Box(c, 2, 3),
     Box(c, 3, 1), Box(c, 3, 2), Box(c, 3, 3)]
  }

  /** All rendered boxes in document order, one grid per existing idea. */
  function BoxOrder(cs: seq<int>): seq<Box> {
    if cs == [] then [] else BoxOrder(cs[..|cs| - 1]) + Grid(cs[|cs| - 1])
  }

  lemma {:induction false} BoxOrderSpec(cs: seq<int>)
    ensures forall b :: b in BoxOrder(cs) <==> IsRenderedIn(cs, b)
  {
    if cs != [] {
      var prev := cs[..|cs| - 1];
      BoxOrderSpec(prev);
      forall b ensures b in BoxOrder(cs) <==> IsRenderedIn(cs, b) {
        assert b.conc in cs <==> b.conc in prev || b.conc == cs[|cs| - 1] by {
          assert cs == prev + [cs[|cs| - 1]];
        }
      }
    }
  }

  // ---------------------------------------------------------------------------
  // configurarCheckboxes: the initial state of each box

  /** The load rule as written: `data[groupKey] === data['pos' + pos]`. Two
      absent keys compare equal, so a group with no stored selection checks
      every box whose possibility is not stored. */
  predicate CheckedOnLoadAsWritten(d: Record, b: Box) {
    Get(d, PastelGrupo(GroupIndex(b))) == Get(d, Pos(PosIndex(b)))
  }

  /** A fresh idea, with neither a selection nor possibilities stored, shows
      all three boxes of every column checked, against the single choice the
      page enforces. */
  lemma FreshIdeaChecksAllAsWritten(d: Record, c: int, col: int)
    requires IsIdea(c) && IsColumn(col)
    requires PastelGrupo(FlatIndex(c, col)) !in d
    requires forall r | IsSlot(r) :: Pos(FlatIndex(c, r)) !in d
    ensures forall r | IsSlot(r) :: CheckedOnLoadAsWritten(d, Box(c, r, col))
  {
  }

  /** The load rule the page evidently intends: a box is checked when a
      selection is stored for its group and equals its possibility. */
  predicate CheckedOnLoad(d: Record, b: Box) {
    PastelGrupo(GroupIndex(b)) in d && Get(d, PastelGrupo(GroupIndex(b))) == Get(d, Pos(PosIndex(b)))
  }

  /** With the intended rule, a group with no stored selection has no box
      checked, and when an idea's three possibilities differ at most one box
      of each group is checked. */
  lemma CheckedOnLoadSpec(d: Record, a: Box, b: Box)
    requires IsIdea(a.conc) && IsSlot(a.row) && IsColumn(a.col)
    requires IsIdea(b.conc) && IsSlot(b.row) && IsColumn(b.col)
    ensures PastelGrupo(GroupIndex(a)) !in d ==> !CheckedOnLoad(d, a)
    ensures SameGroup(a, b) && a.row != b.row && Get(d, Pos(PosIndex(a))) != Get(d, Pos(PosIndex(b))) ==>
      !(CheckedOnLoad(d, a) && CheckedOnLoad(d, b))
  {
    BoxLayout(a, b);
  }

  /** configurarCheckboxes: every rendered box, in document order, starts
      unchecked and is checked when its group's selection matches. */
  method ConfigureBoxes(d: Record, bs: seq<Box>) returns (boxes: map<Box, bool>)
    ensures forall b :: b in boxes <==> b in bs
    ensures forall b | b in boxes :: boxes[b] == CheckedOnLoad(d, b)
  {
    boxes := map[];
    for j := 0 to |bs|
      invariant forall b :: b in boxes <==> b in bs[..j]
      invariant forall b | b in boxes :: boxes[b] == CheckedOnLoad(d, b)
    {
      var chk := bs[j];
      var groupKey := PastelGrupo(GroupIndex(chk));
      assert bs[..j + 1] == bs[..j] + [chk];
      boxes := boxes[chk := false];
      if groupKey in d && Get(d, groupKey) == Get(d, Pos(PosIndex(chk))) {
        boxes := boxes[chk := true];
      }
    }
    assert bs[..|bs|] == bs;
  }

  // ---------------------------------------------------------------------------
  // handleCheckboxChange

  /** The other boxes of b's group among rows 1..n, as far as they are
      rendered, unchecked. */
  function ClearedUpTo(boxes: map<Box, bool>, b: Box, n: nat): map<Box, bool> {
    if n == 0 then boxes
    else
      var m := ClearedUpTo(boxes, b, n - 1);
      var o := Box(b.conc, n, b.col);
      if o != b && o in m then m[o := false] else m
  }

  lemma {:induction false} ClearedUpToSpec(boxes: map<Box, bool>, b: Box, n: nat)
    ensures forall o :: o in ClearedUpTo(boxes, b, n) <==> o in boxes
    ensures forall o | o in boxes ::
      ClearedUpTo(boxes, b, n)[o] == if o != b && SameGroup(o, b) && 1 <= o.row <= n then false else boxes[o]
  {
    if n > 0 {
      ClearedUpToSpec(boxes, b, n - 1);
    }
  }

  /** The boxes after the user checks b: b checked, the rest of its group
      unchecked. */
  function AfterCheck(boxes: map<Box, bool>, b: Box): map<Box, bool> {
    ClearedUpTo(boxes[b := true], b, SlotsPerIdea)
  }

  /** Checking a box leaves it the only checked box of its group and changes
      no box of any other group. */
  lemma AfterCheckSpec(boxes: map<Box, bool>, b: Box)
    requires b in boxes
    ensures forall o :: o in AfterCheck(boxes, b) <==> o in boxes
    ensures forall o | o in boxes && SameGroup(o, b) && IsSlot(o.row) :: AfterCheck(boxes, b)[o] <==> o == b
    ensures forall o | o in boxes && !SameGroup(o, b) :: AfterCheck(boxes, b)[o] == boxes[o]
  {
    ClearedUpToSpec(boxes[b := true], b, SlotsPerIdea);
  }

  /** `.some(c => c.checked)` over the rendered boxes of a group. */
  predicate AnyChecked(boxes: map<Box, bool>, b: Box) {
    exists r | 1 <= r <= SlotsPerIdea :: Box(b.conc, r, b.col) in boxes && boxes[Box(b.conc, r, b.col)]
  }

  /** `data[pos] || ''`. */
  function SelectedValue(d: Record, k: Key): Value {
    if Has(d, k) then d[k] else Text("")
  }

  /** The record after the change event of box b, given the boxes after the
      browser toggled b: a check stores b's possibility as the group's
      selection; an uncheck deletes the selection when no box of the group
      remains checked. */
  function AfterChange(d: Record, boxes: map<Box, bool>, b: Box, nowChecked: bool): Record {
    var groupKey := PastelGrupo(GroupIndex(b));
    if nowChecked then d[groupKey := SelectedValue(d, Pos(PosIndex(b)))]
    else if AnyChecked(boxes, b) then d
    else d - {groupKey}
  }

  /** A change event writes only b's group key: after a check it holds b's
      possibility text ('' for none), after an uncheck it is gone exactly when
      no box of the group is still checked. */
  lemma AfterChangeSpec(d: Record, boxes: map<Box, bool>, b: Box, nowChecked: bool)
    ensures var e, g := AfterChange(d, boxes, b, nowChecked), PastelGrupo(GroupIndex(b));
      && (nowChecked ==> Get(e, g) == Some(SelectedValue(d, Pos(PosIndex(b)))))
      && (!nowChecked ==> (g in e <==> g in d && AnyChecked(boxes, b)))
      && forall k | k != g :: Get(e, k) == Get(d, k)
  {
  }

  /** A selection made by checking a box whose possibility is stored as text
      is what the intended load rule checks again on reload. */
  lemma CheckThenReload(d: Record, b: Box, boxes: map<Box, bool>)
    requires Pos(PosIndex(b)) in d && d[Pos(PosIndex(b))].Text?
    ensures CheckedOnLoad(AfterChange(d, boxes, b, true), b)
  {
  }

  /** The change event touches no `concepto` key, so the same ideas exist. */
  lemma AfterChangeKeepsExisting(d: Record, boxes: map<Box, bool>, b: Box, nowChecked: bool)
    ensures Existing(AfterChange(d, boxes, b, nowChecked)) == Existing(d)
  {
    var e := AfterChange(d, boxes, b, nowChecked);
    AfterChangeSpec(d, boxes, b, nowChecked);
    forall c | IsIdea(c) ensures TextOr(e, Concepto(c)) == TextOr(d, Concepto(c)) {
      assert Get(e, Concepto(c)) == Get(d, Concepto(c));
    }
    ExistingFrame(d, e);
  }

  /** The loop unchecking the other boxes of b's group. */
  method ClearOthers(boxes: map<Box, bool>, b: Box) returns (m: map<Box, bool>)
    ensures m == ClearedUpTo(boxes, b, SlotsPerIdea)
  {
    m := boxes;
    for r := 1 to SlotsPerIdea + 1
      invariant m == ClearedUpTo(boxes, b, r - 1)
    {
      var other := Box(b.conc, r, b.col);
      if other != b && other in m {
        m := m[other := false];
      }
    }
  }

  /** The `some` scan over b's group. */
  method ScanGroup(boxes: map<Box, bool>, b: Box) returns (anyChecked: bool)
    ensures anyChecked == AnyChecked(boxes, b)
  {
    anyChecked := false;
    for r := 1 to SlotsPerIdea + 1
      invariant anyChecked <==> exists q | 1 <= q < r :: Box(b.conc, q, b.col) in boxes && boxes[Box(b.conc, q, b.col)]
    {
      var c := Box(b.conc, r, b.col);
      if c in boxes && boxes[c] {
        anyChecked := true;
      }
    }
  }

  class SelectionPage {
    /** The page's copy of the record. */
    var data: Record
    /** What local storage holds. */
    var stored: Record
    /** The ideas whose tables are rendered. */
    var concepts: seq<int>
    /** The checked state of every rendered box. */
    var boxes: map<Box, bool>

    ghost predicate Valid()
      reads this
    {
      && concepts == Existing(data)
      && (forall b :: b in boxes <==> IsRenderedIn(concepts, b))
      && stored == data
    }

    /** Page load: one grid per existing idea (none at all when no idea
        exists), each box checked by the load rule. */
    constructor Load(saved: Record)
      ensures Valid()
      ensures data == saved && concepts == Existing(saved)
      ensures forall b | b in boxes :: boxes[b] == CheckedOnLoad(saved, b)
    {
      var cs := ExistingConcepts(saved);
      var bs := BoxOrder(cs);
      BoxOrderSpec(cs);
      var initial := ConfigureBoxes(saved, bs);
      data := saved;
      stored := saved;
      concepts := cs;
      boxes := initial;
    }

    /** The user toggles box b to `nowChecked`; handleCheckboxChange then
        keeps the group single-choice, records the selection and writes the
        record to local storage. */
    method Change(b: Box, nowChecked: bool)
      requires Valid() && b in boxes
      modifies this`boxes, this`data, this`stored
      ensures Valid()
      ensures boxes == (if nowChecked then AfterCheck(old(boxes), b) else old(boxes)[b := false])
      ensures data == AfterChange(old(data), boxes, b, nowChecked)
    {
      ghost var d0 := data;
      boxes := boxes[b := nowChecked];
      ghost var toggled := boxes;
      var groupKey := PastelGrupo(GroupIndex(b));
      if nowChecked {
        boxes := ClearOthers(boxes, b);
        data := data[groupKey := SelectedValue(data, Pos(PosIndex(b)))];
      } else {
        var anyChecked := ScanGroup(boxes, b);
        if !anyChecked {
          data := data - {groupKey};
        }
      }
      stored := data;
      AfterChangeKeepsExisting(d0, boxes, b, nowChecked);
      ClearedUpToSpec(toggled, b, SlotsPerIdea);
    }

    /** saveAndContinue: the record is written to local storage once more. */
    method SaveAndContinue()
      requires Valid()
      modifies this`stored
      ensures Valid() && stored == data
    {
      stored := data;
    }
  }
}
