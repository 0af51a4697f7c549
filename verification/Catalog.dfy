/** The standard patterns: lines, pairs of lines and blackout, as nested loops build them and as what they mean. */
module Catalog {

  import opened Common
  import opened Patterns
  import opened Rows
  import M = RoundMachine

  const LINE_COUNT := 12

  /** Rows 0-4, columns 5-9 and the two diagonals. */
  predicate OnLine(line: nat, i: nat) {
    i < CELL_COUNT &&
    if line < 5 then i / 5 == line
    else if line < 10 then i % 5 == line - 5
    else if line == 10 then i / 5 == i % 5
    else line == 11 && i / 5 + i % 5 == 4
  }

  function LineCells(line: nat): set<nat> {
    set i: nat | i < CELL_COUNT && OnLine(line, i)
  }

  function Mask(indexes: set<nat>): CellSet {
    seq(CELL_COUNT, i requires 0 <= i < CELL_COUNT => i in indexes)
  }

  // ---------- the loops ----------

  /** The first `k` of the cells base, base + step, ... */
  function Steps(base: nat, step: nat, k: nat): set<nat> {
    if k == 0 then {} else Steps(base, step, k - 1) + {base + (k - 1) * step}
  }

  lemma FiveSteps(base: nat, step: nat)
    ensures Steps(base, step, 5) == {base, base + step, base + 2 * step, base + 3 * step, base + 4 * step}
  {
    assert Steps(base, step, 0) == {};
    assert Steps(base, step, 1) == {base};
    assert Steps(base, step, 2) == {base, base + step};
    assert Steps(base, step, 3) == {base, base + step, base + 2 * step};
    assert Steps(base, step, 4) == {base, base + step, base + 2 * step, base + 3 * step};
  }

  method FiveCells(base: nat, step: nat) returns (cells: set<nat>)
    ensures cells == {base, base + step, base + 2 * step, base + 3 * step, base + 4 * step}
  {
    cells := {};
    var next := base;
    for k := 0 to 5
      invariant next == base + k * step && cells == Steps(base, step, k)
    {
      cells := cells + {next};
      next := next + step;
    }
    FiveSteps(base, step);
  }

  method CreateLineIndexes() returns (lines: seq<set<nat>>)
    ensures |lines| == LINE_COUNT && forall k | 0 <= k < LINE_COUNT :: lines[k] == LineCells(k)
  {
    hide OnLine;
    lines := [];
    for row := 0 to 5
      invariant |lines| == row && forall k | 0 <= k < row :: lines[k] == LineCells(k)
    {
      var cells := FiveCells(row * 5, 1);
      RowCells(row);
      lines := lines + [cells];
    }
    for column := 0 to 5
      invariant |lines| == 5 + column && forall k | 0 <= k < 5 + column :: lines[k] == LineCells(k)
    {
      var cells := FiveCells(column, 5);
      ColumnCells(column);
      lines := lines + [cells];
    }
    Diagonals();
    lines := lines + [{0, 6, 12, 18, 24}, {4, 8, 12, 16, 20}];
  }

  lemma RowCells(row: nat)
    requires row < 5
    ensures LineCells(row) == {row * 5, row * 5 + 1, row * 5 + 2, row * 5 + 3, row * 5 + 4}
  {
  }

  lemma ColumnCells(column: nat)
    requires column < 5
    ensures LineCells(5 + column) == {column, column + 5, column + 10, column + 15, column + 20}
  {
  }

  lemma Diagonals()
    ensures LineCells(10) == {0, 6, 12, 18, 24} && LineCells(11) == {4, 8, 12, 16, 20}
  {
  }

  /** Position of the pair (first, second) in the nested loops. */
  predicate IsPair(masks: seq<CellSet>, a: nat, b: nat) {
    exists k | 0 <= k < |masks| :: masks[k] == PairMask(a, b)
  }

  function PairMask(a: nat, b: nat): CellSet {
    Mask(LineCells(a) + LineCells(b))
  }

  predicate PairMasks(masks: seq<CellSet>, first: nat, second: nat) {
    && (forall a, b | 0 <= a < b < LINE_COUNT && (a < first || (a == first && b < second)) :: IsPair(masks, a, b))
    && OnlyPairs(masks)
  }

  predicate OnlyPairs(masks: seq<CellSet>) {
    forall k | 0 <= k < |masks| :: exists a, b | 0 <= a < b < LINE_COUNT :: masks[k] == PairMask(a, b)
  }

  method CreateTwoLineMasks(lines: seq<set<nat>>) returns (masks: seq<CellSet>)
    requires |lines| == LINE_COUNT && forall k | 0 <= k < LINE_COUNT :: lines[k] == LineCells(k)
    ensures |masks| == 66 && PairMasks(masks, LINE_COUNT, 0)
  {
    hide PairMask;
    masks := [];
    for first := 0 to LINE_COUNT
      invariant PairMasks(masks, first, 0)
      invariant 2 * |masks| == first * (2 * LINE_COUNT - 1 - first)
    {
      NoPairBelow(masks, first);
      for second := first + 1 to LINE_COUNT
        invariant PairMasks(masks, first, second)
        invariant 2 * |masks| == first * (2 * LINE_COUNT - 1 - first) + 2 * (second - first - 1)
      {
        PairIs(first, second);
        AddPair(masks, first, second);
        masks := masks + [Mask(lines[first] + lines[second])];
      }
      RowOfPairs(masks, first);
    }
  }

  lemma NoPairBelow(masks: seq<CellSet>, first: nat)
    requires PairMasks(masks, first, 0)
    ensures PairMasks(masks, first, first + 1)
  {
    hide PairMask;
    forall a, b | 0 <= a < b < LINE_COUNT && (a < first || (a == first && b < first + 1)) ensures IsPair(masks, a, b) {
      assert a < first;
    }
  }

  lemma RowOfPairs(masks: seq<CellSet>, first: nat)
    requires PairMasks(masks, first, LINE_COUNT)
    ensures PairMasks(masks, first + 1, 0)
  {
    hide PairMask;
    forall a, b | 0 <= a < b < LINE_COUNT && (a < first + 1 || (a == first + 1 && b < 0)) ensures IsPair(masks, a, b) {
      assert a < first || (a == first && b < LINE_COUNT);
    }
  }

  lemma PairIs(a: nat, b: nat)
    ensures PairMask(a, b) == Mask(LineCells(a) + LineCells(b))
  {
  }

  lemma AddPair(masks: seq<CellSet>, first: nat, second: nat)
    requires PairMasks(masks, first, second) && first < second < LINE_COUNT
    ensures PairMasks(masks + [PairMask(first, second)], first, second + 1)
  {
    hide PairMask;
    var more := masks + [PairMask(first, second)];
    forall a, b | 0 <= a < b < LINE_COUNT && (a < first || (a == first && b < second + 1)) ensures IsPair(more, a, b) {
      if a == first && b == second {
        assert more[|masks|] == PairMask(a, b);
      } else {
        assert IsPair(masks, a, b);
        var k :| 0 <= k < |masks| && masks[k] == PairMask(a, b);
        assert more[k] == PairMask(a, b);
      }
    }
    forall k | 0 <= k < |more| ensures exists a, b | 0 <= a < b < LINE_COUNT :: more[k] == PairMask(a, b) {
      if k < |masks| { assert more[k] == masks[k]; }
    }
  }

  // ---------- what the standard patterns mean ----------

  /** Every cell of the line but the free one is called and marked. */
  predicate LineDone(line: nat, called: CellSet, marked: CellSet) {
    forall i: nat | i < CELL_COUNT && i != FREE_CELL && OnLine(line, i) :: called[i] && marked[i]
  }

  lemma MaskCovered(indexes: set<nat>, called: CellSet, marked: CellSet)
    ensures Covers(Mask(indexes), called, marked) <==>
      forall i | i in indexes && i < CELL_COUNT && i != FREE_CELL :: called[i] && marked[i]
  {
    forall i: nat | i < CELL_COUNT ensures Mask(indexes)[i] <==> i in indexes {}
  }

  /** One Line is complete exactly when some line is. */
  lemma OneLineMeaning(p: Pattern, lines: seq<set<nat>>, called: CellSet, marked: CellSet)
    requires |lines| == LINE_COUNT && forall k | 0 <= k < LINE_COUNT :: lines[k] == LineCells(k)
    requires p.masks == seq(LINE_COUNT, k requires 0 <= k < LINE_COUNT => Mask(lines[k]))
    ensures Completes(p, called, marked) <==> exists a | 0 <= a < LINE_COUNT :: LineDone(a, called, marked)
  {
    hide OnLine, Covers;
    forall k | 0 <= k < LINE_COUNT ensures Covers(p.masks[k], called, marked) <==> LineDone(k, called, marked) {
      MaskCovered(LineCells(k), called, marked);
    }
    if Completes(p, called, marked) {
      var m :| m in p.masks && Covers(m, called, marked);
      var k :| 0 <= k < LINE_COUNT && p.masks[k] == m;
      assert LineDone(k, called, marked);
    }
    if a :| 0 <= a < LINE_COUNT && LineDone(a, called, marked) {
      assert p.masks[a] in p.masks;
    }
  }

  lemma PairCovered(a: nat, b: nat, called: CellSet, marked: CellSet)
    ensures Covers(PairMask(a, b), called, marked) <==> LineDone(a, called, marked) && LineDone(b, called, marked)
  {
    hide OnLine, Covers, Mask;
    MaskCovered(LineCells(a) + LineCells(b), called, marked);
  }

  /** Two Lines is complete exactly when two different lines are. */
  lemma TwoLinesMeaning(p: Pattern, called: CellSet, marked: CellSet)
    requires PairMasks(p.masks, LINE_COUNT, 0)
    ensures Completes(p, called, marked) <==>
      exists a, b | 0 <= a < b < LINE_COUNT :: LineDone(a, called, marked) && LineDone(b, called, marked)
  {
    hide OnLine, Covers, PairMask, LineDone;
    if Completes(p, called, marked) {
      var m :| m in p.masks && Covers(m, called, marked);
      var k :| 0 <= k < |p.masks| && p.masks[k] == m;
      var a, b :| 0 <= a < b < LINE_COUNT && p.masks[k] == PairMask(a, b);
      PairCovered(a, b, called, marked);
    }
    if a, b :| 0 <= a < b < LINE_COUNT && LineDone(a, called, marked) && LineDone(b, called, marked) {
      assert IsPair(p.masks, a, b);
      var k :| 0 <= k < |p.masks| && p.masks[k] == PairMask(a, b);
      PairCovered(a, b, called, marked);
      assert p.masks[k] in p.masks;
    }
  }

  /** Two cells lie on at most one line. */
  lemma TwoCellsOneLine(a: nat, b: nat, i: nat, j: nat)
    requires a < LINE_COUNT && b < LINE_COUNT && i != j && i < CELL_COUNT && j < CELL_COUNT
    requires OnLine(a, i) && OnLine(a, j) && OnLine(b, i) && OnLine(b, j)
    ensures a == b
  {
    assert i == i / 5 * 5 + i % 5 && j == j / 5 * 5 + j % 5;
  }

  function CellOf(line: nat, k: nat): nat
    requires line < LINE_COUNT && k < 5
  {
    if line < 5 then line * 5 + k else if line < 10 then k * 5 + line - 5 else if line == 10 then 6 * k else 4 + 4 * k
  }

  lemma CellsOfLine(line: nat)
    requires line < LINE_COUNT
    ensures forall k | 0 <= k < 3 :: OnLine(line, CellOf(line, k)) && CellOf(line, k) < CELL_COUNT
    ensures CellOf(line, 0) != CellOf(line, 1) && CellOf(line, 1) != CellOf(line, 2) && CellOf(line, 0) != CellOf(line, 2)
  {
  }

  /** A third line is not contained in two others. */
  lemma NoThirdLine(a: nat, b: nat, c: nat)
    requires a < LINE_COUNT && b < LINE_COUNT && c < LINE_COUNT && c != a && c != b
    ensures !(LineCells(c) <= LineCells(a) + LineCells(b))
  {
    hide OnLine;
    CellsOfLine(c);
    var x, y, z := CellOf(c, 0), CellOf(c, 1), CellOf(c, 2);
    forall l | l == a || l == b
      ensures !(OnLine(l, x) && OnLine(l, y)) && !(OnLine(l, y) && OnLine(l, z)) && !(OnLine(l, x) && OnLine(l, z))
    {
      if OnLine(l, x) && OnLine(l, y) { TwoCellsOneLine(l, c, x, y); }
      if OnLine(l, y) && OnLine(l, z) { TwoCellsOneLine(l, c, y, z); }
      if OnLine(l, x) && OnLine(l, z) { TwoCellsOneLine(l, c, x, z); }
    }
    assert x in LineCells(c) && y in LineCells(c) && z in LineCells(c);
  }

  lemma MaskCells(s: set<nat>, t: set<nat>)
    requires Mask(s) == Mask(t) && (forall i | i in s + t :: i < CELL_COUNT)
    ensures s == t
  {
    forall i | i in s + t ensures i in s && i in t {
      assert Mask(s)[i] == Mask(t)[i];
    }
  }

  /** The 66 pairs have 66 different masks. */
  lemma PairMasksDiffer(a: nat, b: nat, c: nat, d: nat)
    requires a < b < LINE_COUNT && c < d < LINE_COUNT && PairMask(a, b) == PairMask(c, d)
    ensures a == c && b == d
  {
    hide OnLine, Mask;
    MaskCells(LineCells(a) + LineCells(b), LineCells(c) + LineCells(d));
    if c != a && c != b { NoThirdLine(a, b, c); }
    if d != a && d != b { NoThirdLine(a, b, d); }
  }

  // ---------- the catalogue and continuation ----------

  function LineMasks(): seq<CellSet> {
    seq(LINE_COUNT, k requires 0 <= k < LINE_COUNT => Mask(LineCells(k)))
  }

  /** The standard entries, whatever other patterns the catalogue has. */
  predicate Standard(catalog: seq<Pattern>) {
    && |catalog| >= 3
    && catalog[0].id == STANDARD_ONE_LINE && catalog[0].mode == OneLine
    && catalog[1].id == STANDARD_TWO_LINES && catalog[1].mode == TwoLines && PairMasks(catalog[1].masks, LINE_COUNT, 0)
    && catalog[2].id == STANDARD_BLACKOUT && catalog[2].mode == Blackout
    && (forall p | p in catalog :: WellFormed(p))
    && (forall i, j | 0 <= i < j < |catalog| :: catalog[i].id != catalog[j].id)
  }

  lemma {:induction false} PairMasksExist(first: nat, second: nat) returns (masks: seq<CellSet>)
    requires first <= LINE_COUNT && second <= LINE_COUNT
    ensures PairMasks(masks, first, second)
    decreases first, second
  {
    hide PairMask;
    if second > first + 1 {
      masks := PairMasksExist(first, second - 1);
      AddPair(masks, first, second - 1);
      masks := masks + [PairMask(first, second - 1)];
    } else if first > 0 {
      masks := PairMasksExist(first - 1, LINE_COUNT);
      RowOfPairs(masks, first - 1);
      NoPairBelow(masks, first);
    } else {
      masks := [];
    }
  }

  lemma StandardExists() returns (catalog: seq<Pattern>)
    ensures Standard(catalog) && catalog[0].masks == LineMasks()
  {
    hide PairMasks, Mask;
    var pairs := PairMasksExist(LINE_COUNT, 0);
    assert pairs != [] by { NoneMissing(pairs); }
    catalog := [Pattern(STANDARD_ONE_LINE, OneLine, LineMasks()), Pattern(STANDARD_TWO_LINES, TwoLines, pairs),
                Pattern(STANDARD_BLACKOUT, Blackout, [seq(CELL_COUNT, _ => true)])];
  }

  lemma NoneMissing(masks: seq<CellSet>)
    requires PairMasks(masks, LINE_COUNT, 0)
    ensures masks != []
  {
    hide PairMask;
    assert IsPair(masks, 0, 1);
  }

  lemma {:induction false} FindAt(catalog: seq<Pattern>, i: nat)
    requires i < |catalog| && forall j | 0 <= j < i :: catalog[j].id != catalog[i].id
    ensures FindPattern(catalog, catalog[i].id) == Some(catalog[i])
  {
    if i > 0 {
      FindAt(catalog[1..], i - 1);
    }
  }

  lemma StandardIsValid(catalog: seq<Pattern>)
    requires Standard(catalog)
    ensures ValidCatalog(catalog)
  {
    hide PairMasks;
    forall p | p in catalog && p.id == STANDARD_ONE_LINE ensures p.mode == OneLine {
      var i :| 0 <= i < |catalog| && catalog[i] == p;
    }
    assert catalog[0] in catalog;
  }

  /** The continuation a result offers is exactly the one the machine accepts, and none is offered where none is. */
  lemma OfferedContinuationIsAccepted(r: Round, catalog: seq<Pattern>, now: Time, pattern: Id)
    requires Standard(catalog) && r.initialPattern == STANDARD_ONE_LINE
    requires r.currentPattern in {STANDARD_ONE_LINE, STANDARD_TWO_LINES, STANDARD_BLACKOUT}
    requires r.stage.StageResult? && r.startedAt.Some? && r.settledAt.Some? && r.settledAt.value <= now
    requires pattern in {STANDARD_ONE_LINE, STANDARD_TWO_LINES, STANDARD_BLACKOUT}
    ensures Known(catalog, pattern)
    ensures Decide(r, catalog, M.Continue(ModeOf(catalog, pattern), now)).Accepted?
            <==> NextContinuationPattern(r.initialPattern, r.currentPattern) == Some(pattern)
  {
    hide PairMasks, FindPattern;
    FindAt(catalog, 0);
    FindAt(catalog, 1);
    FindAt(catalog, 2);
  }
}
