/** Pattern progress and latest-call attribution over 25-cell card masks. */
module Patterns {

  import opened Common

  const CELL_COUNT := 25
  const FREE_CELL := 12

  /** One boolean per cell, in row-major order. */
  type CellSet = s: seq<bool> | |s| == CELL_COUNT witness seq(CELL_COUNT, _ => false)

  datatype Mode = OneLine | TwoLines | Blackout | Exact

  datatype Pattern = Pattern(id: nat, mode: Mode, masks: seq<CellSet>)

  /** What the shape check of a pattern definition leaves to rely on. */
  predicate WellFormed(p: Pattern) {
    p.masks != []
  }

  datatype Progress = Progress(
    complete: bool,
    requiredCellCount: nat,
    satisfiedCellCount: int,
    remainingCellCount: nat,
    nearWinCell: Option<nat>)

  // ---------- the matcher ----------

  /** The indexes from `start` on that satisfy `p`, in ascending order. */
  function Filter(p: int -> bool, start: nat): (r: seq<nat>)
    requires start <= CELL_COUNT
    ensures forall k | 0 <= k < |r| :: start <= r[k] < CELL_COUNT && p(r[k])
    ensures forall i | start <= i < CELL_COUNT && p(i) :: i in r
    ensures forall j, k | 0 <= j < k < |r| :: r[j] < r[k]
    decreases CELL_COUNT - start
  {
    if start == CELL_COUNT then [] else
    var rest := Filter(p, start + 1);
    if p(start) then [start] + rest else rest
  }

  predicate Needs(mask: CellSet, i: int) {
    0 <= i < CELL_COUNT && mask[i] && i != FREE_CELL
  }

  predicate Missing(mask: CellSet, called: CellSet, marked: CellSet, i: int) {
    Needs(mask, i) && (!called[i] || !marked[i])
  }

  function RequiredCells(mask: CellSet): seq<nat> {
    Filter(i => Needs(mask, i), 0)
  }

  function RemainingCells(mask: CellSet, called: CellSet, marked: CellSet): seq<nat> {
    Filter(i => Missing(mask, called, marked, i), 0)
  }

  /** The first mask with the fewest remaining cells among `masks`. */
  function Selected(masks: seq<CellSet>, called: CellSet, marked: CellSet): (m: CellSet)
    requires masks != []
    ensures m in masks
    ensures forall x | x in masks ::
      |RemainingCells(m, called, marked)| <= |RemainingCells(x, called, marked)|
  {
    hide RemainingCells;
    var last := masks[|masks| - 1];
    if |masks| == 1 then last else
    var best := Selected(masks[..|masks| - 1], called, marked);
    if |RemainingCells(last, called, marked)| < |RemainingCells(best, called, marked)| then last else best
  }

  function CalculateProgress(p: Pattern, called: CellSet, marked: CellSet): Progress
    requires WellFormed(p)
  {
    var m := Selected(p.masks, called, marked);
    var remaining := RemainingCells(m, called, marked);
    var near :=
      if |remaining| == 1 && called[remaining[0]] && !marked[remaining[0]] then Some(remaining[0]) else None;
    Progress(|remaining| == 0, |RequiredCells(m)|, |RequiredCells(m)| - |remaining|, |remaining|, near)
  }

  /** A mask is complete when every required cell is called, marked and not `unavailable`. */
  predicate CompleteWithout(mask: CellSet, called: CellSet, marks: CellSet, unavailable: int) {
    forall i | i in RequiredCells(mask) :: i != unavailable && called[i] && marks[i]
  }

  predicate Attributable(p: Pattern, called: CellSet, marked: CellSet, prior: CellSet, latest: int) {
    && 0 <= latest < CELL_COUNT
    && latest != FREE_CELL
    && (forall m | m in p.masks :: !CompleteWithout(m, called, prior, -1))
    && exists m | m in p.masks ::
         CompleteWithout(m, called, marked, -1) && !CompleteWithout(m, called, marked, latest)
  }

  // ---------- what the matcher means ----------

  /** The free cell aside, every cell of the mask is called and marked. */
  predicate Covers(mask: CellSet, called: CellSet, marked: CellSet) {
    forall i | 0 <= i < CELL_COUNT && i != FREE_CELL :: mask[i] ==> called[i] && marked[i]
  }

  predicate Completes(p: Pattern, called: CellSet, marked: CellSet) {
    exists m | m in p.masks :: Covers(m, called, marked)
  }

  predicate SubCells(a: CellSet, b: CellSet) {
    forall i | 0 <= i < CELL_COUNT :: a[i] ==> b[i]
  }

  lemma MissingIffListed(mask: CellSet, called: CellSet, marked: CellSet, i: int)
    ensures i in RemainingCells(mask, called, marked) <==> Missing(mask, called, marked, i)
  {
  }

  lemma RequiredIffListed(mask: CellSet, i: int)
    ensures i in RequiredCells(mask) <==> Needs(mask, i)
  {
  }

  lemma CoversIffNoneRemain(mask: CellSet, called: CellSet, marked: CellSet)
    ensures Covers(mask, called, marked) <==> |RemainingCells(mask, called, marked)| == 0
    ensures Covers(mask, called, marked) <==> CompleteWithout(mask, called, marked, -1)
  {
    hide RemainingCells, RequiredCells;
    var r := RemainingCells(mask, called, marked);
    forall i: int ensures i in r <==> Missing(mask, called, marked, i) { MissingIffListed(mask, called, marked, i); }
    forall i: int ensures i in RequiredCells(mask) <==> Needs(mask, i) { RequiredIffListed(mask, i); }
    if |r| > 0 {
      assert r[0] in r;
    } else {
      forall i | 0 <= i < CELL_COUNT && i != FREE_CELL ensures mask[i] ==> called[i] && marked[i] {
        assert !Missing(mask, called, marked, i);
      }
    }
    forall i | 0 <= i < CELL_COUNT && i != FREE_CELL && mask[i] ensures i in RequiredCells(mask) {
      assert Needs(mask, i);
    }
  }

  /** Progress is complete exactly when some mask of the pattern is covered. */
  lemma CompleteIffSomeMaskCovered(p: Pattern, called: CellSet, marked: CellSet)
    requires WellFormed(p)
    ensures CalculateProgress(p, called, marked).complete <==> Completes(p, called, marked)
  {
    var m := Selected(p.masks, called, marked);
    CoversIffNoneRemain(m, called, marked);
    forall x | x in p.masks ensures Covers(x, called, marked) <==> |RemainingCells(x, called, marked)| == 0 {
      CoversIffNoneRemain(x, called, marked);
    }
  }

  function MissingCells(mask: CellSet, called: CellSet, marked: CellSet): set<int> {
    set i | 0 <= i < CELL_COUNT && Missing(mask, called, marked, i)
  }

  /** The reported remaining count is reached by a mask and undercut by none. */
  lemma RemainingIsMinimum(p: Pattern, called: CellSet, marked: CellSet)
    requires WellFormed(p)
    ensures var n := CalculateProgress(p, called, marked).remainingCellCount;
            && (exists m | m in p.masks :: n == |MissingCells(m, called, marked)|)
            && (forall m | m in p.masks :: n <= |MissingCells(m, called, marked)|)
  {
    forall m: CellSet ensures |RemainingCells(m, called, marked)| == |MissingCells(m, called, marked)| {
      RemainingCountsMissing(m, called, marked);
    }
    var m := Selected(p.masks, called, marked);
    assert m in p.masks && |RemainingCells(m, called, marked)| == |MissingCells(m, called, marked)|;
  }

  lemma RemainingCountsMissing(m: CellSet, called: CellSet, marked: CellSet)
    ensures |RemainingCells(m, called, marked)| == |MissingCells(m, called, marked)|
  {
    var r := RemainingCells(m, called, marked);
    DistinctCount(r);
    var listed := set x: int | x in r;
    forall i: int ensures i in listed <==> i in MissingCells(m, called, marked) {
      MissingIffListed(m, called, marked, i);
    }
    assert listed == MissingCells(m, called, marked);
  }

  function DoneCells(mask: CellSet, called: CellSet, marked: CellSet): set<int> {
    set i | 0 <= i < CELL_COUNT && Needs(mask, i) && called[i] && marked[i]
  }

  lemma RequiredCountsNeeded(m: CellSet)
    ensures |RequiredCells(m)| == |set i | 0 <= i < CELL_COUNT && Needs(m, i)|
  {
    hide RequiredCells;
    var r := RequiredCells(m);
    RequiredAscends(m);
    DistinctCount(r);
    forall i: int ensures i in r <==> Needs(m, i) { RequiredIffListed(m, i); }
    assert (set x: int | x in r) == set i | 0 <= i < CELL_COUNT && Needs(m, i);
  }

  lemma RequiredAscends(m: CellSet)
    ensures forall j, k | 0 <= j < k < |RequiredCells(m)| :: RequiredCells(m)[j] < RequiredCells(m)[k]
  {
  }

  /** The satisfied count is the number of the selected mask's cells that are called and marked. */
  lemma SatisfiedCountsDone(p: Pattern, called: CellSet, marked: CellSet)
    requires WellFormed(p)
    ensures CalculateProgress(p, called, marked).satisfiedCellCount == |DoneCells(Selected(p.masks, called, marked), called, marked)|
    ensures CalculateProgress(p, called, marked).requiredCellCount == |set i | 0 <= i < CELL_COUNT && Needs(Selected(p.masks, called, marked), i)|
  {
    hide RequiredCells, RemainingCells, Selected;
    var m := Selected(p.masks, called, marked);
    RequiredCountsNeeded(m);
    RemainingCountsMissing(m, called, marked);
    var needed := set i | 0 <= i < CELL_COUNT && Needs(m, i);
    assert needed == DoneCells(m, called, marked) + MissingCells(m, called, marked);
    assert DoneCells(m, called, marked) !! MissingCells(m, called, marked);
  }

  lemma {:induction false} DistinctCount(r: seq<int>)
    requires forall j, k | 0 <= j < k < |r| :: r[j] < r[k]
    ensures |set x | x in r| == |r|
  {
    if r == [] {
      assert (set x | x in r) == {};
    } else {
      var front, last := r[..|r| - 1], r[|r| - 1];
      DistinctCount(front);
      assert r == front + [last];
      assert (set x | x in r) == (set x | x in front) + {last};
      assert last !in front;
    }
  }

  /** More calls or more marks never raise the remaining count, and never undo a completion. */
  lemma ProgressIsMonotone(p: Pattern, called: CellSet, marked: CellSet, called': CellSet, marked': CellSet)
    requires WellFormed(p) && SubCells(called, called') && SubCells(marked, marked')
    ensures CalculateProgress(p, called', marked').remainingCellCount
         <= CalculateProgress(p, called, marked).remainingCellCount
    ensures Completes(p, called, marked) ==> Completes(p, called', marked')
  {
    var m := Selected(p.masks, called, marked);
    RemainingCountsMissing(m, called, marked);
    RemainingCountsMissing(m, called', marked');
    SubsetCount(MissingCells(m, called', marked'), MissingCells(m, called, marked));
    forall x | x in p.masks && Covers(x, called, marked) ensures Covers(x, called', marked') {}
  }

  lemma {:induction false} SubsetCount<T>(a: set<T>, b: set<T>)
    requires a <= b
    ensures |a| <= |b|
  {
    if a != {} {
      var x :| x in a;
      SubsetCount(a - {x}, b - {x});
    }
  }

  /** A reported near-win cell is called, unmarked and not free, and marking it completes the pattern. */
  lemma NearWinIsSound(p: Pattern, called: CellSet, marked: CellSet)
    requires WellFormed(p)
    ensures var near := CalculateProgress(p, called, marked).nearWinCell;
            near.Some? ==>
              var cell := near.value;
              && cell < CELL_COUNT && cell != FREE_CELL && called[cell] && !marked[cell]
              && !Completes(p, called, marked)
              && Completes(p, called, marked[cell := true])
  {
    if CalculateProgress(p, called, marked).nearWinCell.Some? {
      var m := Selected(p.masks, called, marked);
      OneRemainingCell(m, called, marked);
      CompleteIffSomeMaskCovered(p, called, marked);
    }
  }

  lemma OneRemainingCell(m: CellSet, called: CellSet, marked: CellSet)
    requires var r := RemainingCells(m, called, marked); |r| == 1 && called[r[0]]
    ensures var cell := RemainingCells(m, called, marked)[0];
            cell != FREE_CELL && Covers(m, called, marked[cell := true])
  {
    hide RemainingCells;
    var r := RemainingCells(m, called, marked);
    var cell := r[0];
    assert r == [cell];
    forall i: int ensures i in r <==> Missing(m, called, marked, i) { MissingIffListed(m, called, marked, i); }
    assert Missing(m, called, marked, cell);
    forall i | 0 <= i < CELL_COUNT && i != FREE_CELL && i != cell ensures m[i] ==> called[i] && marked[i] {
      assert !Missing(m, called, marked, i);
    }
  }

  /** The mask that is looked at is the first of those with the fewest cells missing. */
  lemma {:induction false} SelectedIsFirst(masks: seq<CellSet>, called: CellSet, marked: CellSet)
    requires masks != []
    ensures exists i | 0 <= i < |masks| ::
              && masks[i] == Selected(masks, called, marked)
              && forall j | 0 <= j < i :: |RemainingCells(masks[i], called, marked)| < |RemainingCells(masks[j], called, marked)|
  {
    hide RemainingCells;
    var n := |masks| - 1;
    var m := Selected(masks, called, marked);
    if n > 0 {
      SelectedIsFirst(masks[..n], called, marked);
      var best := Selected(masks[..n], called, marked);
      var i :| 0 <= i < n && masks[..n][i] == best
               && forall j | 0 <= j < i :: |RemainingCells(masks[..n][i], called, marked)| < |RemainingCells(masks[..n][j], called, marked)|;
      if |RemainingCells(masks[n], called, marked)| < |RemainingCells(best, called, marked)| {
        forall j | 0 <= j < n ensures |RemainingCells(masks[n], called, marked)| < |RemainingCells(masks[j], called, marked)| {
          assert masks[..n][j] in masks[..n];
        }
        assert masks[n] == m;
      } else {
        forall j | 0 <= j < i ensures |RemainingCells(masks[i], called, marked)| < |RemainingCells(masks[j], called, marked)| {
          assert masks[..n][j] == masks[j] && masks[..n][i] == masks[i];
        }
        assert masks[i] == m;
      }
    } else {
      assert masks[0] == m;
    }
  }

  /** A near-win cell is reported if and only if it is the one cell that this mask lacks, called but not marked. */
  lemma NearWinMeaning(p: Pattern, called: CellSet, marked: CellSet, cell: nat)
    requires WellFormed(p) && cell < CELL_COUNT
    ensures CalculateProgress(p, called, marked).nearWinCell == Some(cell)
            <==> MissingCells(Selected(p.masks, called, marked), called, marked) == {cell} && called[cell] && !marked[cell]
  {
    hide RemainingCells, Selected;
    var m := Selected(p.masks, called, marked);
    var r := RemainingCells(m, called, marked);
    RemainingCountsMissing(m, called, marked);
    forall i: int ensures i in r <==> i in MissingCells(m, called, marked) { MissingIffListed(m, called, marked, i); }
    if |r| == 1 {
      assert r[0] in r;
      assert MissingCells(m, called, marked) == {r[0]} by {
        forall i | i in MissingCells(m, called, marked) ensures i == r[0] { assert i in r; }
      }
    }
    if MissingCells(m, called, marked) == {cell} {
      assert |r| == 1;
      assert cell in r;
    }
  }

  /** Attribution: nothing was covered before, and now some covered mask contains the latest cell. */
  lemma AttributableMeaning(p: Pattern, called: CellSet, marked: CellSet, prior: CellSet, latest: int)
    ensures Attributable(p, called, marked, prior, latest) <==>
            && 0 <= latest < CELL_COUNT && latest != FREE_CELL
            && !Completes(p, called, prior)
            && exists m | m in p.masks :: Covers(m, called, marked) && m[latest]
  {
    forall m: CellSet, marks: CellSet
      ensures Covers(m, called, marks) <==> CompleteWithout(m, called, marks, -1)
    {
      CoversIffNoneRemain(m, called, marks);
    }
    if 0 <= latest < CELL_COUNT && latest != FREE_CELL {
      forall m: CellSet | Covers(m, called, marked)
        ensures m[latest] <==> !CompleteWithout(m, called, marked, latest)
      {
        assert m[latest] <==> Needs(m, latest);
        assert Needs(m, latest) ==> latest in RequiredCells(m);
      }
    }
  }
}
