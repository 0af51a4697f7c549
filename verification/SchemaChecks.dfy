/** The schema refinements of cards and snapshots as they run: loops that fill sets and count issues. */
module SchemaChecks {

  import opened Common
  import opened Patterns
  import opened Rows
  import opened Games
  import opened Lobby
  import opened LobbyInv
  import opened Snapshots
  import opened SnapshotRules

  /** The issue, if any, that cell `i` raises on its own. */
  predicate CellOk(cells: Cells, i: nat)
    requires i < CELL_COUNT
  {
    if i == FREE_CELL then cells[i] == 0
    else cells[i] != 0 && i % 5 * 15 + 1 <= cells[i] <= i % 5 * 15 + 15
  }

  predicate RepeatsEarlier(cells: Cells, i: nat)
    requires i < CELL_COUNT
  {
    exists j | 0 <= j < i :: j != FREE_CELL && j % 5 == i % 5 && cells[j] != 0 && cells[j] == cells[i]
  }

  function ColumnValues(cells: Cells, column: nat, n: nat): set<nat>
    requires n <= CELL_COUNT
  {
    set j | 0 <= j < n && j != FREE_CELL && j % 5 == column && cells[j] != 0 :: cells[j]
  }

  lemma ColumnGrows(cells: Cells, column: nat, i: nat)
    requires i < CELL_COUNT
    ensures ColumnValues(cells, column, i + 1)
            == ColumnValues(cells, column, i) + if i != FREE_CELL && i % 5 == column && cells[i] != 0 then {cells[i]} else {}
  {
  }

  lemma CellwiseRules(cells: Cells)
    ensures CellRules(cells) <==>
      forall i | 0 <= i < CELL_COUNT :: CellOk(cells, i) && (i != FREE_CELL && cells[i] != 0 ==> !RepeatsEarlier(cells, i))
  {
    if forall i | 0 <= i < CELL_COUNT :: CellOk(cells, i) && (i != FREE_CELL && cells[i] != 0 ==> !RepeatsEarlier(cells, i)) {
      assert CellOk(cells, FREE_CELL);
      forall i | 0 <= i < CELL_COUNT && i != FREE_CELL
        ensures cells[i] != 0 && i % 5 * 15 + 1 <= cells[i] <= i % 5 * 15 + 15
      {
        assert CellOk(cells, i);
      }
      forall i, j | 0 <= i < j < CELL_COUNT && i % 5 == j % 5 && i != FREE_CELL && j != FREE_CELL ensures cells[i] != cells[j] {
        assert CellOk(cells, i) && CellOk(cells, j);
        assert !RepeatsEarlier(cells, j);
      }
    }
  }

  /** Counts the issues of 25 card cells; there is none exactly when the cell rules hold. */
  method CheckCells(cells: Cells) returns (issues: nat)
    ensures issues == 0 <==> CellRules(cells)
  {
    hide CellRules;
    var valuesByColumn := seq(5, _ => {});
    issues := 0;
    for i := 0 to CELL_COUNT
      invariant |valuesByColumn| == 5
      invariant forall c | 0 <= c < 5 :: valuesByColumn[c] == ColumnValues(cells, c, i)
      invariant issues == 0 <==>
        forall j | 0 <= j < i :: CellOk(cells, j) && (j != FREE_CELL && cells[j] != 0 ==> !RepeatsEarlier(cells, j))
    {
      forall c | 0 <= c < 5
        ensures ColumnValues(cells, c, i + 1)
                == ColumnValues(cells, c, i) + if i != FREE_CELL && i % 5 == c && cells[i] != 0 then {cells[i]} else {}
      {
        ColumnGrows(cells, c, i);
      }
      var column := i % 5;
      if i == FREE_CELL {
        if cells[i] != 0 { issues := issues + 1; }
      } else if cells[i] == 0 {
        issues := issues + 1;
      } else {
        if cells[i] < column * 15 + 1 || cells[i] > column * 15 + 15 { issues := issues + 1; }
        RepeatIsSeen(cells, i);
        if cells[i] in valuesByColumn[column] { issues := issues + 1; }
        valuesByColumn := valuesByColumn[column := valuesByColumn[column] + {cells[i]}];
      }
    }
    CellwiseRules(cells);
  }

  lemma RepeatIsSeen(cells: Cells, i: nat)
    requires i < CELL_COUNT && cells[i] != 0
    ensures cells[i] in ColumnValues(cells, i % 5, i) <==> RepeatsEarlier(cells, i)
  {
  }

  // ---------- marks and calls ----------

  predicate MarkFits(card: OwnCard, calls: seq<Call>, m: OwnMark) {
    m.cardId == card.id && m.ball != 0 && m.ball in card.cells && exists c | c in calls :: c.ball == m.ball
  }

  predicate MarksFitCard(card: OwnCard, calls: seq<Call>, marks: seq<OwnMark>) {
    && (forall i | 0 <= i < |marks| :: MarkFits(card, calls, marks[i]))
    && (forall i, j | 0 <= i < j < |marks| :: marks[i].id != marks[j].id && marks[i].ball != marks[j].ball)
  }

  lemma OneMoreMark(card: OwnCard, calls: seq<Call>, marks: seq<OwnMark>, i: nat)
    requires i < |marks|
    ensures MarksFitCard(card, calls, marks[..i + 1]) <==>
      && MarksFitCard(card, calls, marks[..i]) && MarkFits(card, calls, marks[i])
      && forall j | 0 <= j < i :: marks[j].id != marks[i].id && marks[j].ball != marks[i].ball
  {
    hide MarkFits;
    if MarksFitCard(card, calls, marks[..i + 1]) {
      assert marks[..i + 1][i] == marks[i];
      forall j | 0 <= j < i
        ensures marks[j] == marks[..i + 1][j] && marks[j] == marks[..i][j]
      {
      }
    }
  }

  /** Counts the issues of the marks on a card. */
  method CheckMarks(card: OwnCard, calls: seq<Call>, marks: seq<OwnMark>) returns (issues: nat)
    ensures issues == 0 <==> MarksFitCard(card, calls, marks)
  {
    hide MarkFits, MarksFitCard;
    var calledBalls := set c | c in calls :: c.ball;
    var markedIds: set<Id> := {};
    var markedBalls: set<nat> := {};
    issues := 0;
    NoMarks(card, calls);
    assert marks[..0] == [];
    for i := 0 to |marks|
      invariant markedIds == set j | 0 <= j < i :: marks[j].id
      invariant markedBalls == set j | 0 <= j < i :: marks[j].ball
      invariant issues == 0 <==> MarksFitCard(card, calls, marks[..i])
    {
      OneMoreMark(card, calls, marks, i);
      FitsMeaning(card, calls, marks[i]);
      if marks[i].cardId != card.id { issues := issues + 1; }
      if marks[i].id in markedIds || marks[i].ball in markedBalls { issues := issues + 1; }
      if marks[i].ball == 0 || marks[i].ball !in card.cells { issues := issues + 1; }
      if marks[i].ball !in calledBalls { issues := issues + 1; }
      markedIds := markedIds + {marks[i].id};
      markedBalls := markedBalls + {marks[i].ball};
    }
    assert marks[..|marks|] == marks;
  }

  lemma NoMarks(card: OwnCard, calls: seq<Call>)
    ensures MarksFitCard(card, calls, [])
  {
  }

  lemma FitsMeaning(card: OwnCard, calls: seq<Call>, m: OwnMark)
    ensures MarkFits(card, calls, m) <==>
      m.cardId == card.id && m.ball != 0 && m.ball in card.cells && m.ball in set c | c in calls :: c.ball
  {
  }

  predicate CallsContiguous(calls: seq<Call>) {
    && (forall i | 0 <= i < |calls| :: calls[i].position == i + 1)
    && (forall i, j | 0 <= i < j < |calls| :: calls[i].id != calls[j].id && calls[i].ball != calls[j].ball)
  }

  /** Counts the issues of the calls of a round. */
  method CheckCalls(calls: seq<Call>) returns (issues: nat)
    ensures issues == 0 <==> CallsContiguous(calls)
  {
    var callIds: set<Id> := {};
    var calledBalls: set<nat> := {};
    issues := 0;
    for i := 0 to |calls|
      invariant callIds == set j | 0 <= j < i :: calls[j].id
      invariant calledBalls == set j | 0 <= j < i :: calls[j].ball
      invariant issues == 0 <==>
        && (forall k | 0 <= k < i :: calls[k].position == k + 1)
        && (forall k, l | 0 <= k < l < i :: calls[k].id != calls[l].id && calls[k].ball != calls[l].ball)
    {
      if calls[i].position != i + 1 { issues := issues + 1; }
      if calls[i].id in callIds { issues := issues + 1; }
      if calls[i].ball in calledBalls { issues := issues + 1; }
      callIds := callIds + {calls[i].id};
      calledBalls := calledBalls + {calls[i].ball};
    }
  }

  lemma ChecksAreTheRules(s: Snapshot)
    requires CallRules(s)
    ensures CallsContiguous(s.calls)
    ensures CardRules(s) && s.round.Some? && s.ownCard.Some? ==>
              CellRules(s.ownCard.value.cells) && MarksFitCard(s.ownCard.value, s.calls, s.ownMarks)
  {
    hide CellRules;
  }

  /** The checks find no issue in any snapshot, not even in that of a squeezed viewer. */
  lemma SnapshotsPassTheChecks(db: Db, o: Options, viewer: Id, session: Id, rows: seq<Id>, marks: seq<OwnMark>)
    requires Inv(db, o) && Authenticated(db, viewer, session)
    requires VisibleRows(db, viewer, rows) && OwnMarkRows(db, viewer, marks)
    ensures forall p | p in rows :: p in Tables(db).participants
    ensures Project(db, viewer, rows, marks).Some?
    ensures var s := Project(db, viewer, rows, marks).value;
            && CallsContiguous(s.calls)
            && (s.ownCard.Some? ==> CellRules(s.ownCard.value.cells) && MarksFitCard(s.ownCard.value, s.calls, s.ownMarks))
  {
    hide Inv, VisibleRows, OwnMarkRows, MeetsRules, CardRules, CallRules, CellRules, MarksFitCard, CallsContiguous;
    SnapshotMeetsRules(db, o, viewer, session, rows, marks);
    ChecksAreTheRules(Project(db, viewer, rows, marks).value);
  }
}
