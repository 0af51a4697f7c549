/** Bingo cards and the draw order from shuffled ranges, and the deal of a round that the executor relies on. */
module Dealing {

  import opened Common
  import opened Patterns
  import opened Rows
  import opened Games
  import opened Randomness
  import L = Lobby

  // ---------- shuffled ranges ----------

  function Interval(minimum: nat, count: nat): (r: seq<nat>)
    ensures |r| == count && forall i | 0 <= i < count :: r[i] == minimum + i
  {
    seq(count, i requires 0 <= i < count => minimum + i)
  }

  predicate IsArrangement(values: seq<nat>, minimum: nat, count: nat) {
    |values| == count && Distinct(values) && forall i | 0 <= i < count :: minimum <= values[i] < minimum + count
  }

  lemma PermutedInterval(values: seq<nat>, minimum: nat, count: nat)
    requires multiset(values) == multiset(Interval(minimum, count))
    ensures IsArrangement(values, minimum, count)
  {
    var range := Interval(minimum, count);
    assert |multiset(values)| == |values| && |multiset(range)| == |range|;
    PermutationIsDistinct(range, values);
    forall i | 0 <= i < |values| ensures minimum <= values[i] < minimum + count {
      assert values[i] in multiset(values);
      assert values[i] in range;
    }
  }

  /** The shuffled range that the tape gives, and where it is read next; None where sampling throws. */
  function RangeFrom(minimum: nat, count: nat, tape: Tape, from: nat): Option<(seq<nat>, nat)> {
    var draws := Draws(count, tape, from);
    if draws.None? then None else Some((Shuffle(Interval(minimum, count), draws.value.0), draws.value.1))
  }

  lemma RangeIsArranged(minimum: nat, count: nat, tape: Tape, from: nat)
    ensures RangeFrom(minimum, count, tape, from).Some? ==> IsArrangement(RangeFrom(minimum, count, tape, from).value.0, minimum, count)
  {
    hide Shuffle, Draws;
    var draws := Draws(count, tape, from);
    if draws.Some? {
      ShuffleIsPermutation(Interval(minimum, count), draws.value.0);
      PermutedInterval(Shuffle(Interval(minimum, count), draws.value.0), minimum, count);
    }
  }

  method ShuffledRange(minimum: nat, count: nat, tape: Tape, from: nat) returns (values: Option<seq<nat>>, next: nat)
    ensures values.Some? ==> IsArrangement(values.value, minimum, count)
    ensures values.Some? ==> RangeFrom(minimum, count, tape, from) == Some((values.value, next))
    ensures values.None? ==> RangeFrom(minimum, count, tape, from).None?
  {
    ghost var choices;
    values, choices, next := ShuffledValues(Interval(minimum, count), tape, from);
    if values.Some? { PermutedInterval(values.value, minimum, count); }
  }

  // ---------- cards ----------

  const ColumnSize := 15

  /** The position in its shuffled column of the value that row `row` gets; the free cell of the middle column takes none. */
  function ValueIndex(column: nat, row: nat): nat {
    if column == 2 && row > 2 then row - 1 else row
  }

  predicate Columns(columns: seq<seq<nat>>, n: nat) {
    |columns| == n && forall c | 0 <= c < n :: IsArrangement(columns[c], c * 15 + 1, ColumnSize)
  }

  /** The card holds the first values of the shuffled columns around the free cell. */
  predicate Laid(cells: Cells, columns: seq<seq<nat>>) {
    Columns(columns, 5) && cells[FREE_CELL] == 0 &&
    forall column, row | 0 <= column < 5 && 0 <= row < 5 && (column != 2 || row != 2) ::
      cells[row * 5 + column] == columns[column][ValueIndex(column, row)]
  }

  lemma CellPlace(i: nat)
    requires i < CELL_COUNT
    ensures i / 5 < 5 && i % 5 < 5 && i == i / 5 * 5 + i % 5
    ensures i == FREE_CELL <==> i / 5 == 2 && i % 5 == 2
  {
  }

  lemma CellValue(cells: Cells, columns: seq<seq<nat>>, i: nat)
    requires Laid(cells, columns) && i < CELL_COUNT && i != FREE_CELL
    ensures cells[i] == columns[i % 5][ValueIndex(i % 5, i / 5)]
    ensures i % 5 * 15 + 1 <= cells[i] <= i % 5 * 15 + 15
  {
    CellPlace(i);
    hide Distinct;
    assert cells[i / 5 * 5 + i % 5] == columns[i % 5][ValueIndex(i % 5, i / 5)];
    assert IsArrangement(columns[i % 5], i % 5 * 15 + 1, ColumnSize);
  }

  /** A card laid from arranged columns meets every rule of card cells. */
  lemma LaidIsValid(cells: Cells, columns: seq<seq<nat>>)
    requires Laid(cells, columns)
    ensures ValidCells(cells)
  {
    hide Laid, Columns;
    assert cells[FREE_CELL] == 0 by { FreeCell(cells, columns); }
    forall i | 0 <= i < CELL_COUNT && i != FREE_CELL ensures i % 5 * 15 + 1 <= cells[i] <= i % 5 * 15 + 15 {
      CellValue(cells, columns, i);
    }
    forall i, j | 0 <= i < j < CELL_COUNT ensures cells[i] != cells[j] {
      if i == FREE_CELL { CellValue(cells, columns, j); }
      else if j == FREE_CELL { CellValue(cells, columns, i); }
      else { CellsDiffer(cells, columns, i, j); }
    }
  }

  lemma FreeCell(cells: Cells, columns: seq<seq<nat>>)
    requires Laid(cells, columns)
    ensures cells[FREE_CELL] == 0
  {
  }

  lemma CellsDiffer(cells: Cells, columns: seq<seq<nat>>, i: nat, j: nat)
    requires Laid(cells, columns) && i < j < CELL_COUNT && i != FREE_CELL && j != FREE_CELL
    ensures cells[i] != cells[j]
  {
    hide Laid, Columns;
    CellValue(cells, columns, i);
    CellValue(cells, columns, j);
    CellPlace(i);
    CellPlace(j);
    if i % 5 == j % 5 {
      assert ValueIndex(i % 5, i / 5) != ValueIndex(j % 5, j / 5);
      ColumnDistinct(cells, columns, i % 5);
    }
  }

  lemma ColumnDistinct(cells: Cells, columns: seq<seq<nat>>, c: nat)
    requires Laid(cells, columns) && c < 5
    ensures |columns| == 5 && |columns[c]| == ColumnSize && Distinct(columns[c])
  {
    assert IsArrangement(columns[c], c * 15 + 1, ColumnSize);
  }

  /** The first `n` shuffled columns that the tape gives. */
  function ColumnsFrom(n: nat, tape: Tape, from: nat): (r: Option<(seq<seq<nat>>, nat)>)
    ensures r.Some? ==> |r.value.0| == n
  {
    if n == 0 then Some(([], from)) else
    var earlier := ColumnsFrom(n - 1, tape, from);
    if earlier.None? then None else
    var column := RangeFrom((n - 1) * 15 + 1, ColumnSize, tape, earlier.value.1);
    if column.None? then None else Some((earlier.value.0 + [column.value.0], column.value.1))
  }

  /** The card that these columns lay out. */
  function LaidOut(columns: seq<seq<nat>>): Cells
    requires |columns| == 5 && forall c | 0 <= c < 5 :: |columns[c]| == ColumnSize
  {
    seq(CELL_COUNT, i requires 0 <= i < CELL_COUNT => if i == FREE_CELL then 0 else columns[i % 5][ValueIndex(i % 5, i / 5)])
  }

  lemma LaidIsLaidOut(cells: Cells, columns: seq<seq<nat>>)
    requires Laid(cells, columns)
    ensures |columns| == 5 && (forall c | 0 <= c < 5 :: |columns[c]| == ColumnSize) && cells == LaidOut(columns)
  {
    hide Laid, Columns;
    forall c: nat | c < 5 ensures |columns| == 5 && |columns[c]| == ColumnSize { ColumnDistinct(cells, columns, c); }
    ColumnDistinct(cells, columns, 0);
    FreeCell(cells, columns);
    forall i: nat | i < CELL_COUNT ensures cells[i] == LaidOut(columns)[i] {
      if i != FREE_CELL { CellValue(cells, columns, i); }
    }
  }

  /** The card that the tape gives. */
  function CardFrom(tape: Tape, from: nat): Option<(Cells, nat)> {
    var columns := ColumnsFrom(5, tape, from);
    if columns.None? || exists c | 0 <= c < 5 :: |columns.value.0[c]| != ColumnSize then None
    else Some((LaidOut(columns.value.0), columns.value.1))
  }

  /** Fills a card column by column from shuffled ranges; None exactly when sampling throws. */
  method GenerateBingoCard(tape: Tape, from: nat) returns (card: Option<Cells>, next: nat)
    ensures card.Some? ==> ValidCells(card.value)
    ensures card.Some? ==> CardFrom(tape, from) == Some((card.value, next))
    ensures card.None? ==> ColumnsFrom(5, tape, from).None? && CardFrom(tape, from).None?
  {
    hide ValidCells, Distinct, RangeFrom, LaidOut;
    next := from;
    var cells := new nat[CELL_COUNT](_ => 0);
    ghost var columns: seq<seq<nat>> := [];
    for column := 0 to 5
      invariant Columns(columns, column) && cells[FREE_CELL] == 0
      invariant forall c, r | 0 <= c < column && 0 <= r < 5 && (c != 2 || r != 2) ::
                  cells[r * 5 + c] == columns[c][ValueIndex(c, r)]
      invariant ColumnsFrom(column, tape, from) == Some((columns, next))
    {
      var values;
      values, next := ShuffledRange(column * 15 + 1, ColumnSize, tape, next);
      if values.None? {
        NoMoreColumns(column + 1, 5, tape, from);
        return None, next;
      }
      columns := columns + [values.value];
      FillColumn(cells, column, values.value, columns);
    }
    assert Laid(cells[..], columns);
    LaidIsValid(cells[..], columns);
    LaidIsLaidOut(cells[..], columns);
    return Some(cells[..]), next;
  }

  lemma {:induction false} NoMoreColumns(n: nat, m: nat, tape: Tape, from: nat)
    requires n <= m && ColumnsFrom(n, tape, from).None?
    ensures ColumnsFrom(m, tape, from).None?
  {
    if n < m { NoMoreColumns(n, m - 1, tape, from); }
  }

  /** Puts the values of one column from top to bottom, skipping the free cell. */
  method FillColumn(cells: array<nat>, column: nat, values: seq<nat>, ghost columns: seq<seq<nat>>)
    requires cells.Length == CELL_COUNT && column < 5 && |values| == ColumnSize && cells[FREE_CELL] == 0
    requires |columns| == column + 1 && columns[column] == values && forall c | 0 <= c < column :: |columns[c]| == ColumnSize
    requires forall c, r | 0 <= c < column && 0 <= r < 5 && (c != 2 || r != 2) :: cells[r * 5 + c] == columns[c][ValueIndex(c, r)]
    modifies cells
    ensures cells[FREE_CELL] == 0
    ensures forall c, r | 0 <= c < column + 1 && 0 <= r < 5 && (c != 2 || r != 2) :: cells[r * 5 + c] == columns[c][ValueIndex(c, r)]
  {
    var valueIndex := 0;
    for row := 0 to 5
      invariant valueIndex == ValueIndex(column, row)
      invariant cells[FREE_CELL] == 0
      invariant forall c, r | 0 <= c < column && 0 <= r < 5 && (c != 2 || r != 2) :: cells[r * 5 + c] == columns[c][ValueIndex(c, r)]
      invariant forall r | 0 <= r < row && (column != 2 || r != 2) :: cells[r * 5 + column] == values[ValueIndex(column, r)]
    {
      var cellIndex := row * 5 + column;
      if cellIndex == FREE_CELL {
        cells[cellIndex] := 0;
      } else {
        cells[cellIndex] := values[valueIndex];
        valueIndex := valueIndex + 1;
      }
    }
  }

  const MAX_UNIQUE_ATTEMPTS := 100

  /** The cards that the tape gives: repetitions are left out, and 100 in a row throw. */
  function CardsFrom(count: nat, dealt: seq<Cells>, attempts: nat, tape: Tape, from: nat): Option<(seq<Cells>, nat)>
    requires attempts < MAX_UNIQUE_ATTEMPTS
    decreases if |dealt| < count then count - |dealt| else 0, MAX_UNIQUE_ATTEMPTS - attempts
  {
    if |dealt| >= count then Some((dealt, from)) else
    var card := CardFrom(tape, from);
    if card.None? then None
    else if card.value.0 !in dealt then CardsFrom(count, dealt + [card.value.0], 0, tape, card.value.1)
    else if attempts + 1 >= MAX_UNIQUE_ATTEMPTS then None
    else CardsFrom(count, dealt, attempts + 1, tape, card.value.1)
  }

  /** Pairwise different cards; None for an impossible count, when sampling throws, or after 100 repetitions in a row. */
  method GenerateBingoCards(count: int, tape: Tape, from: nat) returns (cards: Option<seq<Cells>>, next: nat)
    ensures cards.Some? ==>
      && 1 <= count <= MAX_PLAYERS && |cards.value| == count
      && (forall i | 0 <= i < count :: ValidCells(cards.value[i]))
      && (forall i, j | 0 <= i < j < count :: cards.value[i] != cards.value[j])
      && CardsFrom(count, [], 0, tape, from) == Some((cards.value, next))
    ensures cards.None? ==> count < 1 || count > MAX_PLAYERS || CardsFrom(count, [], 0, tape, from).None?
  {
    hide ValidCells, CardFrom;
    next := from;
    if count < 1 || count > MAX_PLAYERS { return None, next; }
    var dealt: seq<Cells> := [];
    var keys: set<Cells> := {};
    var attempts := 0;
    while |dealt| < count
      invariant |dealt| <= count && attempts < MAX_UNIQUE_ATTEMPTS
      invariant forall x: Cells :: x in keys <==> x in dealt
      invariant forall i | 0 <= i < |dealt| :: ValidCells(dealt[i])
      invariant forall i, j | 0 <= i < j < |dealt| :: dealt[i] != dealt[j]
      invariant CardsFrom(count, dealt, attempts, tape, next) == CardsFrom(count, [], 0, tape, from)
      decreases count - |dealt|, MAX_UNIQUE_ATTEMPTS - attempts
    {
      var card;
      card, next := GenerateBingoCard(tape, next);
      if card.None? { return None, next; }
      if card.value in keys {
        attempts := attempts + 1;
        if attempts >= MAX_UNIQUE_ATTEMPTS { return None, next; }
        continue;
      }
      dealt := dealt + [card.value];
      keys := keys + {card.value};
      attempts := 0;
    }
    return Some(dealt), next;
  }

  /** The 75 balls in a shuffled order; None when sampling throws. */
  method GenerateDrawOrder(tape: Tape, from: nat) returns (draw: Option<seq<nat>>, next: nat)
    ensures draw.Some? ==> DrawOk(draw.value)
    ensures draw.Some? ==> RangeFrom(1, BALL_COUNT, tape, from) == Some((draw.value, next))
    ensures draw.None? ==> RangeFrom(1, BALL_COUNT, tape, from).None?
  {
    draw, next := ShuffledRange(1, BALL_COUNT, tape, from);
  }

  /** Every order of the 75 balls is drawn by exactly one vector of choices. */
  lemma EveryDrawOnce(draw: seq<nat>, choices: seq<nat>)
    requires multiset(draw) == multiset(Interval(1, BALL_COUNT)) && ValidChoices(BALL_COUNT, choices)
    ensures Shuffle(Interval(1, BALL_COUNT), ChoicesFor(Interval(1, BALL_COUNT), draw)) == draw && DrawOk(draw)
    ensures Shuffle(Interval(1, BALL_COUNT), choices) == draw <==> choices == ChoicesFor(Interval(1, BALL_COUNT), draw)
  {
    hide Shuffle, ChoicesFor;
    EveryPermutationIsReached(Interval(1, BALL_COUNT), draw);
    ChoicesAreUnique(Interval(1, BALL_COUNT), choices);
    PermutedInterval(draw, 1, BALL_COUNT);
  }

  /** On a lively tape the draw and every card are generated. */
  lemma LivelyTapesDeal(tape: Tape, from: nat)
    requires Lively(tape)
    ensures RangeFrom(1, BALL_COUNT, tape, from).Some? && CardFrom(tape, from).Some?
  {
    hide Lively, Draws, LaidOut;
    DrawsSucceed(BALL_COUNT, tape, from);
    LivelyColumns(5, tape, from);
  }

  lemma {:induction false} LivelyColumns(n: nat, tape: Tape, from: nat)
    requires Lively(tape)
    ensures ColumnsFrom(n, tape, from).Some? && forall c | 0 <= c < n :: |ColumnsFrom(n, tape, from).value.0[c]| == ColumnSize
  {
    hide Lively, Draws;
    if n > 0 {
      LivelyColumns(n - 1, tape, from);
      var earlier := ColumnsFrom(n - 1, tape, from).value;
      DrawsSucceed(ColumnSize, tape, earlier.1);
      RangeIsArranged((n - 1) * 15 + 1, ColumnSize, tape, earlier.1);
    }
  }

  // ---------- the deal ----------

  /** The cards and then the draw that the tape gives. */
  function DealFrom(players: seq<Id>, nextId: Id, tape: Tape, from: nat): Option<(L.Deal, nat)>
    requires Distinct(players)
  {
    var cards := CardsFrom(|players|, [], 0, tape, from);
    if cards.None? || |cards.value.0| != |players| then None else
    var draw := RangeFrom(1, BALL_COUNT, tape, cards.value.1);
    if draw.None? then None else Some((Dealt(players, cards.value.0, draw.value.0, nextId), draw.value.1))
  }

  /** What the executor assumes about a new round's deal is what the generators give. */
  method DealRound(players: seq<Id>, nextId: Id, tape: Tape, from: nat) returns (deal: Option<L.Deal>, next: nat)
    requires Distinct(players)
    ensures deal.Some? ==> L.ValidDeal(deal.value, (set p | p in players), nextId)
    ensures deal.Some? ==> forall p, q | p in players && q in players && p != q ::
              deal.value.cards[p].cells != deal.value.cards[q].cells
    ensures deal.Some? ==> DealFrom(players, nextId, tape, from) == Some((deal.value, next))
    ensures deal.None? ==> |players| < 1 || |players| > MAX_PLAYERS || DealFrom(players, nextId, tape, from).None?
  {
    hide ValidCells, DrawOk, L.ValidDeal, CardsFrom, RangeFrom;
    var cards;
    cards, next := GenerateBingoCards(|players|, tape, from);
    if cards.None? { return None, next; }
    var draw;
    draw, next := GenerateDrawOrder(tape, next);
    if draw.None? { return None, next; }
    DealIsValid(players, cards.value, draw.value, nextId);
    return Some(Dealt(players, cards.value, draw.value, nextId)), next;
  }

  /** The round takes `nextId`, the cards the numbers after it. */
  function Dealt(players: seq<Id>, cards: seq<Cells>, draw: seq<nat>, nextId: Id): L.Deal
    requires Distinct(players) && |players| == |cards|
  {
    L.Deal(map i | 0 <= i < |players| :: players[i] := Card(nextId + 1 + i, cards[i]), draw, nextId + 1 + |players|)
  }

  lemma DealIsValid(players: seq<Id>, cards: seq<Cells>, draw: seq<nat>, nextId: Id)
    requires Distinct(players) && |players| == |cards| && DrawOk(draw)
    requires forall i | 0 <= i < |cards| :: ValidCells(cards[i])
    requires forall i, j | 0 <= i < j < |cards| :: cards[i] != cards[j]
    ensures L.ValidDeal(Dealt(players, cards, draw, nextId), (set p | p in players), nextId)
    ensures forall p, q | p in players && q in players && p != q ::
              Dealt(players, cards, draw, nextId).cards[p].cells != Dealt(players, cards, draw, nextId).cards[q].cells
  {
    hide ValidCells, DrawOk;
    var deal := Dealt(players, cards, draw, nextId);
    forall p | p in players ensures exists i :: 0 <= i < |players| && players[i] == p && deal.cards[p] == Card(nextId + 1 + i, cards[i]) {
      var i :| 0 <= i < |players| && players[i] == p;
      assert deal.cards[players[i]] == Card(nextId + 1 + i, cards[i]);
    }
    assert deal.cards.Keys == (set p | p in players);
  }
}
