/** In that round everybody marks the shared column: the first to complete it opens the window, and all win. */
module EverybodyWins {

  import opened Common
  import opened Patterns
  import opened Catalog
  import opened Rows
  import opened Games
  import opened Marks
  import opened Lobby
  import opened LobbyInv
  import opened LobbyWorld
  import opened Transactions
  import opened Gathering
  import opened SharedColumn
  import LobbyMarks

  // ---------- marks ----------

  /** The standard catalogue. */
  predicate Shipped(o: Options) {
    Standard(o.catalog) && o.catalog[0].masks == LineMasks() && o.windowMs >= 1
  }

  lemma SomethingShips() returns (o: Options)
    ensures Shipped(o)
  {
    hide Standard;
    var catalog := StandardExists();
    o := Options(catalog, true, 1000);
  }

  const MIDDLE := 7

  /** The first `n` balls of the middle column. */
  function Balls(n: nat): (s: set<nat>)
    ensures forall b :: b in s <==> FIRST_BALL <= b < FIRST_BALL + n
  {
    if n == 0 then {} else Balls(n - 1) + {FIRST_BALL + n - 1}
  }

  /** Row by row, past the free cell. */
  function CellOfBall(k: nat): nat
    requires k < COLUMN_BALLS
  {
    if k < 2 then 5 * k + 2 else 5 * k + 7
  }

  lemma MiddleCells(p: Id, i: nat)
    requires p < MAX_PLAYERS && i < CELL_COUNT && i != FREE_CELL
    ensures OnLine(MIDDLE, i) <==> CardOf(p)[i] in Balls(COLUMN_BALLS)
    ensures OnLine(MIDDLE, i) <==> exists k: nat | k < COLUMN_BALLS :: i == CellOfBall(k)
    ensures forall k: nat | k < COLUMN_BALLS :: CardOf(p)[i] == FIRST_BALL + k <==> i == CellOfBall(k)
  {
    assert CellOfBall(0) == 2 && CellOfBall(1) == 7 && CellOfBall(2) == 17 && CellOfBall(3) == 22;
  }

  /** Every other line leaves the middle column. */
  lemma OtherLine(line: nat) returns (i: nat)
    requires line < LINE_COUNT && line != MIDDLE
    ensures i < CELL_COUNT && i != FREE_CELL && OnLine(line, i) && !OnLine(MIDDLE, i)
  {
    i := if line < 5 then line * 5 else if line < 10 then line - 5 else if line == 10 then 0 else 4;
  }

  lemma BallCell(p: Id, marked: set<nat>, k: nat)
    requires p < MAX_PLAYERS && k < COLUMN_BALLS
    ensures CellOfBall(k) < CELL_COUNT && CellOfBall(k) != FREE_CELL && OnLine(MIDDLE, CellOfBall(k))
    ensures CardOf(p)[CellOfBall(k)] == FIRST_BALL + k
    ensures View(CardOf(p), marked)[CellOfBall(k)] <==> FIRST_BALL + k in marked
  {
    assert CellOfBall(k) in {2, 7, 17, 22};
  }

  lemma MiddleView(p: Id, marked: set<nat>, i: nat)
    requires p < MAX_PLAYERS && i < CELL_COUNT && i != FREE_CELL
    ensures View(CardOf(p), marked)[i] <==> CardOf(p)[i] in marked
    ensures View(CardOf(p), Balls(COLUMN_BALLS))[i] <==> OnLine(MIDDLE, i)
  {
    hide CardOf, OnLine, Balls, CellOfBall;
    CardIsValid(p);
    MiddleCells(p, i);
  }

  /** With only the middle column called, a line is done exactly when the whole column is marked. */
  lemma ColumnDecides(p: Id, marked: set<nat>)
    requires p < MAX_PLAYERS
    ensures (exists a | 0 <= a < LINE_COUNT :: LineDone(a, View(CardOf(p), Balls(COLUMN_BALLS)), View(CardOf(p), marked)))
            <==> Balls(COLUMN_BALLS) <= marked
    ensures Balls(COLUMN_BALLS) <= marked ==> LineDone(MIDDLE, View(CardOf(p), Balls(COLUMN_BALLS)), View(CardOf(p), marked))
  {
    hide CardOf, OnLine, View, Balls, CellOfBall;
    var called, done := View(CardOf(p), Balls(COLUMN_BALLS)), View(CardOf(p), marked);
    if a :| 0 <= a < LINE_COUNT && LineDone(a, called, done) {
      if a != MIDDLE {
        var i := OtherLine(a);
        MiddleView(p, marked, i);
        assert false;
      }
      forall b | b in Balls(COLUMN_BALLS) ensures b in marked {
        var k := BallIndex(b);
        BallCell(p, marked, k);
        assert done[CellOfBall(k)];
      }
    }
    if Balls(COLUMN_BALLS) <= marked {
      forall i: nat | i < CELL_COUNT && i != FREE_CELL && OnLine(MIDDLE, i) ensures called[i] && done[i] {
        MiddleView(p, marked, i);
        MiddleCells(p, i);
      }
      assert LineDone(MIDDLE, called, done);
    }
  }

  lemma BallIndex(b: nat) returns (k: nat)
    requires b in Balls(COLUMN_BALLS)
    ensures k < COLUMN_BALLS && b == FIRST_BALL + k
  {
    k := b - FIRST_BALL;
  }

  lemma OneLineIs(o: Options)
    requires Shipped(o)
    ensures MayFound(o) && FindPattern(o.catalog, STANDARD_ONE_LINE) == Some(o.catalog[0]) && WellFormed(o.catalog[0])
  {
    hide PairMasks;
    StandardIsValid(o.catalog);
    FindAt(o.catalog, 0);
  }

  /** One Line is complete on a card exactly when its holder has marked the whole column. */
  lemma CompleteIffMarked(o: Options, p: Id, marked: set<nat>)
    requires Shipped(o) && p < MAX_PLAYERS
    ensures Completes(o.catalog[0], View(CardOf(p), Balls(COLUMN_BALLS)), View(CardOf(p), marked)) <==> Balls(COLUMN_BALLS) <= marked
    ensures Balls(COLUMN_BALLS) <= marked ==>
              exists m | m in o.catalog[0].masks :: Covers(m, View(CardOf(p), Balls(COLUMN_BALLS)), View(CardOf(p), marked)) && m[CellOfBall(3)]
  {
    hide PairMasks, CardOf, View, Balls, Completes, Covers, OnLine;
    var called, done := View(CardOf(p), Balls(COLUMN_BALLS)), View(CardOf(p), marked);
    LinesOf(o);
    OneLineMeaning(o.catalog[0], Lines(), called, done);
    ColumnDecides(p, marked);
    if Balls(COLUMN_BALLS) <= marked {
      MaskCovered(LineCells(MIDDLE), called, done);
      BallCell(p, marked, 3);
      assert LineMasks()[MIDDLE] == Mask(LineCells(MIDDLE));
    }
  }

  function Lines(): seq<set<nat>> {
    seq(LINE_COUNT, k requires 0 <= k < LINE_COUNT => LineCells(k))
  }

  lemma LinesOf(o: Options)
    requires Shipped(o)
    ensures o.catalog[0].masks == seq(LINE_COUNT, k requires 0 <= k < LINE_COUNT => Mask(Lines()[k]))
  {
    hide PairMasks, LineCells, Mask;
    assert LineMasks() == seq(LINE_COUNT, k requires 0 <= k < LINE_COUNT => Mask(Lines()[k]));
  }

  // ---------- everybody marks ----------

  const MARKED_AT := 3000

  /** The participants below `p` have won, and `p` has marked the first `j` balls. */
  predicate Marking(db: Db, o: Options, p: Id, j: nat) {
    && Seated(db) && db.game.Some?
    && var g := db.game.value;
       && Dealt(g) && |g.calls| == COLUMN_BALLS && MarkingStage(g.round, o, p)
       && g.winners.Keys == Below(p) && MarkedSoFar(g.marks, p, j)
  }

  predicate MarkingStage(r: Round, o: Options, p: Id) {
    if p == 0 then r.stage.StageActive? else r.stage.StageWindow? && r.closesAt == Some(MARKED_AT + o.windowMs)
  }

  predicate MarkedSoFar(marks: map<(Id, nat), Mark>, p: Id, j: nat) {
    forall q: Id | p <= q < MAX_PLAYERS :: MarkedBalls(marks, CardId(q)) == Balls(if q == p then j else 0)
  }

  function MarkId(p: Id, j: nat): Id {
    COLUMN_BALLS + 1 + COLUMN_BALLS * p + j
  }

  lemma CalledColumn(g: Game, limit: Id, clock: Time)
    requires CallsOk(g.draw, g.calls, limit, clock) && |g.calls| == COLUMN_BALLS && g.draw == Draw()
    ensures CalledBalls(g.calls) == Balls(COLUMN_BALLS)
    ensures LatestCall(g.calls).Some? && LatestCall(g.calls).value.ball == FIRST_BALL + 3
  {
    hide Draw;
    FirstDrawn();
    forall b ensures b in CalledBalls(g.calls) <==> b in Balls(COLUMN_BALLS) {
      if b in Balls(COLUMN_BALLS) {
        assert g.calls[b - FIRST_BALL] in g.calls && g.calls[b - FIRST_BALL].ball == b;
      }
      if b in CalledBalls(g.calls) {
        var c :| c in g.calls && c.ball == b;
        var i :| 0 <= i < |g.calls| && g.calls[i] == c;
      }
    }
  }

  lemma FirstDrawn()
    ensures |Draw()| == BALL_COUNT && forall i | 0 <= i < COLUMN_BALLS :: Draw()[i] == FIRST_BALL + i
  {
  }

  /** What the invariant and the state of the run say about the round. */
  predicate Open(g: Game, o: Options, limit: Id, p: Id, j: nat) {
    && MarkReady(g, o, limit, MARKED_AT, MARKED_AT) && p < MAX_PLAYERS && j < COLUMN_BALLS
    && Dealt(g) && |g.calls| == COLUMN_BALLS && MarkingStage(g.round, o, p)
    && g.winners.Keys == Below(p) && MarkedSoFar(g.marks, p, j)
  }

  lemma ReadyNow(db: Db, o: Options, p: Id, j: nat)
    requires Inv(db, o) && Marking(db, o, p, j) && db.clock == MARKED_AT && p < MAX_PLAYERS && j < COLUMN_BALLS
    ensures Open(db.game.value, o, db.nextId, p, j)
  {
    hide Inv, MarkReady, Dealt, MarkingStage, MarkedSoFar, Below;
    LobbyMarks.ReadyToMark(db, o);
  }

  lemma CardIn(g: Game, p: Id)
    requires Dealt(g) && p < MAX_PLAYERS
    ensures p in g.cards && g.cards[p] == Card(CardId(p), CardOf(p))
  {
    hide Draw, CardOf;
    DrawOfDeal();
  }

  lemma MayMark(g: Game, o: Options, limit: Id, p: Id, j: nat)
    requires Shipped(o) && Open(g, o, limit, p, j)
    ensures MarkAllowed(g, p, FIRST_BALL + j, MARKED_AT)
    ensures CalledBalls(g.calls) == Balls(COLUMN_BALLS) && LatestCall(g.calls).Some? && LatestCall(g.calls).value.ball == FIRST_BALL + 3
  {
    hide CardOf, TheDeal, Draw, RowOk, MarksOk, CardsOk, WinnersOk, WinnersComplete, DrawOk, CalledBalls, Standard, MarkedSoFar, CellOfBall;
    CardIn(g, p);
    CalledColumn(g, limit, MARKED_AT);
    BallCell(p, {}, j);
    assert CardOf(p)[CellOfBall(j)] in CardOf(p);
  }

  /** The mark of the last ball wins, and no other does. */
  lemma LastBallWins(g: Game, o: Options, limit: Id, p: Id, j: nat)
    requires Shipped(o) && Open(g, o, limit, p, j)
    ensures FindPattern(o.catalog, g.round.currentPattern) == Some(o.catalog[0]) && WellFormed(o.catalog[0]) && p in g.cards
    ensures AttributionOf(g, o.catalog[0], p, FIRST_BALL + j).Some? <==> j == 3
  {
    hide CardOf, Draw, GameOk, WinnersComplete, View, CalledBalls, Shipped, Completes, Covers, AttributionOf, CellOfBall, IndexOf, MarkingStage,
         MarkedBalls, ValidOptions, TheDeal;
    OneLineIs(o);
    MayMark(g, o, limit, p, j);
    CardIn(g, p);
    CardIsValid(p);
    var marked := MarkedBalls(g.marks, CardId(p));
    assert marked == Balls(j);
    CompleteIffMarked(o, p, marked);
    CompleteIffMarked(o, p, marked + {FIRST_BALL + j});
    ColumnFills(j);
    AttributionMeaning(g, o.catalog[0], p, FIRST_BALL + j);
    LastIndex(p);
    NewMark(g.marks, CardId(p), FIRST_BALL + j, j);
    CoveredCompletes(o.catalog[0], View(CardOf(p), Balls(COLUMN_BALLS)), View(CardOf(p), marked + {FIRST_BALL + j}));
  }

  lemma CoveredCompletes(pattern: Pattern, called: CellSet, marked: CellSet)
    ensures (exists m | m in pattern.masks :: Covers(m, called, marked)) <==> Completes(pattern, called, marked)
  {
    hide Covers;
  }

  lemma ColumnFills(j: nat)
    requires j < COLUMN_BALLS
    ensures !(Balls(COLUMN_BALLS) <= Balls(j)) && (Balls(COLUMN_BALLS) <= Balls(j) + {FIRST_BALL + j} <==> j == 3)
    ensures Balls(j) + {FIRST_BALL + j} == Balls(j + 1)
  {
    assert FIRST_BALL + 3 in Balls(COLUMN_BALLS);
  }

  lemma NewMark(marks: map<(Id, nat), Mark>, card: Id, ball: nat, j: nat)
    requires MarkedBalls(marks, card) == Balls(j) && ball == FIRST_BALL + j
    ensures (card, ball) !in marks
  {
    InMarkedBalls(marks, card, ball);
  }

  lemma LastIndex(p: Id)
    requires p < MAX_PLAYERS
    ensures IndexOf(CardOf(p), FIRST_BALL + 3) == CellOfBall(3) && 0 <= CellOfBall(3) < CELL_COUNT && CellOfBall(3) != FREE_CELL
  {
    hide CardOf, CellOfBall;
    CardIsValid(p);
    BallCell(p, {}, 3);
    assert CardOf(p)[CellOfBall(3)] in CardOf(p);
  }

  /** The marks after `p` marked the next ball. */
  lemma MarksMove(marks: map<(Id, nat), Mark>, p: Id, j: nat, mark: Mark)
    requires MarkedSoFar(marks, p, j) && p < MAX_PLAYERS && j < COLUMN_BALLS
    ensures var after := marks[(CardId(p), FIRST_BALL + j) := mark];
            MarkedSoFar(after, p, j + 1) && MarkedSoFar(after, p + 1, 0)
  {
    hide MarkedBalls, Balls;
    var after := marks[(CardId(p), FIRST_BALL + j) := mark];
    ColumnFills(j);
    MarkedBallsAfter(marks, (CardId(p), FIRST_BALL + j), mark);
    forall q: Id | p < q < MAX_PLAYERS ensures MarkedBalls(after, CardId(q)) == Balls(0) {
      OtherMarks(marks, (CardId(p), FIRST_BALL + j), mark, CardId(q));
    }
  }

  lemma OtherMarks(marks: map<(Id, nat), Mark>, key: (Id, nat), mark: Mark, card: Id)
    requires card != key.0
    ensures MarkedBalls(marks[key := mark], card) == MarkedBalls(marks, card)
  {
    forall b ensures b in MarkedBalls(marks[key := mark], card) <==> b in MarkedBalls(marks, card) {
      InMarkedBalls(marks, card, b);
      InMarkedBalls(marks[key := mark], card, b);
    }
  }

  /** The round after the mark. */
  lemma MarkMoves(g: Game, o: Options, limit: Id, p: Id, j: nat)
    requires Shipped(o) && Open(g, o, limit, p, j)
    ensures var c := MarkCard(g, o, p, FIRST_BALL + j, MARKED_AT, limit);
            && c.Marked? && (c.opens ==> c.receipt.attribution.Some?)
            && Dealt(c.game) && c.game.calls == g.calls
            && MarkingStage(c.game.round, o, if j == 3 then p + 1 else p)
            && c.game.winners.Keys == Below(if j == 3 then p + 1 else p)
            && (if j == 3 then MarkedSoFar(c.game.marks, p + 1, 0) else MarkedSoFar(c.game.marks, p, j + 1))
  {
    hide MarkCard, MarkReady, Shipped, AttributionOf, MarkedSoFar, TheDeal, Draw, SnapOf, RequiredBall, MarkAllowed, CardOf, Below, First;
    LastBallWins(g, o, limit, p, j);
    MayMark(g, o, limit, p, j);
    CardIn(g, p);
    MarkCommits(g, o, limit, MARKED_AT, p, FIRST_BALL + j, MARKED_AT, limit);
    MarksMove(g.marks, p, j, MarkCard(g, o, p, FIRST_BALL + j, MARKED_AT, limit).receipt.mark);
    assert Below(p) + {p} == Below(p + 1);
  }

  function NextMark(p: Id, j: nat): (Id, nat) {
    if j == 3 then (p + 1, 0) else (p, j + 1)
  }

  predicate MarkingAt(db: Db, o: Options, at: (Id, nat)) {
    Marking(db, o, at.0, at.1)
  }

  /** Participant `p` marks ball `j` of the column. */
  ghost function BallMarked(db: Db, o: Options, p: Id, j: nat): Mutation {
    Mutate(db, o, p, Command(MarkId(p, j), MarkBall(FIRST_BALL + j)), EnvAt(MARKED_AT))
  }

  predicate Advances(db: Db, m: Mutation, o: Options, p: Id, j: nat) {
    m.Done? && m.db.world == db.world && m.db.game.Some? && MarkingAt(m.db, o, NextMark(p, j))
  }

  lemma MarkDone(db: Db, o: Options, p: Id, j: nat)
    requires Shipped(o) && Inv(db, o) && Marking(db, o, p, j) && db.clock == MARKED_AT && p < MAX_PLAYERS && j < COLUMN_BALLS
    ensures Advances(db, BallMarked(db, o, p, j), o, p, j)
  {
    hide Inv, Open, MarkCard, Dealt, MarkingStage, MarkedSoFar, Shipped, Below, Seated, TheDeal, EntryOf;
    ReadyNow(db, o, p, j);
    MarkMoves(db.game.value, o, db.nextId, p, j);
    MarkContext(db.game.value, o, db.nextId, p, j);
    SeatedStays(db, BallMarked(db, o, p, j));
  }

  lemma MarkContext(g: Game, o: Options, limit: Id, p: Id, j: nat)
    requires Shipped(o) && Open(g, o, limit, p, j)
    ensures p in g.cards && Known(o.catalog, g.round.currentPattern)
  {
    hide Shipped, Open;
    LastBallWins(g, o, limit, p, j);
  }

  lemma SeatedStays(db: Db, m: Mutation)
    ensures m.Done? && m.db.world == db.world && Seated(db) ==> Seated(m.db)
  {
  }

  predicate MarksUnused(db: Db, at: (Id, nat)) {
    Unused(db, MarkId(at.0, at.1))
  }

  lemma MarksOnce(before: Db, o: Options, p: Id, j: nat) returns (db: Db)
    requires Shipped(o) && At(before, o) && Marking(before, o, p, j) && Unused(before, MarkId(p, j)) && before.clock <= MARKED_AT
    requires p < MAX_PLAYERS && j < COLUMN_BALLS
    ensures At(db, o) && MarkingAt(db, o, NextMark(p, j)) && MarksUnused(db, NextMark(p, j)) && db.clock == MARKED_AT
  {
    hide Reached, Marking, Mutate, Shipped, TheDeal, Seated, Inv, Next, Unused;
    var here := before.(clock := MARKED_AT);
    Tick(before, o, MARKED_AT);
    SameMarking(before, here, o, p, j);
    MarkDone(here, o, p, j);
    MarkingIsSeated(before, o, p, j);
    Commits(before, o, p, MarkId(p, j), MarkBall(FIRST_BALL + j), MARKED_AT);
    db := Next(before, o, Order(p, MarkId(p, j), MarkBall(FIRST_BALL + j), MARKED_AT)).value;
    SameMarking(BallMarked(here, o, p, j).db, db, o, NextMark(p, j).0, NextMark(p, j).1);
    assert MarkId(NextMark(p, j).0, NextMark(p, j).1) == MarkId(p, j) + 1;
  }

  lemma {:induction false} EverybodyMarks(o: Options, p: Id, j: nat) returns (db: Db)
    requires Shipped(o) && j < COLUMN_BALLS && (p < MAX_PLAYERS || (p == MAX_PLAYERS && j == 0))
    ensures At(db, o) && Marking(db, o, p, j) && Unused(db, MarkId(p, j)) && db.clock <= MARKED_AT
    decreases p, j
  {
    hide At, Marking, Mutate, Shipped, TheDeal, Seated, Unused, Inv, DealFits;
    if p == 0 && j == 0 {
      OneLineIs(o);
      db := Calls(o, COLUMN_BALLS);
      NothingMarked(db, o);
    } else {
      var q, i := if j > 0 then p else p - 1, if j > 0 then j - 1 else COLUMN_BALLS - 1;
      var before := EverybodyMarks(o, q, i);
      db := MarksOnce(before, o, q, i);
    }
  }

  lemma SameMarking(db: Db, next: Db, o: Options, p: Id, j: nat)
    requires Marking(db, o, p, j) && next.game == db.game && next.world == db.world
    ensures Marking(next, o, p, j)
  {
  }

  lemma MarkingIsSeated(db: Db, o: Options, p: Id, j: nat)
    requires Marking(db, o, p, j)
    ensures Seated(db)
  {
  }

  lemma NothingMarked(db: Db, o: Options)
    requires Calling(db, COLUMN_BALLS)
    ensures Marking(db, o, 0, 0)
  {
    hide TheDeal, Draw;
    assert Below(0) == {};
    forall q: Id ensures MarkedBalls(map[], CardId(q)) == Balls(0) {}
  }

  /** All 25 have won. */
  lemma EverybodyHasWon(o: Options) returns (db: Db)
    requires Shipped(o)
    ensures At(db, o) && Marking(db, o, MAX_PLAYERS, 0) && Unused(db, MarkId(MAX_PLAYERS, 0)) && db.clock <= MARKED_AT
  {
    hide At, Marking, Shipped, Unused;
    db := EverybodyMarks(o, MAX_PLAYERS, 0);
  }
}
