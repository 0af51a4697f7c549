/** Marking a card: what one mark changes, when it wins, and why it never throws. */
module Marks {

  import opened Common
  import opened Patterns
  import opened Rows
  import opened Games
  import M = RoundMachine

  // ---------- completion of a pattern on a card ----------

  predicate Completed(g: Game, pattern: Pattern, participant: Id) {
    && participant in g.cards
    && Completes(pattern, View(g.cards[participant].cells, CalledBalls(g.calls)),
                 View(g.cards[participant].cells, MarkedBalls(g.marks, g.cards[participant].id)))
  }

  /** Every standing winner's card completes the current pattern. */
  predicate WinnersComplete(g: Game, catalog: seq<Pattern>) {
    Known(catalog, g.round.currentPattern) ==>
      forall p | p in g.winners :: Completed(g, FindPattern(catalog, g.round.currentPattern).value, p)
  }

  /** Same cards, and no call or mark withdrawn. */
  predicate Extends(g: Game, g': Game) {
    && g.cards == g'.cards
    && g.calls <= g'.calls
    && g.marks.Keys <= g'.marks.Keys
    && forall k | k in g.marks :: g'.marks[k] == g.marks[k]
  }

  lemma BallsGrow(g: Game, g': Game, card: Id)
    requires Extends(g, g')
    ensures CalledBalls(g.calls) <= CalledBalls(g'.calls)
    ensures MarkedBalls(g.marks, card) <= MarkedBalls(g'.marks, card)
  {
    forall x | x in g.calls ensures x in g'.calls {
      var i :| 0 <= i < |g.calls| && g.calls[i] == x;
      assert g'.calls[i] == x;
    }
    forall b | b in MarkedBalls(g.marks, card) ensures b in MarkedBalls(g'.marks, card) {
      assert (card, b) in g'.marks;
    }
  }

  lemma CompletionPersists(g: Game, g': Game, pattern: Pattern, participant: Id)
    requires Extends(g, g') && Completed(g, pattern, participant) && WellFormed(pattern)
    ensures Completed(g', pattern, participant)
  {
    var card := g.cards[participant];
    BallsGrow(g, g', card.id);
    ViewGrows(card.cells, CalledBalls(g.calls), CalledBalls(g'.calls));
    ViewGrows(card.cells, MarkedBalls(g.marks, card.id), MarkedBalls(g'.marks, card.id));
    ProgressIsMonotone(pattern,
      View(card.cells, CalledBalls(g.calls)), View(card.cells, MarkedBalls(g.marks, card.id)),
      View(card.cells, CalledBalls(g'.calls)), View(card.cells, MarkedBalls(g'.marks, card.id)));
  }

  lemma ViewGrows(cells: Cells, a: set<nat>, b: set<nat>)
    requires a <= b
    ensures SubCells(View(cells, a), View(cells, b))
  {
  }

  // ---------- a single mark ----------

  lemma RequiredBallExists(cells: Cells, snap: Snap)
    requires WellFormed(snap.pattern) && ValidCells(cells)
    ensures RequiredBall(cells, snap).Some?
    ensures var b := RequiredBall(cells, snap).value; b.Some? ==> b.value != 0 && b.value in cells
  {
    hide CalculateProgress, Completes;
    NearWinIsSound(snap.pattern, snap.called, snap.marked);
  }

  /** An attributed mark is new, names the latest call, and takes the card from incomplete to complete. */
  lemma AttributionMeaning(g: Game, pattern: Pattern, participant: Id, ball: nat)
    requires participant in g.cards && WellFormed(pattern)
    ensures var won := AttributionOf(g, pattern, participant, ball);
            var card := g.cards[participant];
            var called := View(card.cells, CalledBalls(g.calls));
            var marked := View(card.cells, MarkedBalls(g.marks, card.id) + {ball});
            won.Some? <==>
              && (card.id, ball) !in g.marks
              && !Completed(g, pattern, participant)
              && LatestCall(g.calls).Some?
              && var latest := IndexOf(card.cells, LatestCall(g.calls).value.ball);
                 0 <= latest < CELL_COUNT && latest != FREE_CELL
                 && exists m | m in pattern.masks :: Covers(m, called, marked) && m[latest]
    ensures var won := AttributionOf(g, pattern, participant, ball);
            won.Some? ==> LatestCall(g.calls).Some? && won.value == LatestCall(g.calls).value.id
  {
    hide CalculateProgress, Covers, Attributable, View, CalledBalls, MarkedBalls, IndexOf;
    var card := g.cards[participant];
    var prior := MarkedBalls(g.marks, card.id);
    var called := View(card.cells, CalledBalls(g.calls));
    var marked := View(card.cells, prior + {ball});
    CompleteIffSomeMaskCovered(pattern, called, View(card.cells, prior));
    CompleteIffSomeMaskCovered(pattern, called, marked);
    if LatestCall(g.calls).Some? {
      AttributableMeaning(pattern, called, marked, View(card.cells, prior),
                          IndexOf(card.cells, LatestCall(g.calls).value.ball));
    }
  }

  lemma MarkedBallsAfter(marks: map<(Id, nat), Mark>, key: (Id, nat), mark: Mark)
    ensures MarkedBalls(marks[key := mark], key.0) == MarkedBalls(marks, key.0) + {key.1}
  {
    forall b | b in MarkedBalls(marks, key.0) + {key.1} ensures b in MarkedBalls(marks[key := mark], key.0) {
      assert (key.0, b) in marks[key := mark];
    }
  }

  predicate MarkReady(g: Game, o: Options, limit: Id, clock: Time, now: Time) {
    && GameOk(g, o, limit, clock) && WinnersComplete(g, o.catalog)
    && ValidOptions(o) && clock <= now
  }

  lemma KnownPattern(g: Game, o: Options, limit: Id, clock: Time)
    requires GameOk(g, o, limit, clock) && ValidOptions(o)
    ensures Known(o.catalog, g.round.currentPattern)
    ensures WellFormed(FindPattern(o.catalog, g.round.currentPattern).value)
  {
  }

  /** The rows and the receipt that an allowed mark leaves. */
  predicate MarkEffect(g: Game, o: Options, participant: Id, ball: nat, now: Time, id: Id, c: MarkChange)
    requires MarkAllowed(g, participant, ball, now) && Known(o.catalog, g.round.currentPattern)
    requires WellFormed(FindPattern(o.catalog, g.round.currentPattern).value)
  {
    var pattern := FindPattern(o.catalog, g.round.currentPattern).value;
    var key := KeyOf(g, participant, ball);
    var won := AttributionOf(g, pattern, participant, ball);
    && c.Marked?
    && c.receipt.cardId == key.0 && c.receipt.ball == ball
    && c.receipt.progress == SnapOf(g, pattern, participant, ball, o)
    && RequiredBall(g.cards[participant].cells, c.receipt.progress) == Some(c.receipt.requiredBall)
    && c.receipt.mark == (if key in g.marks then g.marks[key] else Mark(id, now))
    && c.receipt.attribution == won
    && c.opens == (won.Some? && !g.round.stage.StageWindow?)
    && (won.Some? ==> participant !in g.winners)
    && c.game == g.(marks := g.marks[key := c.receipt.mark],
                    winners := if won.Some? then g.winners[participant := Winner(key.0, won.value, now)] else g.winners,
                    round := if c.opens then WindowRow(g.round, won.value, now, now + o.windowMs) else g.round)
  }

  /** An allowed mark always commits, and in exactly this way. */
  lemma MarkCommits(g: Game, o: Options, limit: Id, clock: Time, participant: Id, ball: nat, now: Time, id: Id)
    requires MarkReady(g, o, limit, clock, now)
    requires MarkAllowed(g, participant, ball, now)
    ensures Known(o.catalog, g.round.currentPattern)
    ensures WellFormed(FindPattern(o.catalog, g.round.currentPattern).value)
    ensures MarkEffect(g, o, participant, ball, now, id, MarkCard(g, o, participant, ball, now, id))
  {
    hide DrawOk, CallsOk, MarksOk, DeadlineAfterCalls, ValidCells, AttributionOf, M.Transition, ToDomain, StageShape, DeadlineOk,
         RequiredBall, Decide, WindowRow, CalledBalls, MarkedBalls, View, LatestCall, Completes;
    KnownPattern(g, o, limit, clock);
    var pattern := FindPattern(o.catalog, g.round.currentPattern).value;
    RequiredBallExists(g.cards[participant].cells, SnapOf(g, pattern, participant, ball, o));
    AttributionMeaning(g, pattern, participant, ball);
    if AttributionOf(g, pattern, participant, ball).Some? {
      AttributionMatchesTrigger(g, o, limit, clock, pattern, participant, ball);
    }
    OpeningAccepted(g.round, o.catalog, clock, now, now + o.windowMs);
  }

  /** A first completion is never by a standing winner, and inside a window it is on the triggering call. */
  lemma AttributionMatchesTrigger(g: Game, o: Options, limit: Id, clock: Time, pattern: Pattern, participant: Id, ball: nat)
    requires GameOk(g, o, limit, clock) && WinnersComplete(g, o.catalog) && ValidOptions(o)
    requires participant in g.cards && pattern == FindPattern(o.catalog, g.round.currentPattern).value
    requires WellFormed(pattern)
    requires g.round.stage in {StageActive, StagePaused, StageWindow}
    requires AttributionOf(g, pattern, participant, ball).Some?
    ensures participant !in g.winners
    ensures g.round.stage.StageWindow? ==> g.round.trigger == AttributionOf(g, pattern, participant, ball)
    ensures !g.round.stage.StageWindow? ==> g.winners == map[]
  {
    hide DrawOk, CallsOk, MarksOk, DeadlineAfterCalls, CardsOk, AttributionOf, CalledBalls, MarkedBalls, View, Completes;
    AttributionMeaning(g, pattern, participant, ball);
  }

  lemma OpeningAccepted(r: Round, catalog: seq<Pattern>, clock: Time, now: Time, closesAt: Time)
    requires RowOk(r, catalog, clock) && clock <= now < closesAt
    ensures (r.stage.StageActive? || r.stage.StagePaused?) <==> Decide(r, catalog, M.OpenWindow(now, closesAt)).Accepted?
  {
  }

  /** Opening the window is the machine's step. */
  lemma OpenStep(r: Round, catalog: seq<Pattern>, clock: Time, trigger: Id, now: Time, closesAt: Time)
    requires RowOk(r, catalog, clock) && clock <= now < closesAt
    requires r.stage.StageActive? || r.stage.StagePaused?
    ensures Steps(r, M.OpenWindow(now, closesAt), WindowRow(r, trigger, now, closesAt), catalog)
    ensures RowOk(WindowRow(r, trigger, now, closesAt), catalog, now)
  {
  }

  lemma MarkStep(g: Game, o: Options, limit: Id, clock: Time, participant: Id, ball: nat, now: Time, id: Id)
    requires MarkReady(g, o, limit, clock, now) && limit <= id
    ensures var c := MarkCard(g, o, participant, ball, now, id);
            && !c.MarkFault?
            && (c.Marked? <==> MarkAllowed(g, participant, ball, now))
            && (c.Marked? ==>
                  && GameOk(c.game, o, id + 1, now)
                  && WinnersComplete(c.game, o.catalog)
                  && Extends(g, c.game))
  {
    if MarkAllowed(g, participant, ball, now) {
      MarkCommits(g, o, limit, clock, participant, ball, now, id);
      var c := MarkCard(g, o, participant, ball, now, id);
      MarkEffectOk(g, o, limit, clock, participant, ball, now, id, c);
    }
  }

  predicate Effect(g: Game, o: Options, limit: Id, clock: Time, participant: Id, ball: nat, now: Time, id: Id, c: MarkChange) {
    && MarkReady(g, o, limit, clock, now) && limit <= id
    && MarkAllowed(g, participant, ball, now)
    && Known(o.catalog, g.round.currentPattern)
    && WellFormed(FindPattern(o.catalog, g.round.currentPattern).value)
    && MarkEffect(g, o, participant, ball, now, id, c)
  }

  lemma MarkEffectOk(g: Game, o: Options, limit: Id, clock: Time, participant: Id, ball: nat, now: Time, id: Id, c: MarkChange)
    requires Effect(g, o, limit, clock, participant, ball, now, id, c)
    ensures GameOk(c.game, o, id + 1, now) && WinnersComplete(c.game, o.catalog) && Extends(g, c.game)
  {
    hide AttributionOf, RequiredBall, SnapOf, WinnersOk, WinnersComplete, MarksOk, Extends, WindowRow, DrawOk, CardsOk, CallsOk, RowOk,
         MarkEffect, MarkAllowed, ValidOptions, DeadlineAfterCalls;
    MarksStayOk(g, o, limit, clock, participant, ball, now, id, c);
    WinnersStayOk(g, o, limit, clock, participant, ball, now, id, c);
    EffectRows(g, o, limit, clock, participant, ball, now, id, c);
    OtherRowsLater(g, limit, clock, id + 1, now);
    RowAfterMark(g, o, limit, clock, participant, ball, now, id, c);
  }

  /** A mark touches neither the draw, the cards nor the calls. */
  lemma EffectRows(g: Game, o: Options, limit: Id, clock: Time, participant: Id, ball: nat, now: Time, id: Id, c: MarkChange)
    requires Effect(g, o, limit, clock, participant, ball, now, id, c)
    ensures c.game.draw == g.draw && c.game.cards == g.cards && c.game.calls == g.calls && c.game.round.id == g.round.id
    ensures GameOk(g, o, limit, clock) && !c.game.round.stage.StageWaiting? && limit <= id && clock <= now
  {
    hide AttributionOf, RequiredBall, SnapOf, GameOk, WinnersComplete;
  }

  lemma OtherRowsLater(g: Game, limit: Id, clock: Time, limit': Id, now: Time)
    requires CardsOk(g.cards, limit) && CallsOk(g.draw, g.calls, limit, clock) && limit <= limit' && clock <= now
    ensures CardsOk(g.cards, limit') && CallsOk(g.draw, g.calls, limit', now)
  {
    hide ValidCells;
  }

  lemma RowAfterMark(g: Game, o: Options, limit: Id, clock: Time, participant: Id, ball: nat, now: Time, id: Id, c: MarkChange)
    requires Effect(g, o, limit, clock, participant, ball, now, id, c)
    ensures RowOk(c.game.round, o.catalog, now) && DeadlineAfterCalls(c.game)
  {
    hide AttributionOf, RequiredBall, SnapOf, WinnersOk, WinnersComplete, MarksOk, WindowRow, DrawOk, CardsOk, CallsOk;
    if c.opens {
      OpenStep(g.round, o.catalog, clock, c.receipt.attribution.value, now, now + o.windowMs);
      WindowRowDisarmed(g.round, c.receipt.attribution.value, now, now + o.windowMs);
    }
  }

  lemma WindowRowDisarmed(r: Round, trigger: Id, now: Time, closesAt: Time)
    ensures var w := WindowRow(r, trigger, now, closesAt);
            w.nextCallAt.None? && w.id == r.id && !w.stage.StageWaiting? && w.currentPattern == r.currentPattern
  {
  }

  lemma MarksStayOk(g: Game, o: Options, limit: Id, clock: Time, participant: Id, ball: nat, now: Time, id: Id, c: MarkChange)
    requires Effect(g, o, limit, clock, participant, ball, now, id, c)
    ensures MarksOk(c.game, id + 1, now) && Extends(g, c.game)
  {
    hide AttributionOf, RequiredBall, SnapOf, WinnersOk, WinnersComplete, RowOk, DrawOk, WindowRow, DeadlineAfterCalls,
         CardsOk, CallsOk, CalledBalls, MarksOk;
    var key := KeyOf(g, participant, ball);
    assert HoldsBall(g.cards, key);
    CalledBallsPositive(g, o, limit, clock, ball);
    InsertMark(g, c.game, limit, clock, key, c.receipt.mark, now, id);
  }

  lemma InsertMark(g: Game, g': Game, limit: Id, clock: Time, key: (Id, nat), mark: Mark, now: Time, id: Id)
    requires MarksOk(g, limit, clock) && clock <= now && limit <= id
    requires key.1 != 0 && key.1 in CalledBalls(g.calls) && HoldsBall(g.cards, key)
    requires mark == if key in g.marks then g.marks[key] else Mark(id, now)
    requires g'.cards == g.cards && g'.calls == g.calls && g'.marks == g.marks[key := mark]
    ensures MarksOk(g', id + 1, now)
  {
    hide HoldsBall, CalledBalls;
    forall k | k in g'.marks
      ensures k.1 != 0 && k.1 in CalledBalls(g'.calls) && HoldsBall(g'.cards, k)
           && g'.marks[k].id < id + 1 && g'.marks[k].markedAt <= now
    {
      if k != key { assert k in g.marks; }
    }
    forall k, l | k in g'.marks && l in g'.marks && k != l ensures g'.marks[k].id != g'.marks[l].id {
      assert k == key || k in g.marks;
      assert l == key || l in g.marks;
    }
  }

  lemma CalledBallsPositive(g: Game, o: Options, limit: Id, clock: Time, ball: nat)
    requires GameOk(g, o, limit, clock) && ball in CalledBalls(g.calls)
    ensures 1 <= ball <= BALL_COUNT
  {
    hide MarksOk, RowOk, WinnersOk, CardsOk, DeadlineAfterCalls;
    var c :| c in g.calls && c.ball == ball;
    var i :| 0 <= i < |g.calls| && g.calls[i] == c;
  }

  lemma WinnersStayOk(g: Game, o: Options, limit: Id, clock: Time, participant: Id, ball: nat, now: Time, id: Id, c: MarkChange)
    requires Effect(g, o, limit, clock, participant, ball, now, id, c)
    ensures WinnersOk(c.game) && WinnersComplete(c.game, o.catalog)
  {
    hide RequiredBall, SnapOf, RowOk, DrawOk, DeadlineAfterCalls, CardsOk, MarksOk, CallsOk, AttributionOf, Completed, Extends;
    var g' := c.game;
    MarksStayOk(g, o, limit, clock, participant, ball, now, id, c);
    var pattern := FindPattern(o.catalog, g.round.currentPattern).value;
    forall p | p in g.winners ensures Completed(g', pattern, p) {
      CompletionPersists(g, g', pattern, p);
    }
    if c.receipt.attribution.Some? {
      AttributionMatchesTrigger(g, o, limit, clock, pattern, participant, ball);
      AttributedCompletes(g, g', pattern, participant, ball, c.receipt.mark);
    }
  }

  lemma AttributedCompletes(g: Game, g': Game, pattern: Pattern, participant: Id, ball: nat, mark: Mark)
    requires participant in g.cards && WellFormed(pattern)
    requires AttributionOf(g, pattern, participant, ball).Some?
    requires g'.cards == g.cards && g'.calls == g.calls && g'.marks == g.marks[KeyOf(g, participant, ball) := mark]
    ensures Completed(g', pattern, participant)
    ensures LatestCall(g.calls).Some?
    ensures AttributionOf(g, pattern, participant, ball) == Some(LatestCall(g.calls).value.id)
  {
    hide AttributionOf, CalledBalls, MarkedBalls, View;
    AttributionMeaning(g, pattern, participant, ball);
    MarkedBallsAfter(g.marks, KeyOf(g, participant, ball), mark);
  }

  // ---------- near wins ----------

  lemma MarkedView(cells: Cells, balls: set<nat>, cell: nat)
    requires ValidCells(cells) && cell < CELL_COUNT && cell != FREE_CELL
    ensures View(cells, balls + {cells[cell]}) == View(cells, balls)[cell := true]
    ensures cells[cell] != 0
    ensures View(cells, balls)[cell] <==> cells[cell] in balls
  {
  }

  /** The ball that a near-win event asks for is called and unmarked on the card, and marking it completes the pattern. */
  lemma NearWinIsReal(g: Game, o: Options, limit: Id, clock: Time, participant: Id, ball: nat, now: Time, id: Id, next: Mark)
    requires MarkReady(g, o, limit, clock, now) && MarkAllowed(g, participant, ball, now)
    ensures Known(o.catalog, g.round.currentPattern)
    ensures var c := MarkCard(g, o, participant, ball, now, id);
            c.Marked? && (c.receipt.requiredBall.Some? ==>
              var wanted := c.receipt.requiredBall.value;
              var key := (g.cards[participant].id, wanted);
              && wanted in g.cards[participant].cells && wanted in CalledBalls(c.game.calls) && key !in c.game.marks
              && Completed(c.game.(marks := c.game.marks[key := next]),
                           FindPattern(o.catalog, g.round.currentPattern).value, participant))
  {
    hide GameOk, WinnersComplete, MarkAllowed, MarkCard, AttributionOf, WindowRow, CalculateProgress, Completes, CalledBalls, MarkedBalls,
         View, ValidCells;
    MarkCommits(g, o, limit, clock, participant, ball, now, id);
    AllowedCard(g, o, limit, clock, participant, ball, now);
    var c := MarkCard(g, o, participant, ball, now, id);
    var card := g.cards[participant];
    var s := c.receipt.progress;
    MarkedBallsAfter(g.marks, (card.id, ball), c.receipt.mark);
    NearWinIsSound(s.pattern, s.called, s.marked);
    if c.receipt.requiredBall.Some? {
      var cell := CalculateProgress(s.pattern, s.called, s.marked).nearWinCell.value;
      MarkedView(card.cells, CalledBalls(g.calls), cell);
      MarkedView(card.cells, MarkedBalls(c.game.marks, card.id), cell);
      MarkedBallsAfter(c.game.marks, (card.id, card.cells[cell]), next);
      InMarkedBalls(c.game.marks, card.id, card.cells[cell]);
    }
  }

  lemma AllowedCard(g: Game, o: Options, limit: Id, clock: Time, participant: Id, ball: nat, now: Time)
    requires GameOk(g, o, limit, clock) && MarkAllowed(g, participant, ball, now)
    ensures participant in g.cards && ValidCells(g.cards[participant].cells)
  {
    hide ValidCells, DrawOk, CallsOk, MarksOk, RowOk, WinnersOk, DeadlineAfterCalls;
  }

  lemma InMarkedBalls(marks: map<(Id, nat), Mark>, card: Id, ball: nat)
    ensures ball in MarkedBalls(marks, card) <==> (card, ball) in marks
  {
    if (card, ball) in marks { assert (card, ball) in marks; }
  }
}
