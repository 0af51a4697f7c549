/** A committed mark keeps the lobby invariant: its stored result, its win and its place in the history. */
module LobbyMarks {

  import opened Common
  import opened Patterns
  import opened Rows
  import opened Games
  import opened Marks
  import opened Lobby
  import opened LobbyInv
  import opened LobbySteps
  import A = Accounting

  /** Mark `c` of `ball` by `p`, committed under command `id` at the clock. */
  datatype Context = Context(g: Game, o: Options, limit: Id, now: Time, p: Id, ball: nat, c: MarkChange)

  predicate Effective(x: Context) {
    Effect(x.g, x.o, x.limit, x.now, x.p, x.ball, x.now, x.limit, x.c)
  }

  function PatternOf(x: Context): Pattern
    requires Known(x.o.catalog, x.g.round.currentPattern)
  {
    FindPattern(x.o.catalog, x.g.round.currentPattern).value
  }

  // ---------- the stored result ----------

  function StoredMark(x: Context, cmd: Command, sequence: Option<nat>): Result
    requires x.c.Marked?
  {
    var r := x.c.receipt;
    var bare := Result(Some(x.g.round.id), if x.c.opens then ActiveLobby else ParticipantPrivate, sequence,
                       if x.c.opens then 4 else 3, None, Body(cmd, Some(r.progress), EventsOf(r, cmd.id, x.now), r.attribution), x.now);
    bare.(integrity := Some(DigestOf((x.p, cmd.id), x.g.round.id, bare)))
  }

  lemma StoredProgressParses(x: Context)
    requires Effective(x)
    ensures ProgressParses(x.c.receipt.progress)
  {
    hide AttributionOf, RequiredBall, WinnersOk, WinnersComplete, RowOk, DrawOk, WindowRow, DeadlineAfterCalls, CallsOk, HoldsBall;
    var card := x.g.cards[x.p];
    assert ValidCells(card.cells);
    forall b | b in MarkedBalls(x.g.marks, card.id) + {x.ball} ensures b in CalledBalls(x.g.calls) {
      if b != x.ball { assert (card.id, b) in x.g.marks; }
    }
    ProgressIsCalled(x.g, card, PatternOf(x), CalledBalls(x.g.calls), MarkedBalls(x.g.marks, card.id) + {x.ball}, x.c.receipt.progress);
  }

  lemma ProgressIsCalled(g: Game, card: Card, pattern: Pattern, called: set<nat>, marked: set<nat>, s: Snap)
    requires ValidCells(card.cells) && marked <= called && WellFormed(pattern)
    requires s.pattern == pattern && s.called == View(card.cells, called) && s.marked == View(card.cells, marked)
    ensures ProgressParses(s)
  {
    hide WellFormed;
  }

  lemma StoredEventsAgree(x: Context, cmd: Command, sequence: Option<nat>)
    requires Effective(x) && cmd.action == MarkBall(x.ball)
    ensures EventsAgree(StoredMark(x, cmd, sequence), x.g.cards[x.p], cmd.id)
  {
    hide AttributionOf, RequiredBall, WinnersOk, WinnersComplete, RowOk, DrawOk, WindowRow, DeadlineAfterCalls, CallsOk,
         HoldsBall, MarksOk, CalledBalls, View, MarkedBalls, ValidCells;
    RequiredBallExists(x.g.cards[x.p].cells, x.c.receipt.progress);
  }

  lemma StoredMarkStands(x: Context, cmd: Command, sequence: Option<nat>)
    requires Effective(x) && cmd.action == MarkBall(x.ball)
    ensures MarkStands(x.c.game, StoredMark(x, cmd, sequence), x.g.cards[x.p])
  {
    hide AttributionOf, RequiredBall, WinnersOk, WinnersComplete, RowOk, DrawOk, WindowRow, DeadlineAfterCalls, CallsOk,
         HoldsBall, MarksOk, CalledBalls, ValidCells, MarkedBalls;
    MarkedBallsAfter(x.g.marks, KeyOf(x.g, x.p, x.ball), x.c.receipt.mark);
  }

  lemma StoredMarkOk(x: Context, cmd: Command, sequence: Option<nat>, lastSequence: nat)
    requires Effective(x) && cmd.action == MarkBall(x.ball)
    requires x.c.opens <==> sequence.Some?
    requires sequence.Some? ==> sequence.value <= lastSequence
    ensures ResultOk(Some(x.c.game), (x.p, cmd.id), StoredMark(x, cmd, sequence), lastSequence, x.now)
  {
    hide EventsAgree, MarkStands, ProgressParses, MarkReady, RequiredBall, AttributionOf, EventsOf, SnapOf;
    StoredProgressParses(x);
    StoredEventsAgree(x, cmd, sequence);
    StoredMarkStands(x, cmd, sequence);
  }

  // ---------- the stored win ----------

  /** A win of a pattern that the participant had already won contradicts its being a first completion. */
  lemma NoEarlierWin(x: Context, results: map<(Id, Id), Result>, k: (Id, Id))
    requires Effective(x) && x.c.receipt.attribution.Some?
    requires WinsOk(x.g, results, x.o.catalog)
    requires Attributed(results, x.g.round.id, k) && k.0 == x.p
    ensures !OnPattern(results[k], PatternOf(x).id)
  {
    hide AttributionOf, RequiredBall, GameOk, WinnersComplete, SnapOf, WindowRow, Completed, Backed, DistinctWins;
    AttributionMeaning(x.g, PatternOf(x), x.p, x.ball);
    assert ContextOk(x.g, x.o.catalog, k, results[k]);
  }

  lemma WinStored(x: Context, results: map<(Id, Id), Result>, k: (Id, Id), r: Result)
    requires Effective(x) && x.c.Marked? && x.p in x.c.game.winners && x.c.receipt.attribution.Some?
    requires WinsOk(x.g, results, x.o.catalog) && k !in results && k.0 == x.p
    requires r.roundId == Some(x.g.round.id) && r.body.attribution == x.c.receipt.attribution
    requires OnPattern(r, PatternOf(x).id) && r.body.progress.value.pattern == PatternOf(x)
    requires Matches(r, x.c.game.winners[x.p])
    ensures WinsOk(x.c.game, results[k := r], x.o.catalog)
  {
    hide AttributionOf, RequiredBall, GameOk, WinnersComplete, SnapOf, Completed, Backed, DistinctWins, Extends, ContextOk, Matches,
         OnPattern, Effect, WinsOk, Attributed;
    SameContestIds(x);
    WinContexts(x, results, k, r);
    WinDistinct(x, results, k, r);
    WinBacked(x, results, k, r);
    WinsFrom(x.c.game, results[k := r], x.o.catalog);
  }

  lemma WinsFrom(g: Game, results: map<(Id, Id), Result>, catalog: seq<Pattern>)
    requires forall k | k in results && Attributed(results, g.round.id, k) :: ContextOk(g, catalog, k, results[k])
    requires DistinctWins(results, g.round.id)
    requires forall p | p in g.winners :: Backed(g, results, catalog, p)
    ensures WinsOk(g, results, catalog)
  {
  }

  lemma SameContestIds(x: Context)
    requires Effective(x)
    ensures x.c.Marked?
    ensures x.c.game.round.id == x.g.round.id && x.c.game.round.currentPattern == x.g.round.currentPattern
    ensures x.c.game.cards == x.g.cards
    ensures x.p in x.g.cards && Known(x.o.catalog, x.g.round.currentPattern)
    ensures x.g.round.stage in {StageActive, StagePaused, StageWindow}
    ensures x.c.game.round.stage in {StageActive, StagePaused, StageWindow}
    ensures x.c.opens ==> x.c.receipt.attribution.Some? && !x.g.round.stage.StageWindow?
    ensures !x.c.opens ==> x.c.game.round == x.g.round
    ensures x.c.receipt.attribution.Some? ==>
              x.c.game.winners == x.g.winners[x.p := Winner(x.g.cards[x.p].id, x.c.receipt.attribution.value, x.now)]
              && x.p !in x.g.winners
    ensures x.c.receipt.attribution.None? ==> x.c.game.winners == x.g.winners && x.c.game.round == x.g.round
  {
    hide AttributionOf, RequiredBall, MarkReady, SnapOf;
  }

  lemma WinContexts(x: Context, results: map<(Id, Id), Result>, k: (Id, Id), r: Result)
    requires Effective(x) && x.c.receipt.attribution.Some?
    requires WinsOk(x.g, results, x.o.catalog) && k !in results && k.0 == x.p
    requires OnPattern(r, PatternOf(x).id) && r.body.progress.value.pattern == PatternOf(x)
    ensures var after := results[k := r];
            forall l | l in after && Attributed(after, x.c.game.round.id, l) :: ContextOk(x.c.game, x.o.catalog, l, after[l])
  {
    hide AttributionOf, RequiredBall, WinnersComplete, SnapOf, Completed, Backed, DistinctWins, Extends, MarksOk, CardsOk,
         CallsOk, DeadlineAfterCalls, WinnersOk, DrawOk, RowOk, WindowRow;
    SameContestIds(x);
    MarkEffectOk(x.g, x.o, x.limit, x.now, x.p, x.ball, x.now, x.limit, x.c);
    AttributedCompletes(x.g, x.c.game, PatternOf(x), x.p, x.ball, x.c.receipt.mark);
    var after := results[k := r];
    forall l | l in after && Attributed(after, x.c.game.round.id, l) ensures ContextOk(x.c.game, x.o.catalog, l, after[l]) {
      if l != k {
        assert Attributed(results, x.g.round.id, l);
        assert ContextOk(x.g, x.o.catalog, l, results[l]);
        CompletionPersists(x.g, x.c.game, results[l].body.progress.value.pattern, l.0);
      }
    }
  }

  lemma WinDistinct(x: Context, results: map<(Id, Id), Result>, k: (Id, Id), r: Result)
    requires Effective(x) && x.c.receipt.attribution.Some?
    requires WinsOk(x.g, results, x.o.catalog) && k !in results && k.0 == x.p
    requires OnPattern(r, PatternOf(x).id)
    ensures DistinctWins(results[k := r], x.c.game.round.id)
  {
    hide AttributionOf, RequiredBall, MarkReady, MarkEffect, SnapOf, Backed, ContextOk;
    SameContestIds(x);
    var after := results[k := r];
    forall l | Attributed(results, x.g.round.id, l) && l.0 == x.p ensures !SamePattern(results[l], r) {
      NoEarlierWin(x, results, l);
    }
    forall l, m | Attributed(after, x.g.round.id, l) && Attributed(after, x.g.round.id, m) && l.0 == m.0
      && l in after && m in after && SamePattern(after[l], after[m])
      ensures l == m
    {
      if l != k { assert Attributed(results, x.g.round.id, l); }
      if m != k { assert Attributed(results, x.g.round.id, m); }
    }
  }

  lemma WinBacked(x: Context, results: map<(Id, Id), Result>, k: (Id, Id), r: Result)
    requires Effective(x) && x.c.Marked? && x.c.receipt.attribution.Some?
    requires WinsOk(x.g, results, x.o.catalog) && k !in results && k.0 == x.p
    requires r.roundId == Some(x.g.round.id) && r.body.attribution == x.c.receipt.attribution
    requires OnPattern(r, PatternOf(x).id) && x.p in x.c.game.winners && Matches(r, x.c.game.winners[x.p])
    ensures forall p | p in x.c.game.winners :: Backed(x.c.game, results[k := r], x.o.catalog, p)
  {
    hide AttributionOf, RequiredBall, MarkReady, MarkEffect, SnapOf, ContextOk, DistinctWins, Matches, OnPattern;
    SameContestIds(x);
    var after := results[k := r];
    var g' := x.c.game;
    forall p | p in g'.winners ensures Backed(g', after, x.o.catalog, p) {
      if p == x.p {
        PatternId(x.o.catalog, x.g.round.currentPattern);
        assert BackedBy(g', after, x.o.catalog, p, k);
      } else {
        assert Backed(x.g, results, x.o.catalog, p);
        var l :| BackedBy(x.g, results, x.o.catalog, p, l);
        assert Contexts(after, x.g.round.id, p) == Contexts(results, x.g.round.id, p);
        assert BackedBy(g', after, x.o.catalog, p, l);
      }
    }
  }

  lemma PatternId(catalog: seq<Pattern>, id: Id)
    requires Known(catalog, id)
    ensures FindPattern(catalog, id).value.id == id
  {
  }

  // ---------- the history ----------

  /** Opening a window means that nobody had a winning mark yet. */
  lemma NobodyWonBefore(x: Context, log: seq<Entry>)
    requires Effective(x) && x.c.opens && LogOk(x.g, log, x.o.catalog)
    ensures forall f | f in log :: !WinningEntry(x.g, f)
  {
    hide RequiredBall, SnapOf, FirstCompletion, OnLatestCall, AttributionOf, WinnersComplete, InWindow, EntryOk, WindowRow,
         CallsOk, MarksOk, CardsOk, RowOk, DeadlineAfterCalls, DrawOk;
    SameContestIds(x);
    AttributionMatchesTrigger(x.g, x.o, x.limit, x.now, PatternOf(x), x.p, x.ball);
    forall f | f in log ensures WinningEntry(x.g, f) ==> f.participant in Achievers(x.g, log) {}
  }

  /** The history's view of a mark is the code's: it is a winning entry exactly when it was attributed. */
  lemma EntryWinsIffAttributed(x: Context)
    requires Effective(x)
    ensures WinningEntry(x.g, EntryOf(x.g, x.o, x.p, x.ball, x.now)) <==> x.c.receipt.attribution.Some?
  {
    hide RequiredBall, WinnersComplete, SnapOf, MarksOk, CardsOk, CallsOk, DeadlineAfterCalls, WinnersOk, DrawOk, RowOk,
         WindowRow, View, CalledBalls, MarkedBalls, Covers, AttributionOf, IndexOf;
    AttributionMeaning(x.g, PatternOf(x), x.p, x.ball);
    PatternId(x.o.catalog, x.g.round.currentPattern);
    CoveredCompletes(PatternOf(x));
  }

  lemma CoveredCompletes(p: Pattern)
    ensures forall m, called, marked | m in p.masks && Covers(m, called, marked) :: Completes(p, called, marked)
  {
    hide Covers;
  }

  lemma HistoryGrows(x: Context, log: seq<Entry>)
    requires Effective(x) && LogOk(x.g, log, x.o.catalog)
    ensures LogOk(x.c.game, log + [EntryOf(x.g, x.o, x.p, x.ball, x.now)], x.o.catalog)
  {
    hide RequiredBall, AttributionOf, SnapOf, FirstCompletion, OnLatestCall, MarkReady, Achievers;
    var e := EntryOf(x.g, x.o, x.p, x.ball, x.now);
    SameContestIds(x);
    EntryWinsIffAttributed(x);
    AchieversGrow(x, log, e);
    NewEntryOk(x);
    OldEntriesStay(x, log);
  }

  lemma AchieversGrow(x: Context, log: seq<Entry>, e: Entry)
    requires x.c.Marked? && x.c.game.round.id == x.g.round.id && x.c.game.round.currentPattern == x.g.round.currentPattern
    ensures Achievers(x.c.game, log + [e]) == Achievers(x.g, log) + if WinningEntry(x.g, e) then {e.participant} else {}
  {
    hide FirstCompletion, OnLatestCall;
    forall f ensures WinningEntry(x.c.game, f) <==> WinningEntry(x.g, f) {}
    forall f ensures f in log + [e] <==> f in log || f == e {}
  }

  lemma NewEntryOk(x: Context)
    requires Effective(x)
    ensures var e := EntryOf(x.g, x.o, x.p, x.ball, x.now);
            && EntryOk(x.c.game, x.o.catalog, e)
            && (x.c.receipt.attribution.Some? ==> InWindow(x.c.game, e))
  {
    hide RequiredBall, SnapOf, MarksOk, CardsOk, CallsOk, DeadlineAfterCalls, DrawOk, AttributionOf, WinnersComplete;
    PatternId(x.o.catalog, x.g.round.currentPattern);
    AttributionMeaning(x.g, PatternOf(x), x.p, x.ball);
    if x.c.receipt.attribution.Some? && !x.c.opens {
      AttributionMatchesTrigger(x.g, x.o, x.limit, x.now, PatternOf(x), x.p, x.ball);
    }
  }

  lemma InWindowFrame(g: Game, g': Game, e: Entry)
    requires InWindow(g, e) && g'.round == g.round
    ensures InWindow(g', e)
  {
  }

  lemma OldEntriesStay(x: Context, log: seq<Entry>)
    requires Effective(x) && LogOk(x.g, log, x.o.catalog)
    ensures x.g.winners.Keys == Achievers(x.g, log)
    ensures forall f | f in log :: EntryOk(x.c.game, x.o.catalog, f)
    ensures forall f | f in log && WinningEntry(x.c.game, f) :: InWindow(x.c.game, f)
  {
    hide RequiredBall, SnapOf, FirstCompletion, OnLatestCall, GameOk, AttributionOf, WinnersComplete, InWindow;
    SameContestIds(x);
    forall f | f in log ensures EntryOk(x.c.game, x.o.catalog, f) {
      assert EntryOk(x.g, x.o.catalog, f);
    }
    if x.c.opens {
      NobodyWonBefore(x, log);
    }
    forall f | f in log && WinningEntry(x.c.game, f) ensures InWindow(x.c.game, f) {
      assert WinningEntry(x.g, f);
      if !x.c.opens { InWindowFrame(x.g, x.c.game, f); }
    }
  }

  // ---------- the transaction ----------

  /** The tables after the mark of `x` was committed under `cmd`. */
  function AfterMark(db: Db, x: Context, cmd: Command): Db
    requires x.c.Marked? && x.p in x.g.cards && Known(x.o.catalog, x.g.round.currentPattern)
    requires x.c.opens ==> x.c.receipt.attribution.Some?
  {
    var entered := db.(game := Some(x.c.game), nextId := db.nextId + 1, log := db.log + [EntryOf(x.g, x.o, x.p, x.ball, x.now)]);
    var published := if !x.c.opens then entered else
      Append(entered, Some(x.g.round.id), WindowPayload(x.c.receipt.attribution.value, x.now, x.now + x.o.windowMs), x.now);
    published.(results := db.results[(x.p, cmd.id) := StoredMark(x, cmd, if x.c.opens then Some(published.lastSequence) else None)])
  }

  ghost predicate At(db: Db, x: Context, cmd: Command) {
    && Inv(db, x.o) && db.game == Some(x.g) && db.clock == x.now && db.nextId == x.limit
    && Effective(x) && cmd.action == MarkBall(x.ball) && (x.p, cmd.id) !in db.results
  }

  lemma ResultsAfterMark(db: Db, x: Context, cmd: Command)
    requires At(db, x, cmd)
    ensures x.c.Marked? && x.p in x.g.cards && Known(x.o.catalog, x.g.round.currentPattern)
    ensures x.c.opens ==> x.c.receipt.attribution.Some?
    ensures ResultsOk(AfterMark(db, x, cmd))
  {
    hide RecordOk, FormatOk, Extends, MarkEffect, MarkReady, GameOk, WinsOk, LogOk, RowsOk, AttributionOf, RequiredBall, SnapOf, StoredMark;
    SameContestIds(x);
    MarkEffectOk(x.g, x.o, x.limit, x.now, x.p, x.ball, x.now, x.limit, x.c);
    var after := AfterMark(db, x, cmd);
    var sequence := if x.c.opens then Some(after.lastSequence) else None;
    StoredMarkOk(x, cmd, sequence, after.lastSequence);
    ResultsPersist(db, x.c.game, db.status, db.nextId);
    forall k | k in after.results ensures ResultOk(after.game, k, after.results[k], after.lastSequence, after.clock) {
      if k != (x.p, cmd.id) {
        assert ResultOk(Some(x.c.game), k, db.results[k], db.lastSequence, db.clock);
        LaterSequence(Some(x.c.game), k, db.results[k], db.lastSequence, after.lastSequence, db.clock);
      }
    }
  }

  lemma LaterSequence(game: Option<Game>, k: (Id, Id), r: Result, last: nat, last': nat, clock: Time)
    requires ResultOk(game, k, r, last, clock) && last <= last'
    ensures ResultOk(game, k, r, last', clock)
  {
    hide RecordOk;
  }

  lemma WinsAfterMark(db: Db, x: Context, cmd: Command)
    requires At(db, x, cmd)
    ensures x.c.Marked? && x.p in x.g.cards && Known(x.o.catalog, x.g.round.currentPattern)
    ensures x.c.opens ==> x.c.receipt.attribution.Some?
    ensures WinsOk(x.c.game, AfterMark(db, x, cmd).results, x.o.catalog)
  {
    hide RecordOk, FormatOk, Extends, MarkEffect, MarkReady, GameOk, WinsOk, LogOk, RowsOk, AttributionOf, RequiredBall, SnapOf, ResultsOk;
    SameContestIds(x);
    MarkEffectOk(x.g, x.o, x.limit, x.now, x.p, x.ball, x.now, x.limit, x.c);
    WinsGiven(db, x.o);
    var k := (x.p, cmd.id);
    var r := AfterMark(db, x, cmd).results[k];
    StoredProgress(x);
    if x.c.receipt.attribution.Some? {
      PatternId(x.o.catalog, x.g.round.currentPattern);
      WinStored(x, db.results, k, r);
    } else {
      WellFormedCatalog(x.o);
      WinsPersist(x.g, x.c.game, db.results, x.o.catalog);
      InsertPlainWins(x.c.game, db.results, x.o.catalog, k, r);
    }
  }

  lemma WinsGiven(db: Db, o: Options)
    requires Inv(db, o) && db.game.Some?
    ensures ValidOptions(o) && WinsOk(db.game.value, db.results, o.catalog) && LogOk(db.game.value, db.log, o.catalog)
  {
    hide RowsOk, ResultsOk, WinsOk, LogOk;
  }

  lemma WellFormedCatalog(o: Options)
    requires ValidOptions(o)
    ensures forall p | p in o.catalog :: WellFormed(p)
  {
  }

  lemma StoredProgress(x: Context)
    requires Effective(x)
    ensures x.c.Marked? && x.c.receipt.progress.pattern == PatternOf(x) && x.c.receipt.cardId == x.g.cards[x.p].id
  {
    hide MarkReady, AttributionOf, RequiredBall;
  }

  lemma StatusAfterMark(db: Db, x: Context, cmd: Command)
    requires At(db, x, cmd)
    ensures x.c.Marked? && x.p in x.g.cards && Known(x.o.catalog, x.g.round.currentPattern)
    ensures x.c.opens ==> x.c.receipt.attribution.Some?
    ensures StatusOk(AfterMark(db, x, cmd)) && EventsOk(AfterMark(db, x, cmd))
  {
    hide A.Accounted, HostOk, PlayersOk, WinsOk, LogOk, GameOk, ResultsOk, WinnersComplete, Effect, StoredMark;
    SameContestIds(x);
  }

  lemma MarkKeepsInv(db: Db, x: Context, cmd: Command)
    requires At(db, x, cmd)
    ensures x.c.Marked? && x.p in x.g.cards && Known(x.o.catalog, x.g.round.currentPattern)
    ensures x.c.opens ==> x.c.receipt.attribution.Some?
    ensures Inv(AfterMark(db, x, cmd), x.o)
  {
    hide A.Accounted, HostOk, PlayersOk, WinsOk, LogOk, GameOk, ResultsOk, WinnersComplete, Effect, StatusOk, EventsOk,
         StoredMark, Extends;
    SameContestIds(x);
    MarkEffectOk(x.g, x.o, x.limit, x.now, x.p, x.ball, x.now, x.limit, x.c);
    ResultsAfterMark(db, x, cmd);
    WinsAfterMark(db, x, cmd);
    StatusAfterMark(db, x, cmd);
    HistoryGrows(x, db.log);
    GameFacts(db, x.o);
    RoundIdSmall(x.g, x.o, db.nextId, db.clock);
  }

  lemma RoundIdSmall(g: Game, o: Options, limit: Id, clock: Time)
    requires GameOk(g, o, limit, clock)
    ensures g.round.id < limit
  {
  }

  lemma MarkCommitShape(db: Db, x: Context, cmd: Command)
    requires At(db, x, cmd) && x.c == MarkCard(x.g, x.o, x.p, x.ball, x.now, x.limit)
    ensures x.c.Marked? && x.p in x.g.cards && Known(x.o.catalog, x.g.round.currentPattern)
    ensures x.c.opens ==> x.c.receipt.attribution.Some?
    ensures var m := MarkMutation(db, x.o, x.p, x.ball, x.now);
            m.Done? && var r := Commit(m.db, x.p, cmd, m.pending, x.now);
                       r.Acknowledged? && r.db == AfterMark(db, x, cmd) && !r.replay && r.occurredAt == x.now
  {
    hide Inv, Effect, MarkCard, EventsOf, EntryOf, DigestOf;
    SameContestIds(x);
    WindowPositive(x);
  }

  lemma WindowPositive(x: Context)
    requires Effective(x)
    ensures x.o.windowMs >= 1
  {
    hide MarkEffect, GameOk, WinnersComplete;
  }

  /** A mark is acknowledged exactly when it is allowed, never throws, and keeps the invariant. */
  lemma MarkOk(db: Db, o: Options, p: Id, cmd: Command, ball: nat)
    requires Inv(db, o) && db.game.Some? && cmd.action == MarkBall(ball) && (p, cmd.id) !in db.results
    ensures match MarkMutation(db, o, p, ball, db.clock)
      case Fault => false
      case Refused(after) => after == db && !MarkAllowed(db.game.value, p, ball, db.clock)
      case Done(after, pending) =>
        && MarkAllowed(db.game.value, p, ball, db.clock)
        && var r := Commit(after, p, cmd, pending, db.clock); r.Acknowledged? && Inv(r.db, o) && r.db.clock == db.clock
  {
    hide Inv, MarkCard, GameOk, WinnersComplete, MarkAllowed, AfterMark, MarkEffect, MarkMutation, Commit;
    var g := db.game.value;
    ReadyToMark(db, o);
    var x := Context(g, o, db.nextId, db.clock, p, ball, MarkCard(g, o, p, ball, db.clock, db.nextId));
    if MarkAllowed(g, p, ball, db.clock) {
      MarkCommits(g, o, db.nextId, db.clock, p, ball, db.clock, db.nextId);
      MarkKeepsInv(db, x, cmd);
      MarkCommitShape(db, x, cmd);
      AfterMarkClock(db, x, cmd);
    } else {
      RefusedMark(db, o, p, ball);
    }
  }

  lemma AfterMarkClock(db: Db, x: Context, cmd: Command)
    requires x.c.Marked? && x.p in x.g.cards && Known(x.o.catalog, x.g.round.currentPattern)
    requires x.c.opens ==> x.c.receipt.attribution.Some?
    ensures AfterMark(db, x, cmd).clock == db.clock
  {
  }

  lemma RefusedMark(db: Db, o: Options, p: Id, ball: nat)
    requires db.game.Some? && !MarkAllowed(db.game.value, p, ball, db.clock)
    ensures MarkMutation(db, o, p, ball, db.clock) == Refused(db)
  {
    hide MarkAllowed;
  }

  lemma ReadyToMark(db: Db, o: Options)
    requires Inv(db, o) && db.game.Some?
    ensures MarkReady(db.game.value, o, db.nextId, db.clock, db.clock)
  {
    hide A.Accounted, HostOk, PlayersOk, WinsOk, LogOk, GameOk, ResultsOk, WinnersComplete, EventsOk, StatusOk;
  }
}
