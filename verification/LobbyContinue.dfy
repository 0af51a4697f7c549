/** Continuing a settled round: past wins are found again without fail, and carried winners really complete the new pattern. */
module LobbyContinue {

  import opened Common
  import opened Patterns
  import opened Rows
  import opened Games
  import opened Marks
  import opened Lobby
  import opened LobbyInv
  import opened LobbySteps
  import opened LobbyMarks
  import M = RoundMachine
  import A = Accounting

  /** A reachable result stage that the machine lets continue with `pattern`. */
  ghost predicate Continuable(g: Game, results: map<(Id, Id), Result>, o: Options, limit: Id, now: Time, pattern: Id) {
    && ValidOptions(o) && GameOk(g, o, limit, now) && WinsOk(g, results, o.catalog)
    && (forall k | k in results && results[k].roundId == Some(g.round.id) :: StoredOk(g, k, results[k]))
    && Known(o.catalog, pattern) && Known(o.catalog, g.round.currentPattern)
    && Decide(g.round, o.catalog, M.Continue(ModeOf(o.catalog, pattern), now)).Accepted?
  }

  ghost predicate StoredOk(g: Game, k: (Id, Id), r: Result) {
    exists last, clock :: ResultOk(Some(g), k, r, last, clock)
  }

  lemma ContinuableHere(db: Db, o: Options, pattern: Id)
    requires Inv(db, o) && db.game.Some? && Known(o.catalog, pattern)
    requires Decide(db.game.value.round, o.catalog, M.Continue(ModeOf(o.catalog, pattern), db.clock)).Accepted?
    ensures Continuable(db.game.value, db.results, o, db.nextId, db.clock, pattern)
  {
    hide A.Accounted, HostOk, PlayersOk, WinsOk, LogOk, GameOk, ResultOk, WinnersComplete, EventsOk, StatusOk, ToDomain, M.Transition;
    KnownPattern(db.game.value, o, db.nextId, db.clock);
    forall k | k in db.results && db.results[k].roundId == Some(db.game.value.round.id)
      ensures StoredOk(db.game.value, k, db.results[k])
    {
      assert ResultOk(Some(db.game.value), k, db.results[k], db.lastSequence, db.clock);
    }
  }

  /** The modes of a continuation: One Line to Two Lines to Blackout. */
  lemma ContinuationModes(g: Game, o: Options, limit: Id, now: Time, pattern: Id)
    requires GameOk(g, o, limit, now) && Known(o.catalog, pattern) && Known(o.catalog, g.round.currentPattern)
    requires Decide(g.round, o.catalog, M.Continue(ModeOf(o.catalog, pattern), now)).Accepted?
    ensures g.round.stage.StageResult? && WindowSet(g.round, now)
    ensures var mode, mode' := ModeOf(o.catalog, g.round.currentPattern), ModeOf(o.catalog, pattern);
            (mode == OneLine && mode' == TwoLines) || (mode == TwoLines && mode' == Blackout)
  {
    hide DrawOk, CardsOk, CallsOk, MarksOk, WinnersOk, DeadlineAfterCalls;
  }

  // ---------- finding the stored win again ----------

  lemma StoredWinParses(g: Game, k: (Id, Id), r: Result)
    requires StoredOk(g, k, r) && r.roundId == Some(g.round.id) && r.body.attribution.Some?
    ensures ContextParses(k, r) && RecordOk(g, k, r)
  {
    hide CalledBalls, MarkedBalls, RequiredBall, WithinState, ProgressParses;
  }

  /** Exactly one stored win matches a standing winner, whatever else the participant won in the round. */
  lemma OneMatchingContext(g: Game, results: map<(Id, Id), Result>, o: Options, limit: Id, now: Time, pattern: Id, p: Id) returns (k: (Id, Id))
    requires Continuable(g, results, o, limit, now, pattern) && p in g.winners
    ensures BackedBy(g, results, o.catalog, p, k)
    ensures Matching(results, g, p, g.winners[p]) == {k}
  {
    hide GameOk, StoredOk, ContextOk, Matches, ToDomain, M.Transition, Decide;
    ContinuationModes(g, o, limit, now, pattern);
    assert Backed(g, results, o.catalog, p);
    k :| BackedBy(g, results, o.catalog, p, k);
    var w := g.winners[p];
    var durable := set l | l in Contexts(results, g.round.id, p) && Matches(results[l], w);
    assert k in durable;
    if Contexts(results, g.round.id, p) == {k} {
      SubsetCount(durable, {k});
    }
    if |durable| <= 1 {
      SingleElement(durable, k);
    } else {
      var narrowed := set l | l in durable && OnPattern(results[l], g.round.currentPattern);
      forall l | l in narrowed ensures l == k {
        assert Attributed(results, g.round.id, l) && Attributed(results, g.round.id, k);
        assert SamePattern(results[l], results[k]);
      }
      assert narrowed == {k};
    }
  }

  lemma SingleElement<T>(s: set<T>, x: T)
    requires x in s && |s| <= 1
    ensures s == {x}
  {
    SubsetCount({x}, s);
    if s != {x} {
      var y :| y in s && y != x;
      SubsetCount({x, y}, s);
    }
  }

  lemma HolderIsWinner(g: Game, o: Options, limit: Id, now: Time, p: Id)
    requires GameOk(g, o, limit, now) && p in g.winners
    ensures p in g.cards && WinnerCard(g, g.winners[p]) == {p}
    ensures LatestCall(g.calls).Some? && g.winners[p].trigger == LatestCall(g.calls).value.id
  {
    hide DrawOk, CallsOk, MarksOk, RowOk, DeadlineAfterCalls, ValidCells;
  }

  lemma BackingIsRecorded(g: Game, results: map<(Id, Id), Result>, o: Options, limit: Id, now: Time, pattern: Id, p: Id, k: (Id, Id))
    requires Continuable(g, results, o, limit, now, pattern) && BackedBy(g, results, o.catalog, p, k)
    ensures k in results && RecordOk(g, k, results[k]) && k.0 == p
  {
    hide GameOk, WinsOk, StoredOk, Decide, ContextParses, Matches, RecordOk, Contexts, OnPattern;
    StoredWinParses(g, k, results[k]);
  }

  /** The stored win passes every check; whether it is carried depends on attribution alone. */
  lemma RecordCarries(g: Game, k: (Id, Id), r: Result, pattern: Pattern, latest: Call)
    requires RecordOk(g, k, r)
    ensures r.body.events != [] && r.body.events[0].MarkResult? && r.body.progress.Some? && k.0 in g.cards
    ensures var s := r.body.progress.value;
            var cells := g.cards[k.0].cells;
            var index := IndexOf(cells, r.body.events[0].ball);
            && 0 <= index < CELL_COUNT
            && WithinState(s, cells, CalledBalls(g.calls), MarkedBalls(g.marks, g.cards[k.0].id))
            && CarryOn(g, pattern, r, g.cards[k.0], latest)
               == if Attributable(pattern, s.called, s.marked, s.marked[index := false], IndexOf(cells, latest.ball))
                  then Carried else Dropped
  {
    hide CalledBalls, MarkedBalls, WithinState, Attributable, ProgressParses, RequiredBall, DigestOf;
  }

  lemma AllParse(g: Game, results: map<(Id, Id), Result>, o: Options, limit: Id, now: Time, pattern: Id, p: Id)
    requires Continuable(g, results, o, limit, now, pattern)
    ensures forall k | k in Contexts(results, g.round.id, p) :: ContextParses(k, results[k])
  {
    hide GameOk, WinsOk, StoredOk, Decide, ContextParses, RecordOk;
    forall k | k in Contexts(results, g.round.id, p) ensures ContextParses(k, results[k]) {
      StoredWinParses(g, k, results[k]);
    }
  }

  /** A winner is carried exactly when the mark that won also first completed the new pattern, on the recorded cells, through the triggering call. */
  predicate WonBoth(g: Game, r: Result, p: Id, pattern: Pattern)
    requires r.body.progress.Some? && r.body.events != [] && r.body.events[0].MarkResult? && p in g.cards
  {
    var cells := g.cards[p].cells;
    var s := r.body.progress.value;
    var marked := IndexOf(cells, r.body.events[0].ball);
    LatestCall(g.calls).Some? &&
    var cell := IndexOf(cells, LatestCall(g.calls).value.ball);
    && 0 <= marked && 0 <= cell && cell != FREE_CELL
    && !Completes(pattern, s.called, s.marked[marked := false])
    && exists m | m in pattern.masks :: Covers(m, s.called, s.marked) && m[cell]
  }

  /** No winner's stored history fails, and each is carried or dropped on one criterion. */
  lemma WinnerCarries(g: Game, results: map<(Id, Id), Result>, o: Options, limit: Id, now: Time, pattern: Id, p: Id) returns (k: (Id, Id))
    requires Continuable(g, results, o, limit, now, pattern) && p in g.winners
    ensures BackedBy(g, results, o.catalog, p, k) && p in g.cards && k in results && RecordOk(g, k, results[k])
    ensures CarryWinner(g, results, FindPattern(o.catalog, pattern).value, p, g.winners[p])
            == if WonBoth(g, results[k], p, FindPattern(o.catalog, pattern).value) then Carried else Dropped
  {
    hide Continuable, Matching, Contexts, ContextParses, BackedBy, CarryOn, GameOk, WonBoth, Attributable, RecordOk;
    ContinuableFacts(g, results, o, limit, now, pattern);
    k := OneMatchingContext(g, results, o, limit, now, pattern, p);
    HolderIsWinner(g, o, limit, now, p);
    BackingIsRecorded(g, results, o, limit, now, pattern, p, k);
    RecordCarries(g, k, results[k], FindPattern(o.catalog, pattern).value, LatestCall(g.calls).value);
    AllParse(g, results, o, limit, now, pattern, p);
    MatchedIsStored(results, g, p, g.winners[p], k);
    CarryIsWonBoth(g, results[k], p, FindPattern(o.catalog, pattern).value, k);
  }

  lemma MatchedIsStored(results: map<(Id, Id), Result>, g: Game, p: Id, w: Winner, k: (Id, Id))
    requires Matching(results, g, p, w) == {k}
    ensures k in Contexts(results, g.round.id, p) && k.0 == p && results[k].body.events != [] && results[k].body.events[0].MarkResult?
  {
    assert k in Matching(results, g, p, w);
  }

  lemma ContinuableFacts(g: Game, results: map<(Id, Id), Result>, o: Options, limit: Id, now: Time, pattern: Id)
    requires Continuable(g, results, o, limit, now, pattern)
    ensures ValidOptions(o) && GameOk(g, o, limit, now) && Known(o.catalog, pattern) && Known(o.catalog, g.round.currentPattern)
    ensures Decide(g.round, o.catalog, M.Continue(ModeOf(o.catalog, pattern), now)).Accepted?
    ensures WinsOk(g, results, o.catalog)
  {
    hide GameOk, WinsOk, StoredOk, Decide;
  }

  lemma CarryIsWonBoth(g: Game, r: Result, p: Id, pattern: Pattern, k: (Id, Id))
    requires RecordOk(g, k, r) && p in g.cards && k.0 == p && LatestCall(g.calls).Some?
    requires IndexOf(g.cards[p].cells, r.body.events[0].ball) >= 0
    ensures var s := r.body.progress.value;
            var cells := g.cards[p].cells;
            Attributable(pattern, s.called, s.marked, s.marked[IndexOf(cells, r.body.events[0].ball) := false],
                         IndexOf(cells, LatestCall(g.calls).value.ball))
            <==> WonBoth(g, r, p, pattern)
  {
    hide Attributable, Completes, Covers, WithinState, ProgressParses, RequiredBall, CalledBalls, MarkedBalls, DigestOf;
    var s := r.body.progress.value;
    var cells := g.cards[p].cells;
    AttributableMeaning(pattern, s.called, s.marked, s.marked[IndexOf(cells, r.body.events[0].ball) := false],
                        IndexOf(cells, LatestCall(g.calls).value.ball));
  }

  // ---------- what carrying means for the card ----------

  /** A recorded win stays a win on the card as it is now, through the triggering call's cell. */
  lemma CarriedCompletes(g: Game, k: (Id, Id), r: Result, p: Id, pattern: Pattern)
    requires RecordOk(g, k, r) && k.0 == p && p in g.cards && WonBoth(g, r, p, pattern)
    ensures Completed(g, pattern, p)
    ensures var cells := g.cards[p].cells;
            var cell := IndexOf(cells, LatestCall(g.calls).value.ball);
            exists m | m in pattern.masks ::
              Covers(m, View(cells, CalledBalls(g.calls)), View(cells, MarkedBalls(g.marks, g.cards[p].id))) && m[cell]
  {
    hide ProgressParses, RequiredBall, CalledBalls, MarkedBalls, DigestOf, EventsAgree;
    var cells := g.cards[p].cells;
    var s := r.body.progress.value;
    var cell := IndexOf(cells, LatestCall(g.calls).value.ball);
    var m :| m in pattern.masks && Covers(m, s.called, s.marked) && m[cell];
    CoversInState(m, s, cells, CalledBalls(g.calls), MarkedBalls(g.marks, g.cards[p].id));
  }

  lemma CoversInState(m: CellSet, s: Snap, cells: Cells, called: set<nat>, marked: set<nat>)
    requires WithinState(s, cells, called, marked) && Covers(m, s.called, s.marked)
    ensures Covers(m, View(cells, called), View(cells, marked))
  {
  }

  // ---------- the continued round ----------

  function Continued(g: Game, pattern: Id, carried: set<Id>, now: Time): Game {
    g.(winners := Keep(g.winners, carried), round := ContinueRow(g.round, pattern, carried != {}, |g.calls| >= |g.draw|, now))
  }

  /** A continuation never throws: it is refused by the machine, or keeps exactly the winners of both patterns. */
  lemma ContinueCommits(g: Game, results: map<(Id, Id), Result>, o: Options, limit: Id, now: Time, pattern: Id)
    requires Continuable(g, results, o, limit, now, pattern)
    ensures Continue(g, results, o, pattern, now)
            == Changed(Continued(g, pattern, CarriedSet(g, results, FindPattern(o.catalog, pattern).value), now))
  {
    hide Continuable, CarryWinner, GameOk, Decide, WindowSet, WonBoth, RecordOk, BackedBy, ContinueRow;
    ContinuableFacts(g, results, o, limit, now, pattern);
    var definition := FindPattern(o.catalog, pattern).value;
    forall p | p in g.winners ensures CarryWinner(g, results, definition, p, g.winners[p]) != CarryFailed {
      var k := WinnerCarries(g, results, o, limit, now, pattern, p);
    }
    ContinuationModes(g, o, limit, now, pattern);
    ResultIsSet(g, now);
  }

  lemma ResultIsSet(g: Game, now: Time)
    requires WindowSet(g.round, now)
    ensures g.round.trigger.Some? && g.round.openedAt.Some? && g.round.closesAt.Some?
  {
  }

  lemma CarriedMeaning(g: Game, results: map<(Id, Id), Result>, o: Options, limit: Id, now: Time, pattern: Id, p: Id)
    requires Continuable(g, results, o, limit, now, pattern)
    requires p in CarriedSet(g, results, FindPattern(o.catalog, pattern).value)
    ensures p in g.winners && p in g.cards && Completed(g, FindPattern(o.catalog, pattern).value, p)
  {
    hide Continuable, CarryWinner, GameOk, Decide, WonBoth, RecordOk, Completed;
    var k := WinnerCarries(g, results, o, limit, now, pattern, p);
    ContinuableFacts(g, results, o, limit, now, pattern);
    CarriedCompletes(g, k, results[k], p, FindPattern(o.catalog, pattern).value);
  }

  ghost predicate Carries(g: Game, results: map<(Id, Id), Result>, o: Options, limit: Id, now: Time, pattern: Id, carried: set<Id>) {
    && Continuable(g, results, o, limit, now, pattern)
    && carried == CarriedSet(g, results, FindPattern(o.catalog, pattern).value)
  }

  lemma ContinuedGame(g: Game, results: map<(Id, Id), Result>, o: Options, limit: Id, now: Time, pattern: Id, carried: set<Id>)
    requires Carries(g, results, o, limit, now, pattern, carried)
    ensures GameOk(Continued(g, pattern, carried, now), o, limit, now)
    ensures WinnersComplete(Continued(g, pattern, carried, now), o.catalog)
    ensures Extends(g, Continued(g, pattern, carried, now))
  {
    hide Continuable, CarryWinner, GameOk, Decide, Completed, ContinueRow;
    ContinuableFacts(g, results, o, limit, now, pattern);
    ContinueStep(g, o, limit, now, pattern, carried, now);
    var g' := Continued(g, pattern, carried, now);
    ContinuedRow(g, pattern, carried, now);
    forall p | p in carried ensures Completed(g', FindPattern(o.catalog, pattern).value, p) {
      CarriedMeaning(g, results, o, limit, now, pattern, p);
      SameCompletion(g, g', FindPattern(o.catalog, pattern).value, p);
    }
  }

  lemma SameCompletion(g: Game, g': Game, pattern: Pattern, p: Id)
    requires g'.cards == g.cards && g'.calls == g.calls && g'.marks == g.marks
    ensures Completed(g', pattern, p) <==> Completed(g, pattern, p)
  {
  }

  lemma ContinuedRow(g: Game, pattern: Id, carried: set<Id>, now: Time)
    ensures var r := Continued(g, pattern, carried, now).round;
            r.id == g.round.id && r.currentPattern == pattern && r.stage == if carried != {} then StageResult else StageActive
  {
  }

  lemma ContinuedWins(g: Game, results: map<(Id, Id), Result>, o: Options, limit: Id, now: Time, pattern: Id, carried: set<Id>)
    requires Carries(g, results, o, limit, now, pattern, carried)
    ensures WinsOk(Continued(g, pattern, carried, now), results, o.catalog)
  {
    hide GameOk, Decide, Completed, ContinueRow, StoredOk, Matches, OnPattern, CarryWinner, DistinctWins;
    var g' := Continued(g, pattern, carried, now);
    ContinuationModes(g, o, limit, now, pattern);
    ContinuedRow(g, pattern, carried, now);
    forall k | k in results && Attributed(results, g'.round.id, k) ensures ContextOk(g', o.catalog, k, results[k]) {
      assert ContextOk(g, o.catalog, k, results[k]);
      SameCompletion(g, g', results[k].body.progress.value.pattern, k.0);
    }
    forall p | p in g'.winners ensures Backed(g', results, o.catalog, p) {
      WinnerStaysBacked(g, results, o, limit, now, pattern, carried, p);
    }
  }

  lemma WinnerStaysBacked(g: Game, results: map<(Id, Id), Result>, o: Options, limit: Id, now: Time, pattern: Id, carried: set<Id>, p: Id)
    requires Carries(g, results, o, limit, now, pattern, carried) && p in carried
    ensures Backed(Continued(g, pattern, carried, now), results, o.catalog, p)
  {
    hide GameOk, Decide, Completed, ContinueRow, StoredOk, Matches, CarryWinner;
    var g' := Continued(g, pattern, carried, now);
    ContinuationModes(g, o, limit, now, pattern);
    ContinuedRow(g, pattern, carried, now);
    assert Backed(g, results, o.catalog, p);
    var k :| BackedBy(g, results, o.catalog, p, k);
    if ModeOf(o.catalog, g.round.currentPattern) == OneLine {
      forall l | l in Contexts(results, g.round.id, p) ensures l == k {
        assert Attributed(results, g.round.id, l) && Attributed(results, g.round.id, k);
        assert ContextOk(g, o.catalog, l, results[l]) && ContextOk(g, o.catalog, k, results[k]);
        assert SamePattern(results[l], results[k]);
      }
      assert Contexts(results, g.round.id, p) == {k};
    }
    assert BackedBy(g', results, o.catalog, p, k);
  }

  lemma ContinuedLog(g: Game, results: map<(Id, Id), Result>, o: Options, limit: Id, now: Time, pattern: Id, carried: set<Id>, log: seq<Entry>)
    requires Carries(g, results, o, limit, now, pattern, carried) && LogOk(g, log, o.catalog)
    ensures LogOk(Continued(g, pattern, carried, now), log, o.catalog)
  {
    hide GameOk, Decide, ContinueRow, StoredOk, CarryWinner, WinsOk, FirstCompletion, OnLatestCall;
    var g' := Continued(g, pattern, carried, now);
    ContinuationModes(g, o, limit, now, pattern);
    ContinuedRow(g, pattern, carried, now);
    forall e | e in log ensures EntryOk(g', o.catalog, e) && !WinningEntry(g', e) {
      assert EntryOk(g, o.catalog, e);
      PatternId(o.catalog, pattern);
    }
    assert Achievers(g', log) == {};
    if g'.round.stage.StageActive? { assert g'.winners.Keys == {}; }
  }

  lemma ContinuedStatus(db: Db, pattern: Id, carried: set<Id>)
    requires StatusOk(db) && EventsOk(db) && db.game.Some? && db.game.value.round.stage.StageResult?
    ensures EventsOk(db.(game := Some(Continued(db.game.value, pattern, carried, db.clock))))
    ensures StatusOk(db.(game := Some(Continued(db.game.value, pattern, carried, db.clock))))
  {
  }

  lemma ContinuedInv(db: Db, o: Options, pattern: Id, carried: set<Id>)
    requires Inv(db, o) && db.game.Some?
    requires Carries(db.game.value, db.results, o, db.nextId, db.clock, pattern, carried)
    ensures Inv(db.(game := Some(Continued(db.game.value, pattern, carried, db.clock))), o)
  {
    hide A.Accounted, HostOk, PlayersOk, WinsOk, LogOk, GameOk, ResultsOk, Extends, WinnersComplete, Continued, EventsOk, StatusOk,
         Decide, StoredOk, CarriedSet;
    var g := db.game.value;
    var g' := Continued(g, pattern, carried, db.clock);
    ContinuationModes(g, o, db.nextId, db.clock, pattern);
    ContinuedGame(g, db.results, o, db.nextId, db.clock, pattern, carried);
    ContinuedWins(g, db.results, o, db.nextId, db.clock, pattern, carried);
    ContinuedLog(g, db.results, o, db.nextId, db.clock, pattern, carried, db.log);
    ContinuedStatus(db, pattern, carried);
    ContinuedRow(g, pattern, carried, db.clock);
    ResultsPersist(db, g', db.status, db.nextId);
    ExtendsCards(g, g');
  }

  lemma ExtendsCards(g: Game, g': Game)
    requires Extends(g, g')
    ensures g'.cards == g.cards
  {
  }

  ghost function ContinueMutation(db: Db, o: Options, pattern: Id): Mutation
    requires db.game.Some?
  {
    match Continue(db.game.value, db.results, o, pattern, db.clock)
    case ChangeFailed => Fault
    case ChangeRefused => Refused(db)
    case Changed(g) => Staged(db, g)
  }

  lemma ContinueOk(db: Db, o: Options, pattern: Id)
    requires Inv(db, o) && db.game.Some?
    ensures PlainOutcome(db, ContinueMutation(db, o, pattern), o)
  {
    hide Inv, GameOk, CarriedSet, CarryWinner, Staged, Continued, PlainOutcome, ToDomain, M.Transition;
    GameFacts(db, o);
    var g := db.game.value;
    if !Known(o.catalog, pattern) {
      RefusedPlainly(db, o);
    } else {
      NeverThrows(g, o, db.nextId, db.clock, pattern);
      if Decide(g.round, o.catalog, M.Continue(ModeOf(o.catalog, pattern), db.clock)).Accepted? {
        ContinuableHere(db, o, pattern);
        ContinueCommits(g, db.results, o, db.nextId, db.clock, pattern);
        var carried := CarriedSet(g, db.results, FindPattern(o.catalog, pattern).value);
        ContinuedInv(db, o, pattern, carried);
        StagedOk(db, db, Continued(g, pattern, carried, db.clock), o);
      } else {
        RefusedPlainly(db, o);
      }
    }
  }

  lemma NeverThrows(g: Game, o: Options, limit: Id, clock: Time, pattern: Id)
    requires GameOk(g, o, limit, clock) && Known(o.catalog, pattern)
    ensures Decide(g.round, o.catalog, M.Continue(ModeOf(o.catalog, pattern), clock)) != Threw
  {
    hide Decide, ModeOf, DrawOk, CardsOk, CallsOk, MarksOk, WinnersOk, DeadlineAfterCalls, RowOk, ToDomain;
    RowDecides(g.round, o.catalog, clock, M.Continue(ModeOf(o.catalog, pattern), clock));
  }

  lemma RefusedPlainly(db: Db, o: Options)
    requires Inv(db, o)
    ensures PlainOutcome(db, Refused(db), o)
  {
    hide Inv;
  }
}
