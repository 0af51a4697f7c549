/** Row steps, calls, configuration and new rounds keep the lobby invariant and never throw. */
module LobbySteps {

  import opened Common
  import opened Patterns
  import opened Rows
  import opened Games
  import opened Marks
  import opened Lobby
  import opened LobbyInv
  import M = RoundMachine
  import A = Accounting

  // ---------- appending events and plain results ----------

  lemma AppendKeeps(db: Db, o: Options, roundId: Option<Id>, payload: Payload, now: Time)
    requires Inv(db, o)
    ensures Inv(Append(db, roundId, payload, now), o)
  {
    hide A.Accounted, HostOk, WinnersComplete, PlayersOk, WinsOk, LogOk, RecordOk, GameOk;
  }

  predicate RoundIdOk(db: Db, roundId: Option<Id>) {
    roundId.Some? ==> db.game.Some? && db.game.value.round.id == roundId.value
  }

  /** A pending public event that carries no private part. */
  predicate PlainPending(db: Db, pending: Pending) {
    pending.Public? && pending.receipt.None? && ValidPayload(pending.payload) && RoundIdOk(db, pending.roundId)
  }

  lemma CommitPlain(db: Db, o: Options, p: Id, cmd: Command, pending: Pending, now: Time)
    requires Inv(db, o) && db.clock == now && PlainPending(db, pending) && (p, cmd.id) !in db.results
    ensures var r := Commit(db, p, cmd, pending, now);
            r.Acknowledged? && Inv(r.db, o)
  {
    hide A.Accounted, HostOk, RowsOk, ResultOk, RecordOk, GameOk, DigestOf, LogOk, WinsOk, ResultsOk;
    var published := Append(db, pending.roundId, pending.payload, now);
    AppendKeeps(db, o, pending.roundId, pending.payload, now);
    var row := ResultRow(p, cmd, pending, Some(published.lastSequence), now);
    PlainResultOk(published, p, cmd, pending, now);
    InsertPlain(published, o, (p, cmd.id), row);
  }

  lemma PlainResultOk(db: Db, p: Id, cmd: Command, pending: Pending, now: Time)
    requires PlainPending(db, pending) && now <= db.clock
    ensures var row := ResultRow(p, cmd, pending, Some(db.lastSequence), now);
            ResultOk(db.game, (p, cmd.id), row, db.lastSequence, db.clock) && row.body.attribution.None?
  {
  }

  /** A new result without a stored win. */
  lemma InsertPlain(db: Db, o: Options, k: (Id, Id), r: Result)
    requires Inv(db, o) && k !in db.results && r.body.attribution.None?
    requires ResultOk(db.game, k, r, db.lastSequence, db.clock)
    ensures Inv(db.(results := db.results[k := r]), o)
  {
    hide A.Accounted, HostOk, WinnersComplete, PlayersOk, LogOk, GameOk, ResultOk, WinsOk;
    if db.game.Some? {
      InsertPlainWins(db.game.value, db.results, o.catalog, k, r);
    }
  }

  lemma InsertPlainWins(g: Game, results: map<(Id, Id), Result>, catalog: seq<Pattern>, k: (Id, Id), r: Result)
    requires WinsOk(g, results, catalog) && k !in results && r.body.attribution.None?
    ensures WinsOk(g, results[k := r], catalog)
  {
    hide ContextOk, Matches, OnPattern, SamePattern;
    var after := results[k := r];
    forall l ensures Attributed(after, g.round.id, l) <==> Attributed(results, g.round.id, l) {}
    forall p ensures Contexts(after, g.round.id, p) == Contexts(results, g.round.id, p) {}
    forall p | p in g.winners ensures Backed(g, after, catalog, p) {
      assert Backed(g, results, catalog, p);
      var l :| BackedBy(g, results, catalog, p, l);
      assert BackedBy(g, after, catalog, p, l);
    }
  }

  // ---------- changing the round and keeping what refers to it ----------

  lemma RecordPersists(g: Game, g': Game, k: (Id, Id), r: Result)
    requires RecordOk(g, k, r) && Extends(g, g') && g'.round.id == g.round.id
    ensures RecordOk(g', k, r)
  {
    hide EventsAgree, ProgressParses, CalledBalls, MarkedBalls;
    BallsGrow(g, g', g.cards[k.0].id);
  }

  lemma ResultsPersist(db: Db, g': Game, status: LobbyStatus, limit: Id)
    requires ResultsOk(db) && db.game.Some? && Extends(db.game.value, g') && g'.round.id == db.game.value.round.id
    ensures ResultsOk(db.(game := Some(g'), status := status, nextId := limit))
  {
    hide RecordOk, Extends, FormatOk;
    forall k | k in db.results ensures ResultOk(Some(g'), k, db.results[k], db.lastSequence, db.clock) {
      var r := db.results[k];
      assert ResultOk(db.game, k, r, db.lastSequence, db.clock);
      if r.roundId.Some? && r.format != 1 {
        RecordPersists(db.game.value, g', k, r);
      }
    }
  }

  /** The columns that winners and history refer to. */
  predicate SameContest(r: Round, r': Round) {
    && r'.id == r.id && r'.currentPattern == r.currentPattern && r'.trigger == r.trigger
    && r'.openedAt == r.openedAt && r'.closesAt == r.closesAt
  }

  lemma WinsPersist(g: Game, g': Game, results: map<(Id, Id), Result>, catalog: seq<Pattern>)
    requires WinsOk(g, results, catalog) && Extends(g, g') && SameContest(g.round, g'.round) && g'.winners == g.winners
    requires forall p | p in catalog :: WellFormed(p)
    ensures WinsOk(g', results, catalog)
  {
    hide Completed, Extends, Matches, OnPattern, SamePattern, Contexts;
    forall k | k in results && Attributed(results, g.round.id, k) ensures ContextOk(g', catalog, k, results[k]) {
      assert ContextOk(g, catalog, k, results[k]);
      CompletionPersists(g, g', results[k].body.progress.value.pattern, k.0);
    }
    forall p | p in g'.winners ensures Backed(g', results, catalog, p) {
      assert Backed(g, results, catalog, p);
      var k :| BackedBy(g, results, catalog, p, k);
      assert BackedBy(g', results, catalog, p, k);
    }
  }

  lemma LogPersists(g: Game, g': Game, log: seq<Entry>, catalog: seq<Pattern>)
    requires LogOk(g, log, catalog) && SameContest(g.round, g'.round) && g'.winners == g.winners
    requires !g'.round.stage.StageWaiting?
    requires g'.round.stage in {StageActive, StagePaused, StageWindow} ==> !(g.round.stage in {StageResult, StageEnded})
    requires g.round.stage.StageWaiting? ==> g.winners == map[] && Known(catalog, g.round.currentPattern)
    ensures LogOk(g', log, catalog)
  {
    hide FirstCompletion, OnLatestCall;
    forall e | e in log ensures EntryOk(g', catalog, e) {
      assert EntryOk(g, catalog, e);
    }
    forall e | e in log ensures WinningEntry(g, e) <==> WinningEntry(g', e) {}
    assert Achievers(g, log) == Achievers(g', log);
    if g.round.stage.StageWaiting? {
      forall e | e in log ensures !WinningEntry(g, e) {
        assert EntryOk(g, catalog, e);
      }
    }
    forall e | e in log && WinningEntry(g', e) && g'.round.stage in {StageActive, StagePaused, StageWindow}
      ensures InWindow(g', e)
    {
      if !g.round.stage.StageWaiting? { assert WinningEntry(g, e) && InWindow(g, e); }
    }
  }

  /** A change of the round that withdraws nothing and leaves the contest alone. */
  predicate QuietChange(g: Game, g': Game) {
    && Extends(g, g') && SameContest(g.round, g'.round) && g'.winners == g.winners
    && !g'.round.stage.StageWaiting?
    && (g'.round.stage in {StageActive, StagePaused, StageWindow} ==> !(g.round.stage in {StageResult, StageEnded}))
  }

  lemma QuietKeeps(db: Db, o: Options, g': Game, status: LobbyStatus, limit: Id)
    requires Inv(db, o) && db.game.Some? && QuietChange(db.game.value, g') && db.nextId <= limit
    requires GameOk(g', o, limit, db.clock)
    requires StatusOk(db.(game := Some(g'), status := status))
    ensures Inv(db.(game := Some(g'), status := status, nextId := limit), o)
  {
    hide A.Accounted, HostOk, PlayersOk, WinsOk, LogOk, GameOk, ResultsOk, Extends, Completed, SameContest;
    var g := db.game.value;
    ContestFacts(g, o, db.nextId, db.clock, g');
    ResultsPersist(db, g', status, limit);
    WinsPersist(g, g', db.results, o.catalog);
    LogPersists(g, g', db.log, o.catalog);
    WinnersStayComplete(g, g', o.catalog);
  }

  lemma ContestFacts(g: Game, o: Options, limit: Id, clock: Time, g': Game)
    requires GameOk(g, o, limit, clock) && SameContest(g.round, g'.round) && Extends(g, g')
    ensures g.round.stage.StageWaiting? ==> g.winners == map[]
    ensures Known(o.catalog, g.round.currentPattern)
    ensures g'.round.id == g.round.id && g'.round.currentPattern == g.round.currentPattern && g'.cards == g.cards
  {
  }

  lemma WinnersStayComplete(g: Game, g': Game, catalog: seq<Pattern>)
    requires WinnersComplete(g, catalog) && Extends(g, g') && g'.winners == g.winners
    requires g'.round.currentPattern == g.round.currentPattern
    requires forall p | p in catalog :: WellFormed(p)
    ensures WinnersComplete(g', catalog)
  {
    hide Completed, Extends;
    if Known(catalog, g.round.currentPattern) {
      forall p | p in g.winners ensures Completed(g', FindPattern(catalog, g.round.currentPattern).value, p) {
        CompletionPersists(g, g', FindPattern(catalog, g.round.currentPattern).value, p);
      }
    }
  }

  // ---------- outcomes of mutations ----------

  /** Neither a throw nor a broken invariant; a committed change is a plain public event with the results' keys untouched. */
  ghost predicate PlainOutcome(db: Db, m: Mutation, o: Options) {
    match m
    case Fault => false
    case Refused(after) => Inv(after, o) && after.clock == db.clock && after.results == db.results
    case Done(after, pending) =>
      Inv(after, o) && after.clock == db.clock && after.results.Keys == db.results.Keys && PlainPending(after, pending)
  }

  lemma StagedOk(db: Db, before: Db, g: Game, o: Options)
    requires Inv(db.(game := Some(g)), o) && db.clock == before.clock && db.results.Keys == before.results.Keys
    ensures PlainOutcome(before, Staged(db, g), o)
  {
    hide A.Accounted, HostOk, PlayersOk, WinsOk, LogOk, ResultsOk, GameOk, EventsOk, StatusOk, WinnersComplete, Publish, ValidPublicRound;
    PublishesOk(g, o, db.nextId, db.clock);
  }

  lemma RowStepOk(db: Db, o: Options, c: M.Command, row: Round, status: LobbyStatus)
    requires Inv(db, o) && db.game.Some? && c.at == db.clock && !c.OpenWindow?
    requires Decide(db.game.value.round, o.catalog, c).Accepted? ==>
      && GameOk(db.game.value.(round := row), o, db.nextId, db.clock)
      && QuietChange(db.game.value, db.game.value.(round := row))
      && StatusOk(db.(game := Some(db.game.value.(round := row)), status := status))
    ensures PlainOutcome(db, RowStep(db, o, c, row, status), o)
  {
    hide A.Accounted, HostOk, PlayersOk, WinsOk, LogOk, ResultsOk, EventsOk, StatusOk, WinnersComplete,
         Publish, QuietChange, ToDomain, Staged, M.Transition;
    var g := db.game.value;
    RowDecides(g.round, o.catalog, db.clock, c);
    if Decide(g.round, o.catalog, c).Accepted? {
      QuietKeeps(db, o, g.(round := row), status, db.nextId);
      StagedOk(db.(status := status), db, g.(round := row), o);
    }
  }

  lemma StartOk(db: Db, o: Options)
    requires Inv(db, o) && db.game.Some?
    ensures PlainOutcome(db, RowStep(db, o, M.Start(db.clock), StartRow(db.game.value.round, db.clock), LobbyActive), o)
  {
    hide Inv, PlainOutcome, RowStep, GameOk;
    GameFacts(db, o);
    var g := db.game.value;
    if Decide(g.round, o.catalog, M.Start(db.clock)).Accepted? {
      StartStep(g, o, db.nextId, db.clock, db.clock);
      GameShape(g, o, db.nextId, db.clock);
    }
    RowStepOk(db, o, M.Start(db.clock), StartRow(g.round, db.clock), LobbyActive);
  }

  lemma GameFacts(db: Db, o: Options)
    requires Inv(db, o) && db.game.Some?
    ensures GameOk(db.game.value, o, db.nextId, db.clock) && StatusOk(db)
  {
    hide A.Accounted, HostOk, PlayersOk, WinsOk, LogOk, ResultsOk, GameOk;
  }

  lemma GameShape(g: Game, o: Options, limit: Id, clock: Time)
    requires GameOk(g, o, limit, clock)
    ensures StageShape(g.round, clock)
  {
  }

  lemma PauseOk(db: Db, o: Options)
    requires Inv(db, o) && db.game.Some?
    ensures PlainOutcome(db, RowStep(db, o, M.Pause(M.HostCommand, db.clock),
                                     PauseRow(db.game.value.round, M.HostCommand, db.clock), db.status), o)
  {
    hide Inv, PlainOutcome, RowStep, GameOk;
    GameFacts(db, o);
    var g := db.game.value;
    if Decide(g.round, o.catalog, M.Pause(M.HostCommand, db.clock)).Accepted? {
      PauseStep(g, o, db.nextId, db.clock, M.HostCommand, db.clock);
    }
    RowStepOk(db, o, M.Pause(M.HostCommand, db.clock), PauseRow(g.round, M.HostCommand, db.clock), db.status);
  }

  lemma ResumeOk(db: Db, o: Options)
    requires Inv(db, o) && db.game.Some?
    ensures PlainOutcome(db, RowStep(db, o, M.Resume(db.clock), ResumeRow(db.game.value.round, db.clock), db.status), o)
  {
    hide Inv, PlainOutcome, RowStep, GameOk;
    GameFacts(db, o);
    var g := db.game.value;
    if Decide(g.round, o.catalog, M.Resume(db.clock)).Accepted? {
      ResumeStep(g, o, db.nextId, db.clock, db.clock);
    }
    RowStepOk(db, o, M.Resume(db.clock), ResumeRow(g.round, db.clock), db.status);
  }

  lemma EndOk(db: Db, o: Options)
    requires Inv(db, o) && db.game.Some?
    ensures PlainOutcome(db, RowStep(db, o, M.End(db.clock), EndRow(db.game.value.round, db.clock), LobbyWaiting), o)
  {
    hide Inv, PlainOutcome, RowStep, GameOk;
    GameFacts(db, o);
    var g := db.game.value;
    if Decide(g.round, o.catalog, M.End(db.clock)).Accepted? {
      EndStep(g, o, db.nextId, db.clock, db.clock);
    }
    RowStepOk(db, o, M.End(db.clock), EndRow(g.round, db.clock), LobbyWaiting);
  }

  lemma CallOk(db: Db, o: Options, now: Time)
    requires Inv(db, o) && db.game.Some? && now == db.clock
    ensures PlainOutcome(db, CallMutation(db, now), o)
  {
    hide Inv, GameOk, CommitCall;
    GameFacts(db, o);
    var g := db.game.value;
    if g.round.stage.StageActive? {
      CallStep(g, o, db.nextId, db.clock, db.nextId, now);
      if CommitCall(g, now, db.nextId).Called? {
        CalledQuietly(db, o, now);
      }
    }
  }

  /** One call: the next draw position, announced with its number, and nothing else withdrawn. */
  lemma CalledQuietly(db: Db, o: Options, now: Time)
    requires Inv(db, o) && db.game.Some? && now == db.clock
    requires CommitCall(db.game.value, now, db.nextId).Called? && db.game.value.round.stage.StageActive?
    ensures var c := CommitCall(db.game.value, now, db.nextId);
            && Inv(db.(game := Some(c.game), nextId := db.nextId + 1), o)
            && ValidPayload(CallPayload(c.call)) && c.game.round.id == db.game.value.round.id
  {
    hide Inv, GameOk, QuietChange, CommitCall;
    GameFacts(db, o);
    var g := db.game.value;
    CallStep(g, o, db.nextId, db.clock, db.nextId, now);
    CallIsQuiet(g, o, db.nextId, db.clock, now);
    QuietKeeps(db, o, CommitCall(g, now, db.nextId).game, db.status, db.nextId + 1);
  }

  lemma CallIsQuiet(g: Game, o: Options, limit: Id, clock: Time, now: Time)
    requires GameOk(g, o, limit, clock) && CommitCall(g, now, limit).Called? && g.round.stage.StageActive?
    ensures var c := CommitCall(g, now, limit);
            && QuietChange(g, c.game) && ValidPayload(CallPayload(c.call))
            && c.game.round.id == g.round.id && c.game.round.stage == g.round.stage
  {
    hide MarksOk, CardsOk, WinnersOk, RowOk, DeadlineAfterCalls;
  }

  // ---------- configuration ----------

  lemma ConfigureOk(db: Db, o: Options, setup: Setup)
    requires Inv(db, o) && ValidConfig(setup.config)
    ensures PlainOutcome(db, ConfigureMutation(db, o, setup), o)
  {
    hide Inv, Staged;
    if db.game.None? {
      if Known(o.catalog, setup.pattern) { PendingOk(db, o, setup); }
    } else if Known(o.catalog, setup.pattern) && db.game.value.round.stage.StageWaiting? {
      ReconfigureOk(db, o, setup);
    }
  }

  lemma PendingOk(db: Db, o: Options, setup: Setup)
    requires Inv(db, o) && db.game.None? && ValidConfig(setup.config) && Known(o.catalog, setup.pattern)
    ensures Inv(db.(pending := Some(setup)), o)
  {
    hide A.Accounted, HostOk, ResultOk;
  }

  function Reconfigured(g: Game, setup: Setup): Game {
    g.(round := g.round.(initialPattern := setup.pattern, currentPattern := setup.pattern, config := setup.config))
  }

  lemma ReconfigureOk(db: Db, o: Options, setup: Setup)
    requires Inv(db, o) && db.game.Some? && db.game.value.round.stage.StageWaiting?
    requires ValidConfig(setup.config) && Known(o.catalog, setup.pattern)
    ensures PlainOutcome(db, Staged(db, Reconfigured(db.game.value, setup)), o)
  {
    hide A.Accounted, HostOk, PlayersOk, WinsOk, LogOk, GameOk, ResultsOk, EventsOk, Staged, PlainOutcome;
    var g := db.game.value;
    var g' := Reconfigured(g, setup);
    ConfigureStep(g, o, db.nextId, db.clock, setup.pattern, setup.config, db.clock);
    WaitingIsBlank(db, o);
    BlankWins(g', db.results, o.catalog);
    BlankLog(g', db.log, o.catalog);
    ReconfiguredResults(db, g');
    ReconfiguredInv(db, o, g');
    StagedOk(db, db, g', o);
  }

  predicate Blank(g: Game, results: map<(Id, Id), Result>, log: seq<Entry>) {
    && g.calls == [] && g.marks == map[] && g.winners == map[]
    && (forall k | k in results :: !Attributed(results, g.round.id, k))
    && (forall e | e in log :: e.round != g.round.id)
  }

  /** A waiting round has no call, mark, winner, stored win or history. */
  lemma WaitingIsBlank(db: Db, o: Options)
    requires Inv(db, o) && db.game.Some? && db.game.value.round.stage.StageWaiting?
    ensures Blank(db.game.value, db.results, db.log)
  {
    hide A.Accounted, HostOk, PlayersOk, WinsOk, GameOk, EventsOk, StatusOk, ResultOk, EntryOk, WinnersComplete, Attributed;
    var g := db.game.value;
    WaitingRowsBlank(g, o, db.nextId, db.clock);
    KnownPattern(g, o, db.nextId, db.clock);
    forall k | k in db.results ensures !Attributed(db.results, g.round.id, k) {
      NoWinWithoutMarks(g, db.results, k, db.lastSequence, db.clock);
    }
    forall e | e in db.log ensures e.round != g.round.id {
      NoEntryWhileWaiting(g, o, e);
    }
  }

  lemma NoWinWithoutMarks(g: Game, results: map<(Id, Id), Result>, k: (Id, Id), lastSequence: nat, clock: Time)
    requires g.marks == map[] && k in results && ResultOk(Some(g), k, results[k], lastSequence, clock)
    ensures !Attributed(results, g.round.id, k)
  {
    hide ProgressParses, EventsAgree, DigestOf;
  }

  lemma NoEntryWhileWaiting(g: Game, o: Options, e: Entry)
    requires g.round.stage.StageWaiting? && Known(o.catalog, g.round.currentPattern) && EntryOk(g, o.catalog, e)
    ensures e.round != g.round.id
  {
  }

  lemma WaitingRowsBlank(g: Game, o: Options, limit: Id, clock: Time)
    requires GameOk(g, o, limit, clock) && g.round.stage.StageWaiting?
    ensures g.calls == [] && g.marks == map[] && g.winners == map[]
  {
    assert CalledBalls(g.calls) == {};
    assert g.marks.Keys == {};
  }

  lemma BlankWins(g: Game, results: map<(Id, Id), Result>, catalog: seq<Pattern>)
    requires g.winners == map[] && forall k | k in results :: !Attributed(results, g.round.id, k)
    ensures WinsOk(g, results, catalog)
  {
  }

  lemma BlankLog(g: Game, log: seq<Entry>, catalog: seq<Pattern>)
    requires g.winners == map[] && forall e | e in log :: e.round != g.round.id
    ensures LogOk(g, log, catalog)
  {
  }

  lemma ReconfiguredResults(db: Db, g': Game)
    requires ResultsOk(db) && db.game.Some?
    requires var g := db.game.value;
             g'.cards == g.cards && g'.calls == g.calls && g'.marks == g.marks && g'.round.id == g.round.id
    ensures ResultsOk(db.(game := Some(g')))
  {
    hide RecordOk, FormatOk;
    forall k | k in db.results ensures ResultOk(Some(g'), k, db.results[k], db.lastSequence, db.clock) {
      var r := db.results[k];
      assert ResultOk(db.game, k, r, db.lastSequence, db.clock);
      if r.roundId.Some? && r.format != 1 {
        RecordPersists(db.game.value, g', k, r);
      }
    }
  }

  lemma ReconfiguredInv(db: Db, o: Options, g': Game)
    requires Inv(db, o) && db.game.Some? && g'.winners == map[] && g'.cards == db.game.value.cards
    requires g'.round.stage == db.game.value.round.stage
    requires GameOk(g', o, db.nextId, db.clock) && ResultsOk(db.(game := Some(g')))
    requires WinsOk(g', db.results, o.catalog) && LogOk(g', db.log, o.catalog)
    ensures Inv(db.(game := Some(g')), o)
  {
    hide A.Accounted, HostOk, PlayersOk, WinsOk, LogOk, GameOk, ResultsOk;
  }
}
