/** The round over whole runs: it refines the machine, only moves forward, and fires each deadline and each window at most once. */
module RoundRuns {

  import opened Common
  import opened Patterns
  import opened Rows
  import opened Games
  import opened Marks
  import opened Lobby
  import opened LobbyInv
  import opened LobbySteps
  import LC = LobbyContinue
  import opened LobbyWorld
  import opened Transactions
  import opened Moves
  import M = RoundMachine
  import A = Accounting

  // ---------- refinement ----------

  predicate SameState(r: Round, r': Round, catalog: seq<Pattern>) {
    ToDomain(r, catalog).Some? && ToDomain(r', catalog) == ToDomain(r, catalog)
  }

  /** What a move means to the pure machine. */
  ghost predicate Refines(g: Game, m: Move, g': Game, o: Options, now: Time) {
    match m
    case Stepped(c) => Steps(g.round, c, g'.round, o.catalog)
    case Drawn(_) => SameState(g.round, g'.round, o.catalog)
    case Disarmed => SameState(g.round, g'.round, o.catalog)
    case MarkMade(_, _, _) =>
      if g'.round.stage == g.round.stage then SameState(g.round, g'.round, o.catalog)
      else Steps(g.round, M.OpenWindow(now, now + o.windowMs), g'.round, o.catalog)
    case Continued(pattern, carried) =>
      Known(o.catalog, pattern) &&
      var c := M.Continue(ModeOf(o.catalog, pattern), now);
      if carried == {} then Steps(g.round, c, g'.round, o.catalog)
      else
        // the machine would be active, the row stays in its result stage with the new pattern
        && Decide(g.round, o.catalog, c).Accepted? && ToDomain(g'.round, o.catalog).Some?
        && ToDomain(g'.round, o.catalog).value
             == M.Result(ModeOf(o.catalog, g.round.initialPattern), ModeOf(o.catalog, pattern), g.round.createdAt,
                         g.round.startedAt.value, now)
    case Promoted =>
      // the machine declines, the row is paused anew
      && Decide(g.round, o.catalog, M.Pause(M.HostAbsent, now)).Declined?
      && ToDomain(g'.round, o.catalog).Some? && ToDomain(g'.round, o.catalog).value.Paused?
      && ToDomain(g'.round, o.catalog).value.reason.HostAbsent? && ToDomain(g'.round, o.catalog).value.pausedAt == now
    case Configured(setup) =>
      Known(o.catalog, setup.pattern) ==>
        ToDomain(g'.round, o.catalog) == Some(M.NewRound(ModeOf(o.catalog, setup.pattern), g.round.createdAt))
    case Fresh => false
    case Idle => false
  }

  /** A fresh round is the machine's first state, or the very first round that state after its start. */
  predicate FreshState(g: Option<Game>, r: Round, o: Options, now: Time) {
    && Known(o.catalog, r.currentPattern) && ToDomain(r, o.catalog).Some?
    && var first := M.NewRound(ModeOf(o.catalog, r.currentPattern), now);
       || ToDomain(r, o.catalog).value == first
       || (g.None? && M.Transition(first, M.Start(now)) == M.Next(ToDomain(r, o.catalog).value))
  }

  /** What a transaction means to the pure machine. */
  ghost predicate MachineMoved(g: Option<Game>, m: Move, g': Option<Game>, o: Options, now: Time) {
    if m.Idle? then g' == g
    else if m.Fresh? then g'.Some? && FreshState(g, g'.value.round, o, now)
    else g.Some? && g'.Some? && Refines(g.value, m, g'.value, o, now)
  }

  ghost predicate Ready(g: Game, o: Options, limit: Id, now: Time) {
    ValidOptions(o) && GameOk(g, o, limit, now) && WinnersComplete(g, o.catalog)
  }

  lemma SteppedRefines(g: Game, c: M.Command, g': Game, o: Options, limit: Id, now: Time)
    requires Ready(g, o, limit, now) && GameMoved(g, Stepped(c), g', o, now)
    ensures Steps(g.round, c, g'.round, o.catalog)
  {
    hide DrawOk, CardsOk, CallsOk, MarksOk, WinnersOk, DeadlineAfterCalls, WinnersComplete;
  }

  lemma CallRefines(g: Game, m: Move, g': Game, o: Options, limit: Id, now: Time)
    requires Ready(g, o, limit, now) && (m.Drawn? || m.Disarmed?) && GameMoved(g, m, g', o, now)
    ensures SameState(g.round, g'.round, o.catalog)
  {
    hide DrawOk, CardsOk, CallsOk, MarksOk, WinnersOk, DeadlineAfterCalls, WinnersComplete;
  }

  lemma ContinueRefines(g: Game, m: Move, g': Game, o: Options, limit: Id, now: Time)
    requires Ready(g, o, limit, now) && m.Continued? && GameMoved(g, m, g', o, now)
    ensures Refines(g, m, g', o, now)
  {
    hide DrawOk, CardsOk, CallsOk, MarksOk, WinnersOk, DeadlineAfterCalls, WinnersComplete;
  }

  /** A mark that opens a window leaves the window row, any other leaves the row as it is. */
  lemma MarkRow(g: Game, p: Id, ball: nat, id: Id, g': Game, o: Options, limit: Id, now: Time)
    requires Ready(g, o, limit, now) && GameMoved(g, MarkMade(p, ball, id), g', o, now)
    ensures g'.round == g.round
      || ((g.round.stage.StageActive? || g.round.stage.StagePaused?)
          && LatestCall(g.calls).Some? && g'.round == WindowRow(g.round, LatestCall(g.calls).value.id, now, now + o.windowMs))
    ensures g'.cards == g.cards && g'.calls == g.calls
    ensures Extends(g, g')
  {
    hide GameOk, WinnersComplete, AttributionOf, RequiredBall, SnapOf, WindowRow, MarkCard, Extends;
    MarkCommits(g, o, limit, now, p, ball, now, id);
    MarkedExtends(g, g', KeyOf(g, p, ball), MarkCard(g, o, p, ball, now, id).receipt.mark);
    AttributionMeaning(g, FindPattern(o.catalog, g.round.currentPattern).value, p, ball);
  }

  lemma MarkedExtends(g: Game, g': Game, key: (Id, nat), mark: Mark)
    requires g'.cards == g.cards && g'.calls == g.calls && g'.marks == g.marks[key := mark]
    requires key in g.marks ==> mark == g.marks[key]
    ensures Extends(g, g')
  {
  }

  lemma MarkRefines(g: Game, m: Move, g': Game, o: Options, limit: Id, now: Time)
    requires Ready(g, o, limit, now) && m.MarkMade? && GameMoved(g, m, g', o, now)
    ensures Refines(g, m, g', o, now)
  {
    hide DrawOk, CardsOk, CallsOk, MarksOk, WinnersOk, DeadlineAfterCalls, WinnersComplete, MarkCard, Extends, MarkAllowed;
    MarkRow(g, m.participant, m.ball, m.id, g', o, limit, now);
    if g'.round != g.round {
      OpenStep(g.round, o.catalog, now, LatestCall(g.calls).value.id, now, now + o.windowMs);
    }
  }

  lemma OtherRefines(g: Game, m: Move, g': Game, o: Options, limit: Id, now: Time)
    requires Ready(g, o, limit, now) && (m.Promoted? || m.Configured?) && GameMoved(g, m, g', o, now)
    ensures Refines(g, m, g', o, now)
  {
    hide DrawOk, CardsOk, CallsOk, MarksOk, WinnersOk, DeadlineAfterCalls, WinnersComplete;
  }

  lemma MoveRefines(g: Game, m: Move, g': Game, o: Options, limit: Id, now: Time)
    requires Ready(g, o, limit, now) && GameMoved(g, m, g', o, now)
    ensures Refines(g, m, g', o, now)
  {
    hide Ready, GameMoved, SameState, Steps, ToDomain, Decide;
    match m
    case Stepped(c) => SteppedRefines(g, c, g', o, limit, now);
    case Drawn(_) => CallRefines(g, m, g', o, limit, now);
    case Disarmed => CallRefines(g, m, g', o, limit, now);
    case MarkMade(_, _, _) => MarkRefines(g, m, g', o, limit, now);
    case Continued(_, _) => ContinueRefines(g, m, g', o, limit, now);
    case Promoted => OtherRefines(g, m, g', o, limit, now);
    case Configured(_) => OtherRefines(g, m, g', o, limit, now);
    case Fresh => NoOtherMove(g, m, g', o, now);
    case Idle => NoOtherMove(g, m, g', o, now);
  }

  lemma NoOtherMove(g: Game, m: Move, g': Game, o: Options, now: Time)
    requires m.Fresh? || m.Idle?
    ensures !GameMoved(g, m, g', o, now)
  {
  }

  lemma FreshRefines(g: Option<Game>, g': Game, o: Options, limit: Id, now: Time)
    requires IsFresh(g, g', now) && Ready(g', o, limit, now)
    ensures FreshState(g, g'.round, o, now)
  {
    hide DrawOk, CardsOk, CallsOk, MarksOk, WinnersOk, DeadlineAfterCalls, WinnersComplete;
  }

  lemma ReadyIn(db: Db, o: Options, now: Time)
    requires Inv(db, o) && db.game.Some? && db.clock <= now
    ensures Ready(db.game.value, o, db.nextId, now)
  {
    hide A.Accounted, HostOk, PlayersOk, WinsOk, LogOk, GameOk, ResultsOk, WinnersComplete, EventsOk, StatusOk;
    LaterClock(db.game.value, o, db.nextId, db.clock, db.nextId, now);
  }

  /**
   * Every transaction of every kind is one step of the machine, leaves the machine's state, begins a new round in the
   * machine's first state, or is one of the two listed exceptions.
   */
  lemma TransactionRefines(db: Db, o: Options, tx: Tx) returns (m: Move)
    requires Inv(db, o) && TxOk(db, tx)
    ensures Next(db, o, tx).Some?
    ensures MachineMoved(db.game, m, Next(db, o, tx).value.game, o, TimeOfTx(tx, db.clock))
  {
    hide Inv, Next, TxOk, Ready, GameMoved, IsFresh, FreshState, Refines;
    StepFacts(db, o, tx);
    var after := Next(db, o, tx).value;
    var now := TimeOfTx(tx, db.clock);
    m := TransactionMoves(db, o, tx);
    TransactionClock(db, o, tx);
    if m.Fresh? {
      ReadyIn(after, o, now);
      FreshRefines(db.game, after.game.value, o, after.nextId, now);
    } else if !m.Idle? {
      ReadyIn(db, o, now);
      MoveRefines(db.game.value, m, after.game.value, o, db.nextId, now);
    }
  }

  lemma TransactionClock(db: Db, o: Options, tx: Tx)
    requires Inv(db, o) && TxOk(db, tx)
    ensures db.clock <= TimeOfTx(tx, db.clock) && Next(db, o, tx).Some? && Next(db, o, tx).value.clock == TimeOfTx(tx, db.clock)
  {
    hide Inv, Next, DealFits;
    TransactionOk(db, o, tx);
  }

  // ---------- only forward ----------

  function Rank(g: Game, o: Options): nat {
    if Known(o.catalog, g.round.currentPattern) then M.ModeRank(ModeOf(o.catalog, g.round.currentPattern)) else 0
  }

  predicate Won(s: Stage) {
    s in {StageWindow, StageResult, StageEnded}
  }

  function Progressed(g: Game, o: Options): nat {
    2 * Rank(g, o) + if Won(g.round.stage) then 1 else 0
  }

  /** Nothing is withdrawn, and a started round goes on through its patterns, each of which is won at most once. */
  predicate Onward(g: Game, g': Game, o: Options) {
    && Extends(g, g')
    && (!g.round.stage.StageWaiting? ==>
          && !g'.round.stage.StageWaiting?
          && Rank(g, o) <= Rank(g', o)
          && Progressed(g, o) <= Progressed(g', o)
          && g'.round.initialPattern == g.round.initialPattern)
  }

  /** A round is only ever replaced by one with a higher id. */
  predicate Later(g: Option<Game>, g': Option<Game>, o: Options) {
    g.Some? ==>
      && g'.Some?
      && (g.value.round.id < g'.value.round.id || (g.value.round.id == g'.value.round.id && Onward(g.value, g'.value, o)))
  }

  lemma LaterTransitive(a: Option<Game>, b: Option<Game>, c: Option<Game>, o: Options)
    requires Later(a, b, o) && Later(b, c, o)
    ensures Later(a, c, o)
  {
    hide Rank;
    if a.Some? && a.value.round.id == b.value.round.id == c.value.round.id {
      forall k | k in a.value.marks ensures k in c.value.marks && c.value.marks[k] == a.value.marks[k] {
        assert k in b.value.marks;
      }
    }
  }

  predicate PatternStep(g: Game, g': Game, o: Options) {
    !g.round.stage.StageWaiting? ==>
      Rank(g', o) == Rank(g, o) + if g'.round.currentPattern != g.round.currentPattern then 1 else 0
  }

  lemma RowMovesOnward(g: Game, m: Move, g': Game, o: Options, limit: Id, now: Time)
    requires Ready(g, o, limit, now) && GameMoved(g, m, g', o, now)
    requires !m.MarkMade? && !m.Continued?
    ensures Onward(g, g', o) && g'.round.id == g.round.id && PatternStep(g, g', o)
  {
    hide DrawOk, CardsOk, CallsOk, MarksOk, WinnersOk, DeadlineAfterCalls, WinnersComplete, FindPattern, DeadlineOk, Known, ModeOf;
  }

  lemma ContinueMovesOnward(g: Game, m: Move, g': Game, o: Options, limit: Id, now: Time)
    requires Ready(g, o, limit, now) && m.Continued? && GameMoved(g, m, g', o, now)
    ensures Onward(g, g', o) && g'.round.id == g.round.id && PatternStep(g, g', o)
    ensures g'.round.currentPattern != g.round.currentPattern
  {
    hide GameOk, WinnersComplete, Decide;
    KnownPattern(g, o, limit, now);
    LC.ContinuationModes(g, o, limit, now, m.pattern);
  }

  lemma MarkMovesOnward(g: Game, m: Move, g': Game, o: Options, limit: Id, now: Time)
    requires Ready(g, o, limit, now) && m.MarkMade? && GameMoved(g, m, g', o, now)
    ensures Onward(g, g', o) && g'.round.id == g.round.id && PatternStep(g, g', o)
  {
    hide GameOk, WinnersComplete, MarkCard, Extends;
    MarkRow(g, m.participant, m.ball, m.id, g', o, limit, now);
  }

  lemma GameMovesOnward(g: Game, m: Move, g': Game, o: Options, limit: Id, now: Time)
    requires Ready(g, o, limit, now) && GameMoved(g, m, g', o, now)
    ensures Onward(g, g', o) && g'.round.id == g.round.id && PatternStep(g, g', o)
  {
    hide Ready, GameMoved, Onward, PatternStep;
    if m.MarkMade? { MarkMovesOnward(g, m, g', o, limit, now); }
    else if m.Continued? { ContinueMovesOnward(g, m, g', o, limit, now); }
    else { RowMovesOnward(g, m, g', o, limit, now); }
  }

  lemma OnwardReflexive(g: Game, o: Options)
    ensures Onward(g, g, o) && PatternStep(g, g, o)
  {
  }

  lemma StepLater(db: Db, o: Options, tx: Tx)
    requires Inv(db, o) && TxOk(db, tx) && Next(db, o, tx).Some?
    ensures var g' := Next(db, o, tx).value.game;
            && Later(db.game, g', o)
            && (db.game.Some? && g'.value.round.id == db.game.value.round.id ==> PatternStep(db.game.value, g'.value, o))
  {
    hide Inv, Next, DealFits, GameMoved, Onward, PatternStep, Ready;
    var m := TransactionMoves(db, o, tx);
    if db.game.Some? {
      var now := TimeOfTx(tx, db.clock);
      ReadyIn(db, o, now);
      OnwardReflexive(db.game.value, o);
      if !m.Idle? && !m.Fresh? {
        GameMovesOnward(db.game.value, m, Next(db, o, tx).value.game.value, o, db.nextId, now);
      }
    }
  }

  /** In every run, later rounds have higher ids and a round only grows and goes onward. */
  lemma {:induction false} RunLater(db: Db, o: Options, txs: seq<Tx>, states: seq<Db>, i: nat, j: nat)
    requires Inv(db, o) && IsRun(db, o, txs, states) && i <= j < |states|
    ensures Later(states[i].game, states[j].game, o)
  {
    hide Inv, Next, TxOk, Later;
    if i == j {
      LaterReflexive(states[i].game, o);
    } else {
      RunLater(db, o, txs, states, i, j - 1);
      EveryRunKeepsInv(db, o, txs, states);
      assert Next(states[j - 1], o, txs[j - 1]) == Some(states[j]);
      StepLater(states[j - 1], o, txs[j - 1]);
      LaterTransitive(states[i].game, states[j - 1].game, states[j].game, o);
    }
  }

  lemma LaterReflexive(g: Option<Game>, o: Options)
    ensures Later(g, g, o)
  {
  }

  predicate SameRound(a: Db, b: Db) {
    a.game.Some? && b.game.Some? && a.game.value.round.id == b.game.value.round.id
  }

  /** The transaction from `a` to `b` opened a window. */
  predicate Opened(a: Db, b: Db) {
    SameRound(a, b) && !Won(a.game.value.round.stage) && b.game.value.round.stage.StageWindow?
  }

  predicate PatternChanged(a: Db, b: Db) {
    SameRound(a, b) && !a.game.value.round.stage.StageWaiting? && a.game.value.round.currentPattern != b.game.value.round.currentPattern
  }

  /** A round opens at most one window per pattern. */
  lemma OneWindowPerPattern(db: Db, o: Options, txs: seq<Tx>, states: seq<Db>, i: nat, j: nat)
    requires Inv(db, o) && IsRun(db, o, txs, states) && i < j < |txs|
    requires Opened(states[i], states[i + 1]) && Opened(states[j], states[j + 1]) && SameRound(states[i], states[j])
    ensures states[i + 1].game.value.round.currentPattern != states[j + 1].game.value.round.currentPattern
  {
    hide Inv, Next, TxOk, Extends;
    RunLater(db, o, txs, states, i + 1, j);
    RunLater(db, o, txs, states, j, j + 1);
  }

  function PatternChanges(states: seq<Db>): nat {
    if |states| < 2 then 0
    else PatternChanges(states[..|states| - 1]) + if PatternChanged(states[|states| - 2], states[|states| - 1]) then 1 else 0
  }

  /** A started round is continued at most twice, and each time the rank of its pattern goes up by one. */
  lemma {:induction false} AtMostTwoContinues(db: Db, o: Options, txs: seq<Tx>, states: seq<Db>)
    requires Inv(db, o) && IsRun(db, o, txs, states)
    requires SameRound(db, states[|txs|]) && !db.game.value.round.stage.StageWaiting?
    ensures PatternChanges(states) == Rank(states[|txs|].game.value, o) - Rank(db.game.value, o)
    ensures PatternChanges(states) <= 2
  {
    hide Inv, Next, TxOk, Extends, Rank;
    if txs != [] {
      var n := |txs| - 1;
      RunLater(db, o, txs, states, 0, n);
      RunLater(db, o, txs, states, n, n + 1);
      assert states[..n + 1][n] == states[n];
      AtMostTwoContinues(db, o, txs[..n], states[..n + 1]);
      EveryRunKeepsInv(db, o, txs, states);
      StepLater(states[n], o, txs[n]);
      assert states[..|states| - 1] == states[..n + 1];
    }
    RankBound(states[|txs|].game.value, o);
  }

  lemma RankBound(g: Game, o: Options)
    ensures Rank(g, o) <= 2
  {
  }

  // ---------- deadlines ----------

  /** A deadline is kept, or cleared, or armed at least five seconds ahead. */
  predicate Rearmed(g: Option<Game>, g': Option<Game>, now: Time) {
    g'.Some? && g'.value.round.nextCallAt.Some? ==>
      || (g.Some? && g.value.round.id == g'.value.round.id && g.value.round.nextCallAt == g'.value.round.nextCallAt)
      || g'.value.round.nextCallAt.value >= now + 5000
  }

  lemma RowRearms(g: Game, m: Move, g': Game, o: Options, limit: Id, now: Time)
    requires Ready(g, o, limit, now) && GameMoved(g, m, g', o, now) && !m.MarkMade?
    ensures Rearmed(Some(g), Some(g'), now)
  {
    hide DrawOk, CardsOk, CallsOk, MarksOk, WinnersOk, DeadlineAfterCalls, WinnersComplete, FindPattern, Known, ModeOf, Decide;
  }

  lemma GameRearms(g: Game, m: Move, g': Game, o: Options, limit: Id, now: Time)
    requires Ready(g, o, limit, now) && GameMoved(g, m, g', o, now)
    ensures Rearmed(Some(g), Some(g'), now)
  {
    hide Ready, GameMoved;
    if m.MarkMade? { MarkRow(g, m.participant, m.ball, m.id, g', o, limit, now); } else { RowRearms(g, m, g', o, limit, now); }
  }

  lemma FreshRearms(g: Option<Game>, g': Game, o: Options, limit: Id, now: Time)
    requires IsFresh(g, g', now) && Ready(g', o, limit, now)
    ensures Rearmed(g, Some(g'), now)
  {
    hide DrawOk, CardsOk, CallsOk, MarksOk, WinnersOk, DeadlineAfterCalls, WinnersComplete, FindPattern, Known, ModeOf, StageShape;
  }

  lemma StepRearms(db: Db, o: Options, tx: Tx)
    requires Inv(db, o) && TxOk(db, tx) && Next(db, o, tx).Some?
    ensures Rearmed(db.game, Next(db, o, tx).value.game, TimeOfTx(tx, db.clock))
  {
    hide Inv, Next, DealFits, GameMoved, Ready, Rearmed, IsFresh;
    var m := TransactionMoves(db, o, tx);
    var now := TimeOfTx(tx, db.clock);
    var after := Next(db, o, tx).value;
    TransactionOk(db, o, tx);
    if m.Fresh? {
      ReadyIn(after, o, now);
      FreshRearms(db.game, after.game.value, o, after.nextId, now);
    } else if m.Idle? {
      SameRearms(db.game, now);
    } else {
      ReadyIn(db, o, now);
      GameRearms(db.game.value, m, after.game.value, o, db.nextId, now);
    }
  }

  lemma SameRearms(g: Option<Game>, now: Time)
    ensures Rearmed(g, g, now)
  {
  }

  /** The lease can never fire again. */
  predicate Spent(db: Db, l: CallLease) {
    && l.deadline <= db.clock && db.game.Some?
    && var r := db.game.value.round;
       l.roundId < r.id || (l.roundId == r.id && (r.nextCallAt.Some? ==> l.deadline < r.nextCallAt.value))
  }

  lemma SpentStays(db: Db, o: Options, tx: Tx, l: CallLease)
    requires Inv(db, o) && TxOk(db, tx) && Next(db, o, tx).Some? && Spent(db, l)
    ensures Spent(Next(db, o, tx).value, l)
  {
    hide Inv, Next, DealFits, Onward, PatternStep;
    StepRearms(db, o, tx);
    StepLater(db, o, tx);
    TransactionOk(db, o, tx);
  }

  /** A ball called by a lease spends it. */
  lemma CallSpends(db: Db, o: Options, l: CallLease, now: Time)
    requires Inv(db, o) && db.clock <= now && ExecuteCall(db, l, now).CallMade?
    ensures Spent(ExecuteCall(db, l, now).db, l)
  {
    hide A.Accounted, HostOk, PlayersOk, WinsOk, LogOk, ResultsOk, WinnersComplete, HasBlockingPresence, DrawOk, CallsOk, MarksOk,
         CardsOk, WinnersOk, DeadlineAfterCalls;
  }

  /** However often and however late a lease is executed, its (round, deadline) yields at most one ball. */
  lemma {:induction false} OneBallPerDeadline(db: Db, o: Options, l: CallLease, now: Time, txs: seq<Tx>, states: seq<Db>, later: Time)
    requires Inv(db, o) && db.clock <= now && ExecuteCall(db, l, now).CallMade?
    requires IsRun(ExecuteCall(db, l, now).db, o, txs, states)
    ensures !ExecuteCall(states[|txs|], l, later).CallMade?
  {
    hide Inv, TxOk, Next, ExecuteCall, Spent;
    CallSpends(db, o, l, now);
    CallTransactionOk(db, o, l, now);
    AfterCallIsNext(db, o, l, now);
    StaysSpent(ExecuteCall(db, l, now).db, o, l, txs, states);
    SpentIsStale(states[|txs|], l, later);
  }

  lemma AfterCallIsNext(db: Db, o: Options, l: CallLease, now: Time)
    requires ExecuteCall(db, l, now).CallMade?
    ensures Next(db, o, CallTx(l, now)) == Some(ExecuteCall(db, l, now).db)
  {
    hide ExecuteCall;
  }

  lemma {:induction false} StaysSpent(db: Db, o: Options, l: CallLease, txs: seq<Tx>, states: seq<Db>)
    requires Inv(db, o) && IsRun(db, o, txs, states) && Spent(db, l)
    ensures Spent(states[|txs|], l)
  {
    hide Inv, TxOk, Next, Spent;
    if txs != [] {
      var n := |txs| - 1;
      assert states[..n + 1][n] == states[n];
      StaysSpent(db, o, l, txs[..n], states[..n + 1]);
      EveryRunKeepsInv(db, o, txs, states);
      assert Next(states[n], o, txs[n]) == Some(states[n + 1]);
      SpentStays(states[n], o, txs[n], l);
    }
  }

  lemma SpentIsStale(db: Db, l: CallLease, now: Time)
    requires Spent(db, l)
    ensures ExecuteCall(db, l, now) == CallStale
  {
  }

  lemma ArmedIsSpaced(g: Game, o: Options, limit: Id, clock: Time, id: Id, now: Time)
    requires GameOk(g, o, limit, clock) && g.round.stage.StageActive? && g.round.config.Automatic?
    requires g.round.nextCallAt.Some? && g.round.nextCallAt.value <= now
    ensures var ms := g.round.config.seconds * 1000;
            && (g.round.activeAt.Some? && now >= g.round.activeAt.value + ms)
            && (forall i | 0 <= i < |g.calls| :: now >= g.calls[i].calledAt + ms)
    ensures var c := CommitCall(g, now, id);
            |g.draw| == BALL_COUNT && (c.Called? ==>
              |g.calls| < BALL_COUNT && c.game.calls == g.calls + [Call(id, |g.calls| + 1, g.draw[|g.calls|], now)])
  {
    hide MarksOk, CardsOk, WinnersOk, CallsOk;
  }

  lemma CallMadeShape(db: Db, l: CallLease, now: Time)
    requires ExecuteCall(db, l, now).CallMade?
    ensures db.game.Some? && CallLeaseHolds(db, l) && l.deadline <= now
    ensures var c := CommitCall(db.game.value, now, db.nextId);
            c.Called? && ExecuteCall(db, l, now).db.game == Some(c.game)
  {
    hide HasBlockingPresence, CommitCall, ValidPayload;
  }

  /** An automatic call comes a full interval after the latest start, resume, continue and call, and is the next ball of the draw. */
  lemma AutomaticCallsAreSpaced(db: Db, o: Options, l: CallLease, now: Time, after: Db)
    requires Inv(db, o) && ExecuteCall(db, l, now) == CallMade(after)
    ensures db.game.Some? && db.game.value.round.config.Automatic? && after.game.Some?
    ensures var g := db.game.value;
            var ms := g.round.config.seconds * 1000;
            && (g.round.activeAt.Some? && now >= g.round.activeAt.value + ms)
            && (forall i | 0 <= i < |g.calls| :: now >= g.calls[i].calledAt + ms)
            && |g.calls| < BALL_COUNT && |g.draw| == BALL_COUNT
            && after.game.value.calls == g.calls + [Call(db.nextId, |g.calls| + 1, g.draw[|g.calls|], now)]
  {
    hide Inv, ExecuteCall, GameOk, CommitCall;
    CallMadeShape(db, l, now);
    GameFacts(db, o);
    ArmedIsSpaced(db.game.value, o, db.nextId, db.clock, db.nextId, now);
  }

  // ---------- settlement ----------

  /** A window that has closed only waits for its settlement. */
  predicate ClosedWindow(db: Db) {
    db.game.Some? && db.game.value.round.stage.StageWindow? && db.game.value.round.closesAt.Some?
    && db.game.value.round.closesAt.value <= db.clock
  }

  lemma ClosedMoves(g: Game, m: Move, g': Game, o: Options, limit: Id, now: Time)
    requires Ready(g, o, limit, now) && GameMoved(g, m, g', o, now)
    requires g.round.stage.StageWindow? && g.round.closesAt.Some? && g.round.closesAt.value <= now
    ensures m == Stepped(M.Settle(now)) && g' == g.(round := SettleRow(g.round, now))
  {
    hide DrawOk, CardsOk, CallsOk, MarksOk, WinnersOk, DeadlineAfterCalls, WinnersComplete, FindPattern, MarkCard, SettleRow;
  }

  lemma ClosedStep(db: Db, o: Options, tx: Tx)
    requires Inv(db, o) && TxOk(db, tx) && Next(db, o, tx).Some?
    requires db.game.Some? && db.game.value.round.stage.StageWindow? && db.game.value.round.closesAt.Some?
    requires db.game.value.round.closesAt.value <= TimeOfTx(tx, db.clock)
    ensures var g := db.game.value;
            var now := TimeOfTx(tx, db.clock);
            var g' := Next(db, o, tx).value.game;
            g' == Some(g) || g' == Some(g.(round := SettleRow(g.round, now)))
  {
    hide Inv, Next, DealFits, GameMoved, Ready, SettleRow;
    var m := TransactionMoves(db, o, tx);
    var now := TimeOfTx(tx, db.clock);
    ReadyIn(db, o, now);
    if m.Fresh? {
    } else if !m.Idle? {
      ClosedMoves(db.game.value, m, Next(db, o, tx).value.game.value, o, db.nextId, now);
    }
  }

  /** Until it is settled, a closed window keeps its round exactly, whatever else happens. */
  lemma {:induction false} ClosedWindowStands(db: Db, o: Options, txs: seq<Tx>, states: seq<Db>)
    requires Inv(db, o) && IsRun(db, o, txs, states) && ClosedWindow(db)
    requires forall i | 0 <= i < |states| :: states[i].game.Some? && states[i].game.value.round.stage.StageWindow?
    ensures states[|txs|].game == db.game && db.clock <= states[|txs|].clock
  {
    hide Inv, TxOk, Next;
    if txs != [] {
      var n := |txs| - 1;
      forall i | 0 <= i < |states[..n + 1]| ensures states[..n + 1][i] == states[i] {}
      ClosedWindowStands(db, o, txs[..n], states[..n + 1]);
      EveryRunKeepsInv(db, o, txs, states);
      StepTime(states[n], o, txs[n]);
      ClosedStep(states[n], o, txs[n]);
    }
  }

  lemma StepTime(db: Db, o: Options, tx: Tx)
    requires Inv(db, o) && TxOk(db, tx)
    ensures db.clock <= TimeOfTx(tx, db.clock) && Next(db, o, tx).Some? && Next(db, o, tx).value.clock == TimeOfTx(tx, db.clock)
  {
    hide Inv, Next, DealFits;
    TransactionOk(db, o, tx);
  }

  /** The settled winners: everyone whose first completing mark of the pattern contained the triggering call and came before the window closed. */
  lemma SettledAreAchievers(db: Db, o: Options, l: WindowLease, now: Time)
    requires Inv(db, o) && db.clock <= now && ExecuteSettlement(db, o, l, now).Settled?
    ensures db.game.Some?
    ensures var g := db.game.value;
            var after := ExecuteSettlement(db, o, l, now).db;
            && g.winners.Keys == Achievers(g, db.log)
            && after.game == Some(g.(round := SettleRow(g.round, now)))
            && after.events == db.events + [Event(db.lastSequence + 1, Some(g.round.id), ResultPayload(
                 WinnerResult(l.trigger, g.round.openedAt.value, l.deadline, now, Achievers(g, db.log))), now)]
            && (forall e | e in db.log && WinningEntry(g, e) :: g.round.openedAt.value <= e.at < l.deadline <= now)
            && LatestCall(g.calls).Some? && LatestCall(g.calls).value.id == l.trigger
            && (forall p | p in g.winners :: g.winners[p].trigger == l.trigger)
  {
    hide A.Accounted, HostOk, PlayersOk, WinsOk, ResultsOk, WinnersComplete, DrawOk, CallsOk, MarksOk, RowOk, CardsOk,
         DeadlineAfterCalls, FirstCompletion, OnLatestCall, SettleRow, ToDomain, M.Transition;
  }

  /** Any settlement of a closed window, however late and after whatever else, has the same winners. */
  lemma SettlementIsScheduleIndependent(
      db: Db, o: Options, txs: seq<Tx>, states: seq<Db>, l: WindowLease, now: Time, now': Time, first: Db) returns (late: Db)
    requires Inv(db, o) && IsRun(db, o, txs, states) && ClosedWindow(db) && |states| == |txs| + 1
    requires forall i | 0 <= i < |states| :: states[i].game.Some? && states[i].game.value.round.stage.StageWindow?
    requires db.clock <= now && states[|txs|].clock <= now'
    requires ExecuteSettlement(db, o, l, now) == Settled(first)
    ensures ExecuteSettlement(states[|txs|], o, l, now') == Settled(late)
    ensures first.game.Some? && late.game.Some? && late.game.value.winners == first.game.value.winners
    ensures late.game.value.winners.Keys == Achievers(db.game.value, db.log)
  {
    hide Inv, IsRun, Achievers, ExecuteSettlement, LatestCall, WinningEntry;
    ClosedWindowStands(db, o, txs, states);
    LastKeepsInv(db, o, txs, states);
    LeaseHeld(db, o, l, now);
    SettlesNow(states[|txs|], o, l, now');
    SettledAreAchievers(db, o, l, now);
    late := ExecuteSettlement(states[|txs|], o, l, now').db;
  }

  lemma LastKeepsInv(db: Db, o: Options, txs: seq<Tx>, states: seq<Db>)
    requires Inv(db, o) && IsRun(db, o, txs, states)
    ensures |states| == |txs| + 1 && Inv(states[|txs|], o)
  {
    hide Inv, TxOk, Next;
    EveryRunKeepsInv(db, o, txs, states);
  }

  lemma LeaseHeld(db: Db, o: Options, l: WindowLease, now: Time)
    requires ExecuteSettlement(db, o, l, now).Settled?
    ensures db.game.Some? && l.deadline <= now
    ensures var r := db.game.value.round;
            r.id == l.roundId && r.stage.StageWindow? && r.trigger == Some(l.trigger) && r.closesAt == Some(l.deadline)
  {
    hide Decide, SettleRow;
  }

  lemma SettlesNow(db: Db, o: Options, l: WindowLease, now: Time)
    requires Inv(db, o) && db.clock <= now && db.game.Some?
    requires var r := db.game.value.round;
             r.id == l.roundId && r.stage.StageWindow? && r.trigger == Some(l.trigger) && r.closesAt == Some(l.deadline)
             && l.deadline <= now
    ensures var r := ExecuteSettlement(db, o, l, now);
            r.Settled? && r.db.game == Some(db.game.value.(round := SettleRow(db.game.value.round, now)))
  {
    hide Inv, GameOk, Decide, SettleRow;
    GameFacts(db, o);
    LaterClock(db.game.value, o, db.nextId, db.clock, db.nextId, now);
    SettleAccepted(db.game.value, o, db.nextId, now);
  }
}
