/** The leases that the schedulers look up: a round that should go on by itself always has one, and it does its work. */
module Leases {

  import opened Common
  import opened Rows
  import opened Games
  import opened Marks
  import opened Lobby
  import opened LobbyInv
  import opened LobbySteps
  import opened LobbyWorld
  import opened Transactions
  import opened Moves
  import opened RoundRuns
  import Cmd = Commands
  import A = Accounting

  // ---------- looking leases up ----------

  /** The lease of an active automatic round with a deadline. */
  function FindCallLease(db: Db): Option<CallLease> {
    if !db.status.LobbyActive? || db.game.None? then None else
    var r := db.game.value.round;
    if r.stage.StageActive? && r.config.Automatic? && r.nextCallAt.Some? then Some(CallLease(r.id, r.nextCallAt.value)) else None
  }

  /** The lease of an open window; a window without its closing time throws, which is not reachable. */
  function FindWindowLease(db: Db): Option<WindowLease> {
    if !db.status.LobbyActive? || db.game.None? then None else
    var r := db.game.value.round;
    if r.stage.StageWindow? && r.trigger.Some? && r.closesAt.Some? then Some(WindowLease(r.id, r.trigger.value, r.closesAt.value)) else None
  }

  /** The lease that is found is the one that holds. */
  lemma FoundLeaseHolds(db: Db, l: CallLease, w: WindowLease)
    ensures FindCallLease(db) == Some(l) <==> CallLeaseHolds(db, l)
    ensures FindWindowLease(db) == Some(w) <==> WindowLeaseHolds(db, w)
  {
  }

  // ---------- rounds that go on by themselves ----------

  /** The latest of the activation and the last call. */
  function LastAdvance(g: Game): Time {
    var active := if g.round.activeAt.Some? then g.round.activeAt.value else 0;
    var called := if LatestCall(g.calls).Some? then LatestCall(g.calls).value.calledAt else 0;
    if active < called then called else active
  }

  /** An active automatic round with balls left has a deadline, and a deadline is exactly one interval after the latest advance. */
  predicate Armed(g: Game) {
    g.round.stage.StageActive? && g.round.config.Automatic? ==>
      && (|g.calls| < BALL_COUNT ==> g.round.nextCallAt.Some?)
      && (g.round.nextCallAt.Some? ==> g.round.nextCallAt.value == LastAdvance(g) + g.round.config.seconds * 1000)
  }

  predicate CallsByItself(db: Db) {
    && db.game.Some? && db.game.value.round.stage.StageActive? && db.game.value.round.config.Automatic?
    && |db.game.value.calls| < BALL_COUNT
  }

  predicate LobbyArmed(db: Db) {
    db.game.Some? ==> Armed(db.game.value)
  }

  lemma AdvancesArePast(g: Game, o: Options, limit: Id, now: Time)
    requires Ready(g, o, limit, now)
    ensures LastAdvance(g) <= now && |g.draw| == BALL_COUNT
  {
    hide CardsOk, MarksOk, WinnersOk, DeadlineAfterCalls, WinnersComplete;
    if LatestCall(g.calls).Some? { assert g.calls[|g.calls| - 1].calledAt <= now; }
  }

  lemma CallArms(g: Game, m: Move, g': Game, o: Options, now: Time)
    requires GameMoved(g, m, g', o, now) && LastAdvance(g) <= now && |g.draw| == BALL_COUNT && (m.Drawn? || m.Disarmed?)
    ensures Armed(g')
  {
    hide FindPattern, Known, ModeOf, Decide;
  }

  lemma RowArms(g: Game, m: Move, g': Game, o: Options, now: Time)
    requires GameMoved(g, m, g', o, now) && LastAdvance(g) <= now && |g.draw| == BALL_COUNT && Armed(g)
    requires !m.MarkMade? && !m.Drawn? && !m.Disarmed?
    ensures Armed(g')
  {
    hide FindPattern, Known, ModeOf, Decide, CommitCall, MarkCard, MarkAllowed;
  }

  lemma MoveArms(g: Game, m: Move, g': Game, o: Options, limit: Id, now: Time)
    requires Ready(g, o, limit, now) && GameMoved(g, m, g', o, now) && Armed(g) && !m.MarkMade?
    ensures Armed(g')
  {
    hide Ready, GameMoved, Armed, LastAdvance;
    AdvancesArePast(g, o, limit, now);
    if m.Drawn? || m.Disarmed? { CallArms(g, m, g', o, now); } else { RowArms(g, m, g', o, now); }
  }

  lemma MarkArms(g: Game, m: Move, g': Game, o: Options, limit: Id, now: Time)
    requires Ready(g, o, limit, now) && m.MarkMade? && GameMoved(g, m, g', o, now) && Armed(g)
    ensures Armed(g')
  {
    hide Ready, GameMoved;
    MarkRow(g, m.participant, m.ball, m.id, g', o, limit, now);
  }

  lemma FreshArms(g: Option<Game>, g': Game, now: Time)
    requires IsFresh(g, g', now)
    ensures Armed(g')
  {
  }

  lemma StepArms(db: Db, o: Options, tx: Tx)
    requires Inv(db, o) && TxOk(db, tx) && Next(db, o, tx).Some? && LobbyArmed(db)
    ensures LobbyArmed(Next(db, o, tx).value)
  {
    hide Inv, Next, TxOk, GameMoved, Ready, Armed, IsFresh;
    var m := TransactionMoves(db, o, tx);
    var after := Next(db, o, tx).value;
    var now := TimeOfTx(tx, db.clock);
    if m.Fresh? {
      FreshArms(db.game, after.game.value, now);
    } else if !m.Idle? {
      StepTime(db, o, tx);
      ReadyIn(db, o, now);
      if m.MarkMade? {
        MarkArms(db.game.value, m, after.game.value, o, db.nextId, now);
      } else {
        MoveArms(db.game.value, m, after.game.value, o, db.nextId, now);
      }
    }
  }

  /** In every run an active automatic round with balls left has a lease, exactly one interval after its latest advance, and every open window has one. */
  lemma {:induction false} NoRoundIsForgotten(db: Db, o: Options, txs: seq<Tx>, states: seq<Db>)
    requires Inv(db, o) && IsRun(db, o, txs, states) && LobbyArmed(db)
    ensures LobbyArmed(states[|txs|])
    ensures CallsByItself(states[|txs|]) ==>
              states[|txs|].game.value.round.nextCallAt
              == Some(LastAdvance(states[|txs|].game.value) + states[|txs|].game.value.round.config.seconds * 1000)
    ensures var last := states[|txs|];
            && (CallsByItself(last) ==> FindCallLease(last).Some?)
            && (last.game.Some? && last.game.value.round.stage.StageWindow? ==> FindWindowLease(last).Some?)
  {
    hide Inv, TxOk, Next;
    if txs != [] {
      var n := |txs| - 1;
      assert states[..n + 1][n] == states[n];
      NoRoundIsForgotten(db, o, txs[..n], states[..n + 1]);
      EveryRunKeepsInv(db, o, txs, states);
      assert Next(states[n], o, txs[n]) == Some(states[n + 1]);
      StepArms(states[n], o, txs[n]);
    }
    LastKeepsInv(db, o, txs, states);
    StageIsActive(states[|txs|], o);
  }

  lemma StageIsActive(db: Db, o: Options)
    requires Inv(db, o)
    ensures db.game.Some? && db.game.value.round.stage in {StageActive, StageWindow} ==> db.status.LobbyActive?
    ensures db.game.Some? && db.game.value.round.stage.StageWindow? ==> db.game.value.round.trigger.Some? && db.game.value.round.closesAt.Some?
  {
    hide A.Accounted, HostOk, PlayersOk, WinsOk, LogOk, ResultsOk, WinnersComplete, DrawOk, CardsOk, CallsOk, MarksOk, WinnersOk;
  }

  /** A lease found for a window settles it as soon as the window has closed. */
  lemma FoundWindowSettles(db: Db, o: Options, l: WindowLease, now: Time)
    requires Inv(db, o) && FindWindowLease(db) == Some(l) && db.clock <= now && l.deadline <= now
    ensures var r := ExecuteSettlement(db, o, l, now);
            r.Settled? && r.db.game == Some(db.game.value.(round := SettleRow(db.game.value.round, now)))
  {
    hide Inv, Decide, SettleRow, ExecuteSettlement;
    SettlesNow(db, o, l, now);
  }

  /** A lease found for a call draws the next ball once it is due, unless somebody is missing. */
  lemma FoundCallDraws(db: Db, o: Options, l: CallLease, now: Time)
    requires Inv(db, o) && FindCallLease(db) == Some(l) && db.clock <= now && l.deadline <= now
    requires !HasBlockingPresence(Tables(db), now)
    ensures var r := ExecuteCall(db, l, now);
            if |db.game.value.calls| < BALL_COUNT
            then r.CallMade? && r.db.game.Some? && |r.db.game.value.calls| == |db.game.value.calls| + 1
            else r.CallExhausted? && FindCallLease(r.db).None?
  {
    hide Inv, HasBlockingPresence, GameOk, CommitCall;
    GameFacts(db, o);
    LaterClock(db.game.value, o, db.nextId, db.clock, db.nextId, now);
    var g := db.game.value;
    CallStep(g, o, db.nextId, now, db.nextId, now);
    CallGrows(g, now, db.nextId);
    if CommitCall(g, now, db.nextId).Called? { CallIsQuiet(g, o, db.nextId, now, now); }
  }

  lemma CallGrows(g: Game, now: Time, id: Id)
    ensures CommitCall(g, now, id).Called? ==> |CommitCall(g, now, id).game.calls| == |g.calls| + 1 && |g.calls| < BALL_COUNT
    ensures CommitCall(g, now, id).Exhausted? ==> |g.calls| == BALL_COUNT
  {
  }

  // ---------- what executing a lease does ----------

  /** The active automatic round of this deadline. */
  predicate Awaits(db: Db, l: CallLease) {
    db.game.Some? && var r := db.game.value.round;
      r.id == l.roundId && r.stage.StageActive? && r.config.Automatic? && r.nextCallAt == Some(l.deadline)
  }

  function AfterCallLease(db: Db, now: Time): Db
    requires db.game.Some? && |db.game.value.calls| < |db.game.value.draw|
  {
    var g := db.game.value;
    var n := |g.calls|;
    var call := Call(db.nextId, n + 1, g.draw[n], now);
    var next := if n + 1 == |g.draw| then None else NextAutomaticCall(g.round.config, now);
    var mid := Cmd.WithCall(db, call, next, now);
    mid.(lastSequence := db.lastSequence + 1,
         events := db.events + [Event(db.lastSequence + 1, Some(g.round.id), CallPayload(call), now)])
  }

  /** A due lease calls the next ball of the draw unless somebody is missing, and ends when none is left. */
  lemma CallLeaseMeaning(db: Db, o: Options, l: CallLease, now: Time)
    requires Inv(db, o) && db.clock <= now
    ensures var r := ExecuteCall(db, l, now);
            if !Awaits(db, l) then r.CallStale?
            else if now < l.deadline then r.CallTooEarly?
            else if Cmd.Held(Tables(db), now) then r.CallBlocked?
            else if |db.game.value.calls| < |db.game.value.draw| then r == CallMade(AfterCallLease(db, now))
            else r == CallExhausted(Cmd.WithRow(db, db.game.value.round.(nextCallAt := None), db.status, now))
  {
    hide Inv, HasBlockingPresence, Cmd.Held, GameOk;
    AccountedIn(db, o);
    A.AccountedPeople(db.world);
    Cmd.HeldIsBlocked(Tables(db), now);
    if db.game.Some? {
      GameFacts(db, o);
      LaterClock(db.game.value, o, db.nextId, db.clock, db.nextId, now);
      Cmd.DrawCovers(db.game.value, o, db.nextId, now);
      DrawnBalls(db.game.value, o, db.nextId, now);
      StageIsActive(db, o);
    }
  }

  lemma DrawnBalls(g: Game, o: Options, limit: Id, now: Time)
    requires GameOk(g, o, limit, now)
    ensures forall i | 0 <= i < |g.draw| :: 1 <= g.draw[i] <= BALL_COUNT
  {
    hide CardsOk, CallsOk, MarksOk, WinnersOk, RowOk, DeadlineAfterCalls;
  }

  predicate Settles(db: Db, l: WindowLease) {
    db.game.Some? && var r := db.game.value.round;
      r.id == l.roundId && r.stage.StageWindow? && r.trigger == Some(l.trigger) && r.closesAt == Some(l.deadline)
  }

  function AfterSettling(db: Db, l: WindowLease, now: Time): Db
    requires db.game.Some? && db.game.value.round.openedAt.Some?
  {
    var g := db.game.value;
    var result := WinnerResult(l.trigger, g.round.openedAt.value, l.deadline, now, g.winners.Keys);
    Cmd.WithRow(db, g.round.(stage := StageResult, settledAt := Some(now), nextCallAt := None), db.status, now)
      .(lastSequence := db.lastSequence + 1,
        events := db.events + [Event(db.lastSequence + 1, Some(g.round.id), ResultPayload(result), now)])
  }

  /** The lease of a closed window settles it and publishes all who won, whoever is missing. */
  lemma SettlementMeaning(db: Db, o: Options, l: WindowLease, now: Time)
    requires Inv(db, o) && db.clock <= now
    ensures Settles(db, l) ==> db.game.value.round.openedAt.Some?
    ensures var r := ExecuteSettlement(db, o, l, now);
            if !Settles(db, l) then r.SettleStale?
            else if now < l.deadline then r.SettleTooEarly?
            else r == Settled(AfterSettling(db, l, now))
  {
    hide Inv, GameOk, Decide, ValidResult;
    if db.game.Some? { StageIsActive(db, o); }
    if Settles(db, l) {
      GameFacts(db, o);
      OpenedWindow(db.game.value, o, db.nextId, db.clock);
      if l.deadline <= now { SettlesNow(db, o, l, now); }
    }
  }

  lemma OpenedWindow(g: Game, o: Options, limit: Id, now: Time)
    requires GameOk(g, o, limit, now) && g.round.stage.StageWindow?
    ensures g.round.openedAt.Some?
  {
    hide DrawOk, CardsOk, CallsOk, MarksOk, WinnersOk, DeadlineAfterCalls;
  }
}
