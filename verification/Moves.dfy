/** Every transaction makes at most one move of the round, and every move is a step of the machine or a listed exception. */
module Moves {

  import opened Common
  import opened Rows
  import opened Games
  import opened Marks
  import opened Lobby
  import opened LobbyInv
  import opened LobbySteps
  import opened LobbyContinue
  import opened Transactions
  import M = RoundMachine
  import C = Connections
  import A = Accounting
  import opened LobbyWorld

  datatype Move =
    | Idle
    | Fresh  // a new round replaces an ended one, or the first round starts
    | Configured(setup: Setup)
    | Stepped(command: M.Command)  // start, pause, resume, settle or end
    | Promoted  // the host's absence overwrites another pause
    | Continued(pattern: Id, carried: set<Id>)
    | Drawn(id: Id)
    | Disarmed  // no ball is left to call
    | MarkMade(participant: Id, ball: nat, id: Id)

  /** The row that the machine command leaves. */
  function RowAfter(r: Round, c: M.Command): Round {
    match c
    case Start(at) => StartRow(r, at)
    case Pause(reason, at) => PauseRow(r, reason, at)
    case Resume(at) => ResumeRow(r, at)
    case Settle(at) => SettleRow(r, at)
    case End(at) => EndRow(r, at)
    case OpenWindow(_, _) => r
    case Continue(_, _) => r
  }

  predicate IsFresh(g: Option<Game>, g': Game, now: Time) {
    && (g.Some? ==> g.value.round.stage.StageEnded? && g.value.round.id < g'.round.id)
    && g'.calls == [] && g'.marks == map[] && g'.winners == map[]
    && (|| g'.round.stage.StageWaiting?
        || (g.None? && g'.round.stage.StageActive? && g'.round.startedAt == Some(now) && g'.round.activeAt == Some(now)))
    && g'.round.createdAt == now
    && WindowUnset(g'.round)
    && g'.round.initialPattern == g'.round.currentPattern
    && g'.round.nextCallAt == if g'.round.stage.StageWaiting? then None else NextAutomaticCall(g'.round.config, now)
  }

  predicate Moved(g: Option<Game>, m: Move, g': Option<Game>, o: Options, now: Time) {
    if m.Idle? then g' == g
    else if m.Fresh? then g'.Some? && IsFresh(g, g'.value, now)
    else g.Some? && g'.Some? && GameMoved(g.value, m, g'.value, o, now)
  }

  predicate GameMoved(g: Game, m: Move, g': Game, o: Options, now: Time) {
    match m
    case Idle => false
    case Fresh => false
    case Configured(setup) => g.round.stage.StageWaiting? && g' == Reconfigured(g, setup)
    case Stepped(c) =>
      !c.OpenWindow? && !c.Continue? && c.at == now && Decide(g.round, o.catalog, c).Accepted? && g' == g.(round := RowAfter(g.round, c))
    case Promoted => g.round.stage.StagePaused? && g' == g.(round := PauseRow(g.round, M.HostAbsent, now))
    case Continued(pattern, carried) =>
      && Known(o.catalog, pattern) && carried <= g.winners.Keys
      && Decide(g.round, o.catalog, M.Continue(ModeOf(o.catalog, pattern), now)).Accepted?
      && g' == LobbyContinue.Continued(g, pattern, carried, now)
    case Drawn(id) => g.round.stage.StageActive? && CommitCall(g, now, id).Called? && g' == CommitCall(g, now, id).game
    case Disarmed =>
      g.round.stage.StageActive? && |g.calls| == BALL_COUNT && g' == g.(round := g.round.(nextCallAt := None))
    case MarkMade(p, ball, id) =>
      MarkAllowed(g, p, ball, now) && MarkCard(g, o, p, ball, now, id).Marked? && g' == MarkCard(g, o, p, ball, now, id).game
  }

  // ---------- every transaction moves ----------

  lemma CommitGame(db: Db, p: Id, cmd: Command, pending: Pending, now: Time)
    ensures var r := Commit(db, p, cmd, pending, now); !r.Rejected? && (r.Acknowledged? ==> r.db.game == db.game)
  {
  }

  lemma RowStepMoves(db: Db, o: Options, c: M.Command, status: LobbyStatus)
    requires db.game.Some? && !c.OpenWindow? && !c.Continue? && c.at == db.clock
    ensures var m := RowStep(db, o, c, RowAfter(db.game.value.round, c), status);
            && (m.Refused? ==> m.db.game == db.game)
            && (m.Done? ==> Moved(db.game, Stepped(c), m.db.game, o, db.clock))
  {
    hide RowAfter, Publish, ToDomain, M.Transition;
  }

  lemma RowCommandMoves(db: Db, o: Options, p: Id, cmd: Command, env: Env) returns (m: Move)
    requires db.game.Some? && env.now == db.clock
    requires cmd.action.StartRound? || cmd.action.PauseRound? || cmd.action.ResumeRound? || cmd.action.EndRound?
    ensures var r := Mutate(db, o, p, cmd, env);
            && (r.Refused? ==> r.db.game == db.game)
            && (r.Done? ==> Moved(db.game, m, r.db.game, o, env.now))
  {
    hide Moved, RowStep, HasBlockingPresence, Continue, MarkMutation, CreateMutation, OverrideMutation, ConfigureMutation, CallMutation;
    m := Idle;
    var now := env.now;
    match cmd.action
    case StartRound => m := Stepped(M.Start(now)); RowStepMoves(db, o, M.Start(now), LobbyActive);
    case PauseRound => m := Stepped(M.Pause(M.HostCommand, now)); RowStepMoves(db, o, M.Pause(M.HostCommand, now), db.status);
    case ResumeRound => m := Stepped(M.Resume(now)); RowStepMoves(db, o, M.Resume(now), db.status);
    case EndRound => m := Stepped(M.End(now)); RowStepMoves(db, o, M.End(now), LobbyWaiting);
    case _ =>
  }

  lemma CreateMoves(db: Db, o: Options, env: Env)
    requires Inv(db, o) && env.now == db.clock
    ensures var r := CreateMutation(db, o, env);
            && (r.Refused? ==> r.db.game == db.game)
            && (r.Done? ==> Moved(db.game, Fresh, r.db.game, o, env.now))
  {
    hide C.Do, Publish, Unlink, StripRound, A.Accounted, WinsOk, LogOk, ResultsOk, HostOk, DrawOk, CardsOk, CallsOk, MarksOk, RowOk,
         WinnersOk, DeadlineAfterCalls, WinnersComplete, PlayersOk, EventsOk, StatusOk, RoundlessOk, ModeOf, Known;
  }

  lemma FirstStartMoves(db: Db, o: Options, env: Env)
    requires db.game.None? && env.now == db.clock
    ensures var r := FirstStart(db, o, env);
            && (r.Refused? ==> r.db.game == db.game)
            && (r.Done? ==> Moved(db.game, Fresh, r.db.game, o, env.now))
  {
    hide C.Do, Publish, Known;
  }

  lemma ConfigureMoves(db: Db, o: Options, setup: Setup)
    ensures var r := ConfigureMutation(db, o, setup);
            && (r.Refused? ==> r.db.game == db.game)
            && (r.Done? ==> Moved(db.game, if db.game.None? then Idle else Configured(setup), r.db.game, o, db.clock))
  {
    hide Publish, Known;
  }

  lemma CallMoves(db: Db, o: Options, now: Time)
    requires db.game.Some?
    ensures var r := CallMutation(db, now);
            && (r.Refused? ==> r.db.game == db.game)
            && (r.Done? ==> Moved(db.game, Drawn(db.nextId), r.db.game, o, now))
  {
  }

  lemma MarkMoves(db: Db, o: Options, p: Id, ball: nat, now: Time)
    requires db.game.Some?
    ensures var r := MarkMutation(db, o, p, ball, now);
            && (r.Refused? ==> r.db.game == db.game)
            && (r.Done? ==> Moved(db.game, MarkMade(p, ball, db.nextId), r.db.game, o, now))
  {
    hide Known, MarkCard, EntryOf;
    MarkRefusal(db.game.value, o, p, ball, now, db.nextId);
  }

  lemma MarkRefusal(g: Game, o: Options, p: Id, ball: nat, now: Time, id: Id)
    ensures MarkCard(g, o, p, ball, now, id).Marked? ==> MarkAllowed(g, p, ball, now)
  {
    hide MarkAllowed, AttributionOf, SnapOf, RequiredBall, Decide, WindowRow, FindPattern;
  }

  lemma ContinueMoves(db: Db, o: Options, pattern: Id) returns (carried: set<Id>)
    requires db.game.Some?
    ensures var r := ContinueMutation(db, o, pattern);
            && (r.Refused? ==> r.db.game == db.game)
            && (r.Done? ==> Moved(db.game, Continued(pattern, carried), r.db.game, o, db.clock))
  {
    hide CarryWinner, Publish, ContinueRow, ToDomain, M.Transition;
    carried := if Known(o.catalog, pattern) then CarriedSet(db.game.value, db.results, FindPattern(o.catalog, pattern).value) else {};
  }

  lemma OverrideMoves(db: Db, o: Options, p: Id, number: nat, now: Time)
    ensures var r := OverrideMutation(db, p, number, now); !r.Fault? ==> r.db.game == db.game
  {
    hide C.Do;
  }

  lemma MutationMoves(db: Db, o: Options, p: Id, cmd: Command, env: Env) returns (m: Move)
    requires Inv(db, o) && env.now == db.clock
    ensures var r := Mutate(db, o, p, cmd, env);
            && (r.Refused? ==> r.db.game == db.game)
            && (r.Done? ==> Moved(db.game, m, r.db.game, o, env.now))
  {
    hide Moved, RowStep, HasBlockingPresence, Continue, MarkMutation, CreateMutation, OverrideMutation, ConfigureMutation, CallMutation,
         FirstStart, Inv, Staged;
    IdleMoves(db.game, o, env.now);
    m := Idle;
    match cmd.action
    case OverrideAbsence(target, number) => OverrideMoves(db, o, target, number, env.now);
    case CreateRound => m := Fresh; CreateMoves(db, o, env);
    case Configure(setup) => m := if db.game.None? then Idle else Configured(setup); ConfigureMoves(db, o, setup);
    case MarkBall(ball) =>
      if db.game.Some? { m := MarkMade(p, ball, db.nextId); MarkMoves(db, o, p, ball, env.now); }
    case CallNext =>
      if db.game.Some? { m := Drawn(db.nextId); CallMoves(db, o, env.now); }
    case ContinueRound(pattern) =>
      if db.game.Some? {
        var carried := ContinueMoves(db, o, pattern);
        m := Continued(pattern, carried);
      }
    case StartRound =>
      if db.game.None? { m := Fresh; FirstStartMoves(db, o, env); } else { m := RowCommandMoves(db, o, p, cmd, env); }
    case PauseRound => if db.game.Some? { m := RowCommandMoves(db, o, p, cmd, env); }
    case ResumeRound => if db.game.Some? { m := RowCommandMoves(db, o, p, cmd, env); }
    case EndRound => if db.game.Some? { m := RowCommandMoves(db, o, p, cmd, env); }
  }

  lemma IdleMoves(g: Option<Game>, o: Options, now: Time)
    ensures Moved(g, Idle, g, o, now)
  {
  }

  lemma ReplayGame(db: Db, p: Id, cmd: Command, r: Result)
    ensures var reply := Replay(db, p, cmd, r); AfterReply(reply).Some? ==> AfterReply(reply).value == db
  {
    hide ReplayValid, ParsePrivate, DigestOf;
  }

  lemma CommandMoves(db: Db, o: Options, tx: Tx) returns (m: Move)
    requires tx.CommandTx? && Inv(db, o) && TxOk(db, tx) && Next(db, o, tx).Some?
    ensures Moved(db.game, m, Next(db, o, tx).value.game, o, tx.env.now)
  {
    hide Moved, Mutate, Inv, DealFits, Replay, Commit, Authenticated;
    var here := db.(clock := tx.env.now);
    Tick(db, o, tx.env.now);
    IdleMoves(db.game, o, tx.env.now);
    m := Idle;
    var p, cmd, env := tx.participant, tx.cmd, tx.env;
    var reply := Execute(db, o, p, tx.session, cmd, env);
    if Authenticated(here, p, tx.session) {
      AuthenticatedRow(here, p, tx.session);
      if (p, cmd.id) in here.results {
        ReplayGame(here, p, cmd, here.results[(p, cmd.id)]);
      } else if cmd.action.MarkBall? || Tables(here).participants[p].role.Host? {
        var moved := MutationMoves(here, o, p, cmd, env);
        var r := Mutate(here, o, p, cmd, env);
        if r.Done? {
          m := moved;
          CommitGame(r.db, p, cmd, r.pending, env.now);
        }
      }
    }
  }

  lemma CallTxMoves(db: Db, o: Options, l: CallLease, now: Time) returns (m: Move)
    requires Next(db, o, CallTx(l, now)).Some?
    ensures Moved(db.game, m, Next(db, o, CallTx(l, now)).value.game, o, now)
    ensures m.Drawn? <==> ExecuteCall(db, l, now).CallMade?
  {
    hide HasBlockingPresence;
    m := match ExecuteCall(db, l, now)
         case CallMade(_) => Drawn(db.nextId)
         case CallExhausted(_) => Disarmed
         case CallStale => Idle
         case CallTooEarly => Idle
         case CallBlocked => Idle
         case CallFailed => Idle;
  }

  lemma SettleTxMoves(db: Db, o: Options, l: WindowLease, now: Time) returns (m: Move)
    requires Next(db, o, SettleTx(l, now)).Some?
    ensures Moved(db.game, m, Next(db, o, SettleTx(l, now)).value.game, o, now)
    ensures if ExecuteSettlement(db, o, l, now).Settled? then m == Stepped(M.Settle(now)) else m == Idle
  {
    hide SettleRow, ToDomain, M.Transition, ValidResult;
    m := if ExecuteSettlement(db, o, l, now).Settled? then Stepped(M.Settle(now)) else Idle;
  }

  lemma AbsenceMoves(db: Db, o: Options, p: Id) returns (m: Move)
    requires Inv(db, o) && PauseForAbsence(db, p, db.clock).Some?
    ensures Moved(db.game, m, PauseForAbsence(db, p, db.clock).value.game, o, db.clock)
  {
    hide Inv, Publish, Decide, PauseRow, GameOk;
    m := Idle;
    if db.game.Some? && ShouldPause(Tables(db), p, db.game.value.round) {
      GameFacts(db, o);
      var g := db.game.value;
      var reason := if Tables(db).participants[p].role.Host? then M.HostAbsent else M.ParticipantAbsent;
      if g.round.stage.StageActive? {
        m := Stepped(M.Pause(reason, db.clock));
        ActivePauses(g, o, db.nextId, db.clock, reason);
      } else {
        m := Promoted;
      }
    }
  }

  lemma PresenceMoves(db: Db, o: Options, op: C.Op) returns (m: Move)
    requires Inv(db, o) && TxOk(db, PresenceTx(op)) && ExecutePresence(db, op).Some?
    ensures Moved(db.game, m, ExecutePresence(db, op).value.game, o, TimeOf(op, db.clock))
  {
    hide Moved, Inv, C.Do, PauseForAbsence, Announced;
    var resolved := Resolved(db, op);
    var now := TimeOf(resolved, db.clock);
    IdleMoves(db.game, o, now);
    m := Idle;
    if resolved.GraceElapses? && Announced(db.world, resolved).Some? {
      PublishedPresence(db, o, op);
      var (p, g) := Announced(db.world, resolved).value;
      var published := Append(db.(clock := now, world := C.Do(db.world, resolved)), None, PresencePayload(p, g), now);
      m := AbsenceMoves(published, o, p);
    }
  }

  lemma PublishedPresence(db: Db, o: Options, op: C.Op)
    requires Inv(db, o) && TxOk(db, PresenceTx(op))
    ensures var resolved := Resolved(db, op);
            var now := TimeOf(resolved, db.clock);
            Announced(db.world, resolved).Some? ==>
              var (p, g) := Announced(db.world, resolved).value;
              Inv(Append(db.(clock := now, world := C.Do(db.world, resolved)), None, PresencePayload(p, g), now), o)
  {
    hide Inv, C.Do, Announced, NewcomersFit;
    var resolved := Resolved(db, op);
    var now := TimeOf(resolved, db.clock);
    Tick(db, o, now);
    var e := FitsSome(db);
    ResolvedFits(db, op, e);
    OpKeepsInv(db.(clock := now), o, resolved, e);
    if Announced(db.world, resolved).Some? {
      var (p, g) := Announced(db.world, resolved).value;
      AppendKeeps(db.(clock := now, world := C.Do(db.world, resolved)), o, None, PresencePayload(p, g), now);
    }
  }

  /** Every transaction makes exactly one of the listed moves, or leaves the round alone. */
  lemma TransactionMoves(db: Db, o: Options, tx: Tx) returns (m: Move)
    requires Inv(db, o) && TxOk(db, tx) && Next(db, o, tx).Some?
    ensures Moved(db.game, m, Next(db, o, tx).value.game, o, TimeOfTx(tx, db.clock))
  {
    hide Moved, Inv, DealFits, ExecutePresence, ExecuteCall, ExecuteSettlement, Execute;
    match tx
    case CommandTx(_, _, _, _) => m := CommandMoves(db, o, tx);
    case CallTx(l, now) => m := CallTxMoves(db, o, l, now);
    case SettleTx(l, now) => m := SettleTxMoves(db, o, l, now);
    case PresenceTx(op) => m := PresenceMoves(db, o, op);
  }
}
