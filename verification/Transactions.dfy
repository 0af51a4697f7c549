/** Every transaction on a lobby keeps its invariant and none of them throws, over all runs. */
module Transactions {

  import opened Common
  import opened Rows
  import opened Games
  import opened Lobby
  import opened LobbyInv
  import opened LobbySteps
  import opened LobbyWorld
  import opened LobbyMarks
  import opened LobbyContinue
  import M = RoundMachine
  import Q = Presence
  import C = Connections

  datatype Tx =
    | CommandTx(participant: Id, session: Id, cmd: Command, env: Env)
    | CallTx(call: CallLease, now: Time)
    | SettleTx(window: WindowLease, now: Time)
    | PresenceTx(op: C.Op)

  function TimeOfTx(tx: Tx, clock: Time): Time {
    match tx
    case CommandTx(_, _, _, env) => env.now
    case CallTx(_, now) => now
    case SettleTx(_, now) => now
    case PresenceTx(op) => TimeOf(op, clock)
  }

  /** The clock does not go back, generated rounds fit, and command shapes were parsed. */
  ghost predicate TxOk(db: Db, tx: Tx) {
    && db.clock <= TimeOfTx(tx, db.clock)
    && match tx
       case CommandTx(_, _, cmd, env) =>
         DealFits(db, cmd, env) && (cmd.action.Configure? ==> ValidConfig(cmd.action.setup.config))
       case PresenceTx(op) => !op.Enroll? && !op.OverrideAbsence?
       case CallTx(_, _) => true
       case SettleTx(_, _) => true
  }

  function AfterReply(r: Reply): Option<Db> {
    match r
    case Acknowledged(db, _, _, _, _, _) => Some(db)
    case Rejected(db, _) => Some(db)
    case Failed => None
  }

  function AfterCall(r: CallOutcome, db: Db): Option<Db> {
    match r
    case CallMade(after) => Some(after)
    case CallExhausted(after) => Some(after)
    case CallFailed => None
    case CallStale => Some(db)
    case CallTooEarly => Some(db)
    case CallBlocked => Some(db)
  }

  function AfterSettlement(r: SettleOutcome, db: Db): Option<Db> {
    match r
    case Settled(after) => Some(after)
    case SettleFailed => None
    case SettleStale => Some(db)
    case SettleTooEarly => Some(db)
  }

  /** The tables after the transaction; None where it throws. */
  ghost function Next(db: Db, o: Options, tx: Tx): Option<Db> {
    match tx
    case CommandTx(p, session, cmd, env) => AfterReply(Execute(db, o, p, session, cmd, env))
    case CallTx(lease, now) => AfterCall(ExecuteCall(db, lease, now), db.(clock := now))
    case SettleTx(lease, now) => AfterSettlement(ExecuteSettlement(db, o, lease, now), db.(clock := now))
    case PresenceTx(op) => ExecutePresence(db, op)
  }

  ghost predicate Good(r: Option<Db>, o: Options, clock: Time) {
    r.Some? && Inv(r.value, o) && r.value.clock == clock
  }

  // ---------- replays ----------

  lemma ReplayOfRecord(db: Db, p: Id, cmd: Command, r: Result)
    requires db.game.Some? && RecordOk(db.game.value, (p, cmd.id), r) && r.body.intent == cmd
    requires FormatOk((p, cmd.id), r, db.lastSequence, db.clock) && r.format != 1
    ensures Replay(db, p, cmd, r) == Acknowledged(db, r.scope, r.sequence, r.createdAt, true, r.body.events)
  {
    hide CalledBalls, MarkedBalls, RequiredBall, WithinState, ProgressParses;
  }

  /** A repeated command changes nothing and returns what is stored; a reused id is refused; nothing throws. */
  lemma ReplayOk(db: Db, p: Id, cmd: Command, r: Result)
    requires ResultOk(db.game, (p, cmd.id), r, db.lastSequence, db.clock)
    ensures Replay(db, p, cmd, r)
            == if r.body.intent == cmd then Acknowledged(db, r.scope, r.sequence, r.createdAt, true, r.body.events)
               else Rejected(db, InvalidCommand)
  {
    hide RecordOk, DigestOf;
    if r.body.intent == cmd && r.roundId.Some? && r.format != 1 {
      ReplayOfRecord(db, p, cmd, r);
    }
  }

  lemma StoredResultOk(db: Db, o: Options, k: (Id, Id))
    requires Inv(db, o) && k in db.results
    ensures ResultOk(db.game, k, db.results[k], db.lastSequence, db.clock)
  {
    hide RowsOk, ResultOk, WinsOk, LogOk;
  }

  // ---------- commands ----------

  ghost predicate MutatesPlainly(db: Db, o: Options, p: Id, cmd: Command, env: Env) {
    PlainOutcome(db, Mutate(db, o, p, cmd, env), o)
  }

  ghost predicate Issued(db: Db, o: Options, p: Id, session: Id, cmd: Command, env: Env) {
    && Inv(db, o) && env.now == db.clock && Authenticated(db, p, session)
    && (!cmd.action.MarkBall? ==> Tables(db).participants[p].role.Host?)
    && DealFits(db, cmd, env) && (cmd.action.Configure? ==> ValidConfig(cmd.action.setup.config))
  }

  lemma RowCommandOk(db: Db, o: Options, p: Id, session: Id, cmd: Command, env: Env)
    requires Issued(db, o, p, session, cmd, env) && db.game.Some?
    requires cmd.action.StartRound? || cmd.action.PauseRound? || cmd.action.ResumeRound? || cmd.action.EndRound?
      || cmd.action.CallNext? || cmd.action.ContinueRound?
    ensures MutatesPlainly(db, o, p, cmd, env)
  {
    hide Inv, DealFits, RowStep, CallMutation, Continue, HasBlockingPresence, PlainOutcome, Staged, OverrideMutation, CreateMutation,
         ConfigureMutation, MarkMutation, Authenticated;
    RefusedPlainly(db, o);
    match cmd.action
    case StartRound => StartOk(db, o);
    case PauseRound => PauseOk(db, o);
    case ResumeRound => ResumeOk(db, o);
    case EndRound => EndOk(db, o);
    case CallNext => CallOk(db, o, env.now);
    case ContinueRound(pattern) => ContinueOk(db, o, pattern);
  }

  lemma OtherCommandOk(db: Db, o: Options, p: Id, session: Id, cmd: Command, env: Env)
    requires Issued(db, o, p, session, cmd, env) && !cmd.action.MarkBall?
    requires db.game.None? || cmd.action.Configure? || cmd.action.CreateRound? || cmd.action.OverrideAbsence?
    ensures MutatesPlainly(db, o, p, cmd, env)
  {
    hide Inv, RowStep, CallMutation, Continue, HasBlockingPresence, PlainOutcome, Staged, OverrideMutation, CreateMutation,
         ConfigureMutation, MarkMutation, FirstStart, WithExpiry, ValidDeal, PlayerIds, Q.LiveIds;
    RefusedPlainly(db, o);
    ActiveStays(db, o, p, session, env.now);
    match cmd.action
    case OverrideAbsence(target, number) => OverrideOk(db, o, target, number);
    case CreateRound => CreateOk(db, o, p, env);
    case Configure(setup) => ConfigureOk(db, o, setup);
    case StartRound => FirstStartOk(db, o, p, env);
    case PauseRound =>
    case ResumeRound =>
    case EndRound =>
    case CallNext =>
    case ContinueRound(pattern) =>
  }

  lemma MarkCommandOk(db: Db, o: Options, p: Id, session: Id, cmd: Command, env: Env)
    requires Issued(db, o, p, session, cmd, env) && cmd.action.MarkBall? && (p, cmd.id) !in db.results
    ensures Good(AfterReply(Execute(db, o, p, session, cmd, env)), o, env.now)
  {
    hide Inv, DealFits, PlainOutcome, Authenticated, MarkMutation, Commit, MarkAllowed, Replay;
    if db.game.Some? {
      MarkOk(db, o, p, cmd, cmd.action.ball);
    }
  }

  lemma PlainCommandOk(db: Db, o: Options, p: Id, session: Id, cmd: Command, env: Env)
    requires Issued(db, o, p, session, cmd, env) && !cmd.action.MarkBall? && (p, cmd.id) !in db.results
    requires MutatesPlainly(db, o, p, cmd, env)
    ensures Good(AfterReply(Execute(db, o, p, session, cmd, env)), o, env.now)
  {
    hide Inv, DealFits, Authenticated, Mutate, Commit, Replay, PlainPending;
    var m := Mutate(db, o, p, cmd, env);
    if m.Done? {
      CommitPlain(m.db, o, p, cmd, m.pending, env.now);
      CommitClock(m.db, p, cmd, m.pending, env.now);
    }
  }

  lemma CommitClock(db: Db, p: Id, cmd: Command, pending: Pending, now: Time)
    ensures var r := Commit(db, p, cmd, pending, now); r.Acknowledged? ==> r.db.clock == db.clock
  {
  }

  lemma CommandOk(db: Db, o: Options, p: Id, session: Id, cmd: Command, env: Env)
    requires Inv(db, o) && TxOk(db, CommandTx(p, session, cmd, env))
    ensures Good(Next(db, o, CommandTx(p, session, cmd, env)), o, env.now)
  {
    hide Inv, DealFits, Authenticated, Mutate, Commit, Replay, MutatesPlainly;
    var here := db.(clock := env.now);
    Tick(db, o, env.now);
    if Authenticated(here, p, session) {
      AuthenticatedRow(here, p, session);
      if (p, cmd.id) in here.results {
        StoredResultOk(here, o, (p, cmd.id));
        ReplayOk(here, p, cmd, here.results[(p, cmd.id)]);
      } else if cmd.action.MarkBall? || Tables(here).participants[p].role.Host? {
        DealStillFits(db, cmd, env);
        ExecuteAtClock(db, o, p, session, cmd, env);
        if cmd.action.MarkBall? {
          MarkCommandOk(here, o, p, session, cmd, env);
        } else {
          if db.game.None? || cmd.action.Configure? || cmd.action.CreateRound? || cmd.action.OverrideAbsence? {
            OtherCommandOk(here, o, p, session, cmd, env);
          } else {
            RowCommandOk(here, o, p, session, cmd, env);
          }
          PlainCommandOk(here, o, p, session, cmd, env);
        }
      }
    }
  }

  lemma AuthenticatedRow(db: Db, p: Id, session: Id)
    requires Authenticated(db, p, session)
    ensures p in Tables(db).participants
  {
  }

  lemma DealStillFits(db: Db, cmd: Command, env: Env)
    requires DealFits(db, cmd, env)
    ensures DealFits(db.(clock := env.now), cmd, env)
  {
    hide ValidDeal, PlayerIds, Q.LiveIds;
  }

  lemma ExecuteAtClock(db: Db, o: Options, p: Id, session: Id, cmd: Command, env: Env)
    ensures Execute(db.(clock := env.now), o, p, session, cmd, env) == Execute(db, o, p, session, cmd, env)
  {
    hide Authenticated, Mutate, Commit, Replay;
  }

  // ---------- leases ----------

  lemma CallTransactionOk(db: Db, o: Options, l: CallLease, now: Time)
    requires Inv(db, o) && db.clock <= now
    ensures Good(Next(db, o, CallTx(l, now)), o, now)
  {
    hide Inv, GameOk, HasBlockingPresence, CommitCall;
    var here := db.(clock := now);
    Tick(db, o, now);
    if CallLeaseHolds(here, l) {
      GameFacts(here, o);
      var g := here.game.value;
      CallStep(g, o, here.nextId, now, here.nextId, now);
      match CommitCall(g, now, here.nextId)
      case Called(game, call) =>
        CalledQuietly(here, o, now);
        AppendKeeps(here.(game := Some(game), nextId := here.nextId + 1), o, Some(g.round.id), CallPayload(call), now);
      case Exhausted => DisarmOk(here, o);
      case CallFault => assert false;
    }
  }

  lemma DisarmOk(db: Db, o: Options)
    requires Inv(db, o) && db.game.Some? && db.game.value.round.stage.StageActive?
    ensures Inv(db.(game := Some(db.game.value.(round := db.game.value.round.(nextCallAt := None)))), o)
  {
    hide Inv;
    GameFacts(db, o);
    var g := db.game.value;
    QuietKeeps(db, o, g.(round := g.round.(nextCallAt := None)), db.status, db.nextId);
  }

  lemma SettleAccepted(g: Game, o: Options, limit: Id, clock: Time)
    requires GameOk(g, o, limit, clock) && g.round.stage.StageWindow? && g.round.closesAt.Some? && g.round.closesAt.value <= clock
    ensures Decide(g.round, o.catalog, M.Settle(clock)).Accepted?
    ensures g.winners != map[] && g.round.openedAt.Some? && g.round.openedAt.value < g.round.closesAt.value
    ensures 1 <= |g.winners.Keys| <= MAX_PLAYERS
  {
    hide DrawOk, CallsOk, MarksOk, DeadlineAfterCalls, ValidCells;
    WinnerCount(g);
    assert |g.winners.Keys| == |g.winners|;
  }

  lemma SettledQuietly(db: Db, o: Options)
    requires Inv(db, o) && db.game.Some? && Decide(db.game.value.round, o.catalog, M.Settle(db.clock)).Accepted?
    ensures Inv(db.(game := Some(db.game.value.(round := SettleRow(db.game.value.round, db.clock)))), o)
  {
    hide Inv, GameOk;
    GameFacts(db, o);
    var g := db.game.value;
    SettleStep(g, o, db.nextId, db.clock, db.clock);
    QuietKeeps(db, o, g.(round := SettleRow(g.round, db.clock)), db.status, db.nextId);
  }

  lemma SettleTransactionOk(db: Db, o: Options, l: WindowLease, now: Time)
    requires Inv(db, o) && db.clock <= now
    ensures Good(Next(db, o, SettleTx(l, now)), o, now)
  {
    hide Inv, GameOk, Decide, SettleRow;
    var here := db.(clock := now);
    Tick(db, o, now);
    if WindowLeaseHolds(here, l) && l.deadline <= now {
      GameFacts(here, o);
      var g := here.game.value;
      SettleAccepted(g, o, here.nextId, now);
      SettledQuietly(here, o);
      var result := WinnerResult(l.trigger, g.round.openedAt.value, l.deadline, now, g.winners.Keys);
      AppendKeeps(here.(game := Some(g.(round := SettleRow(g.round, now)))), o, Some(g.round.id), ResultPayload(result), now);
    }
  }

  // ---------- runs ----------

  /** No transaction throws, and each one keeps the invariant. */
  lemma TransactionOk(db: Db, o: Options, tx: Tx)
    requires Inv(db, o) && TxOk(db, tx)
    ensures Good(Next(db, o, tx), o, TimeOfTx(tx, db.clock))
  {
    hide Inv, Execute, ExecuteCall, ExecuteSettlement, ExecutePresence, DealFits;
    match tx
    case CommandTx(p, session, cmd, env) => CommandOk(db, o, p, session, cmd, env);
    case CallTx(l, now) => CallTransactionOk(db, o, l, now);
    case SettleTx(l, now) => SettleTransactionOk(db, o, l, now);
    case PresenceTx(op) => PresenceTransactionOk(db, o, op);
  }

  /** A run of transactions from `db`; `states[i]` is reached by the first i of them. */
  ghost predicate IsRun(db: Db, o: Options, txs: seq<Tx>, states: seq<Db>) {
    && |states| == |txs| + 1 && states[0] == db
    && forall i | 0 <= i < |txs| :: TxOk(states[i], txs[i]) && Next(states[i], o, txs[i]) == Some(states[i + 1])
  }

  /** Every state of every run satisfies the invariant, and every run can be extended by any transaction. */
  lemma {:induction false} EveryRunKeepsInv(db: Db, o: Options, txs: seq<Tx>, states: seq<Db>)
    requires Inv(db, o) && IsRun(db, o, txs, states)
    ensures forall i | 0 <= i < |states| :: Inv(states[i], o) && db.clock <= states[i].clock
    ensures forall tx | TxOk(states[|txs|], tx) :: Next(states[|txs|], o, tx).Some?
  {
    hide Inv, TxOk, Next, Good;
    if txs != [] {
      var n := |txs| - 1;
      assert states[..n + 1][n] == states[n];
      EveryRunKeepsInv(db, o, txs[..n], states[..n + 1]);
      StepFacts(states[n], o, txs[n]);
      forall i | 0 <= i < |states| ensures Inv(states[i], o) && db.clock <= states[i].clock {
        if i < n + 1 { assert states[..n + 1][i] == states[i]; }
      }
    }
    forall tx | TxOk(states[|txs|], tx) ensures Next(states[|txs|], o, tx).Some? {
      StepFacts(states[|txs|], o, tx);
    }
  }

  lemma StepFacts(db: Db, o: Options, tx: Tx)
    requires Inv(db, o) && TxOk(db, tx)
    ensures Next(db, o, tx).Some? && Inv(Next(db, o, tx).value, o) && db.clock <= Next(db, o, tx).value.clock
  {
    hide Inv, Next, DealFits;
    TransactionOk(db, o, tx);
  }
}
