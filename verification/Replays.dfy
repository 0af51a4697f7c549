/** Command results over whole runs: a repeated command is answered exactly as the first time. */
module Replays {

  import opened Common
  import opened Rows
  import opened Games
  import opened Marks
  import opened Lobby
  import opened LobbyInv
  import opened LobbyWorld
  import opened Transactions
  import opened RoundRuns
  import M = RoundMachine
  import P = People
  import Q = Presence
  import C = Connections
  import A = Accounting

  /** A result is kept as it is, or, once its round is gone, without what refers to that round. */
  predicate Recalls(r: Result, r': Result, game: Option<Game>) {
    && (r' == r || r' == Strip(r))
    && (r.roundId.None? || (game.Some? && game.value.round.id == r.roundId.value) ==> r' == r)
  }

  predicate AllRecalled(a: map<(Id, Id), Result>, b: map<(Id, Id), Result>, game: Option<Game>) {
    forall k | k in a :: k in b && Recalls(a[k], b[k], game)
  }

  // ---------- one transaction ----------

  lemma CreateRecalls(db: Db, o: Options, env: Env)
    requires Inv(db, o)
    ensures var m := CreateMutation(db, o, env);
            && (m.Refused? ==> m.db.results == db.results)
            && (m.Done? ==> AllRecalled(db.results, m.db.results, m.db.game))
  {
    hide C.Do, Publish, Unlink, A.Accounted, WinsOk, LogOk, ResultsOk, HostOk, DrawOk, CardsOk, CallsOk, MarksOk, RowOk,
         WinnersOk, DeadlineAfterCalls, WinnersComplete, PlayersOk, EventsOk, StatusOk, RoundlessOk, ModeOf, Known, Strip;
  }

  lemma RowStepResults(db: Db, o: Options, c: M.Command, row: Round, status: LobbyStatus)
    requires db.game.Some?
    ensures var m := RowStep(db, o, c, row, status); !m.Fault? ==> m.db.results == db.results
  {
    hide Decide, Publish;
  }

  lemma OtherResults(db: Db, o: Options, p: Id, cmd: Command, env: Env)
    requires !cmd.action.CreateRound? && !cmd.action.MarkBall? && env.now == db.clock
    ensures var m := Mutate(db, o, p, cmd, env); !m.Fault? ==> m.db.results == db.results
  {
    hide HasBlockingPresence, Publish, C.Do, RowStep, Decide, CommitCall, CarryWinner, Known, Q.Overridable, P.Current, CarriedSet,
         StartRow, PauseRow, ResumeRow, EndRow, ValidConfig, PlayerIds, FindPattern;
    if db.game.Some? {
      RowStepResults(db, o, M.Start(db.clock), StartRow(db.game.value.round, db.clock), LobbyActive);
      RowStepResults(db, o, M.Pause(M.HostCommand, db.clock), PauseRow(db.game.value.round, M.HostCommand, db.clock), db.status);
      RowStepResults(db, o, M.Resume(db.clock), ResumeRow(db.game.value.round, db.clock), db.status);
      RowStepResults(db, o, M.End(db.clock), EndRow(db.game.value.round, db.clock), LobbyWaiting);
    }
  }

  lemma MarkResults(db: Db, o: Options, p: Id, ball: nat, now: Time)
    requires db.game.Some?
    ensures var m := MarkMutation(db, o, p, ball, now); !m.Fault? ==> m.db.results == db.results
  {
    hide MarkCard, EntryOf, Known;
  }

  lemma SameRecalled(a: map<(Id, Id), Result>, game: Option<Game>)
    ensures AllRecalled(a, a, game)
  {
  }

  lemma MutationRecalls(db: Db, o: Options, p: Id, cmd: Command, env: Env)
    requires Inv(db, o) && env.now == db.clock
    ensures var m := Mutate(db, o, p, cmd, env);
            && (m.Refused? ==> m.db.results == db.results)
            && (m.Done? ==> AllRecalled(db.results, m.db.results, m.db.game))
  {
    hide Inv, CreateMutation, MarkMutation, Continue, FirstStart, RowStep, OverrideMutation, ConfigureMutation, CallMutation, Staged,
         HasBlockingPresence, AllRecalled;
    if cmd.action.CreateRound? {
      CreateRecalls(db, o, env);
    } else {
      if cmd.action.MarkBall? {
        if db.game.Some? { MarkResults(db, o, p, cmd.action.ball, env.now); }
      } else {
        OtherResults(db, o, p, cmd, env);
      }
      var m := Mutate(db, o, p, cmd, env);
      if m.Done? { SameRecalled(db.results, m.db.game); }
    }
  }

  lemma CommitRecalls(db: Db, p: Id, cmd: Command, pending: Pending, now: Time, before: map<(Id, Id), Result>)
    requires AllRecalled(before, db.results, db.game) && (p, cmd.id) !in before
    ensures var r := Commit(db, p, cmd, pending, now);
            !r.Rejected? && (r.Acknowledged? ==> AllRecalled(before, r.db.results, r.db.game))
  {
    hide Recalls;
  }

  lemma CommandRecalls(db: Db, o: Options, tx: Tx)
    requires tx.CommandTx? && Inv(db, o) && TxOk(db, tx) && Next(db, o, tx).Some?
    ensures AllRecalled(db.results, Next(db, o, tx).value.results, Next(db, o, tx).value.game)
  {
    hide Mutate, Inv, DealFits, Replay, Commit, Authenticated, AllRecalled;
    var now := tx.env.now;
    var here := db.(clock := now);
    Tick(db, o, now);
    var p, cmd, env := tx.participant, tx.cmd, tx.env;
    SameRecalled(db.results, db.game);
    if Authenticated(here, p, tx.session) {
      AuthenticatedRow(here, p, tx.session);
      if (p, cmd.id) in here.results {
        StoredResultOk(here, o, (p, cmd.id));
        ReplayOk(here, p, cmd, here.results[(p, cmd.id)]);
      } else if cmd.action.MarkBall? || Tables(here).participants[p].role.Host? {
        MutationRecalls(here, o, p, cmd, env);
        var m := Mutate(here, o, p, cmd, env);
        if m.Done? {
          CommitRecalls(m.db, p, cmd, m.pending, now, db.results);
        } else if m.Refused? {
          SameRecalled(db.results, m.db.game);
        }
      }
    }
  }

  lemma LeaseResults(db: Db, o: Options, tx: Tx)
    requires (tx.CallTx? || tx.SettleTx?) && Next(db, o, tx).Some?
    ensures Next(db, o, tx).value.results == db.results
  {
    hide HasBlockingPresence, CommitCall, Decide, ValidPayload, ValidResult;
  }

  lemma PresenceResults(db: Db, o: Options, op: C.Op)
    requires ExecutePresence(db, op).Some?
    ensures ExecutePresence(db, op).value.results == db.results
  {
    hide C.Do, Announced, ShouldPause, Publish;
  }

  lemma StepRecalls(db: Db, o: Options, tx: Tx)
    requires Inv(db, o) && TxOk(db, tx) && Next(db, o, tx).Some?
    ensures AllRecalled(db.results, Next(db, o, tx).value.results, Next(db, o, tx).value.game)
  {
    hide Inv, DealFits, AllRecalled, Execute, ExecuteCall, ExecuteSettlement, ExecutePresence;
    var after := Next(db, o, tx).value;
    SameRecalled(db.results, after.game);
    match tx
    case CommandTx(_, _, _, _) => CommandRecalls(db, o, tx);
    case CallTx(_, _) => LeaseResults(db, o, tx);
    case SettleTx(_, _) => LeaseResults(db, o, tx);
    case PresenceTx(op) => PresenceResults(db, o, op);
  }

  // ---------- runs ----------

  /** In every run, every stored result is remembered. */
  lemma {:induction false} RunRecalls(db: Db, o: Options, txs: seq<Tx>, states: seq<Db>)
    requires Inv(db, o) && IsRun(db, o, txs, states)
    ensures AllRecalled(db.results, states[|txs|].results, states[|txs|].game)
  {
    hide Inv, TxOk, Next, AllRecalled;
    if txs == [] {
      SameRecalled(db.results, db.game);
    } else {
      var n := |txs| - 1;
      assert states[..n + 1][n] == states[n];
      RunRecalls(db, o, txs[..n], states[..n + 1]);
      EveryRunKeepsInv(db, o, txs, states);
      assert Next(states[n], o, txs[n]) == Some(states[n + 1]);
      StepRecalls(states[n], o, txs[n]);
      RunLater(db, o, txs, states, 0, n);
      RunLater(db, o, txs, states, n, n + 1);
      RecallsOn(db, o, states[n], states[n + 1]);
    }
  }

  lemma RecallsOn(a: Db, o: Options, b: Db, c: Db)
    requires Inv(a, o) && Later(a.game, b.game, o) && Later(b.game, c.game, o)
    requires AllRecalled(a.results, b.results, b.game) && AllRecalled(b.results, c.results, c.game)
    ensures AllRecalled(a.results, c.results, c.game)
  {
    hide Inv, Onward;
    forall k | k in a.results ensures k in c.results && Recalls(a.results[k], c.results[k], c.game) {
      ResultRound(a, o, k);
      assert k in b.results;
    }
  }

  lemma ResultRound(db: Db, o: Options, k: (Id, Id))
    requires Inv(db, o) && k in db.results
    ensures var r := db.results[k]; r.roundId.Some? ==> db.game.Some? && db.game.value.round.id == r.roundId.value
  {
    hide RecordOk, FormatOk, Inv;
    StoredResultOk(db, o, k);
  }

  /** What the acknowledgement says is what is stored. */
  lemma AcknowledgementIsStored(db: Db, o: Options, p: Id, session: Id, cmd: Command, env: Env, after: Db, scope: Scope,
                                sequence: Option<nat>, at: Time, events: seq<PrivateEvent>)
    requires Execute(db, o, p, session, cmd, env) == Acknowledged(after, scope, sequence, at, false, events)
    ensures (p, cmd.id) in after.results
    ensures var r := after.results[(p, cmd.id)];
            r.body.intent == cmd && r.scope == scope && r.sequence == sequence && r.createdAt == at && r.body.events == events
  {
    hide Authenticated, Mutate, ValidPayload;
    ReplaysAreMarked(db.(clock := env.now), p, cmd);
  }

  lemma ReplaysAreMarked(db: Db, p: Id, cmd: Command)
    ensures forall r :: Replay(db, p, cmd, r).Acknowledged? ==> Replay(db, p, cmd, r).replay
  {
    hide ReplayValid, ParsePrivate;
  }

  /** The result of the command does not refer to a round, or its round is still there. */
  predicate Stands(after: Db, k: (Id, Id), last: Db) {
    k in after.results && after.results[k].roundId.Some? ==> SameRound(after, last)
  }

  /**
   * A command acknowledged once is acknowledged again in every later state, with the same scope, sequence and time,
   * without touching a table; its private events are the same as long as its round stands, and none afterwards.
   */
  lemma ReplayIsExact(db: Db, o: Options, p: Id, session: Id, cmd: Command, env: Env, after: Db, scope: Scope, sequence: Option<nat>,
                      at: Time, events: seq<PrivateEvent>, txs: seq<Tx>, states: seq<Db>, session': Id, env': Env)
    requires Inv(db, o) && TxOk(db, CommandTx(p, session, cmd, env))
    requires Execute(db, o, p, session, cmd, env) == Acknowledged(after, scope, sequence, at, false, events)
    requires IsRun(after, o, txs, states)
    requires states[|txs|].clock <= env'.now && Authenticated(states[|txs|].(clock := env'.now), p, session')
    ensures var last := states[|txs|];
            Execute(last, o, p, session', cmd, env')
            == Acknowledged(last.(clock := env'.now), scope, sequence, at, true, if Stands(after, (p, cmd.id), last) then events else [])
  {
    hide Inv, DealFits, Authenticated, Replay, Mutate, Commit, IsRun, Strip, Recalls, ResultOk;
    AcknowledgementIsStored(db, o, p, session, cmd, env, after, scope, sequence, at, events);
    CommandOk(db, o, p, session, cmd, env);
    RunRecalls(after, o, txs, states);
    LastKeepsInv(after, o, txs, states);
    var last := states[|txs|].(clock := env'.now);
    Tick(states[|txs|], o, env'.now);
    var k := (p, cmd.id);
    StoredResultOk(last, o, k);
    ReplayOk(last, p, cmd, last.results[k]);
    RecalledReply(after, o, last, k);
  }

  lemma RecalledReply(after: Db, o: Options, last: Db, k: (Id, Id))
    requires Inv(after, o) && Inv(last, o) && k in after.results && k in last.results
    requires Recalls(after.results[k], last.results[k], last.game)
    ensures var r := after.results[k];
            var r' := last.results[k];
            && r'.scope == r.scope && r'.sequence == r.sequence && r'.createdAt == r.createdAt && r'.body.intent == r.body.intent
            && r'.body.events == if r.roundId.None? || SameRound(after, last) then r.body.events else []
  {
    hide Inv;
    ResultRound(after, o, k);
    ResultRound(last, o, k);
  }
}
