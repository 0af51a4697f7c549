/** The event log over whole runs: events are appended, numbered without a gap, and never change. */
module EventLog {

  import opened Common
  import opened Rows
  import opened Games
  import opened Lobby
  import opened LobbyInv
  import opened LobbyWorld
  import LC = LobbyContinue
  import LM = LobbyMarks
  import V = Moves
  import opened Marks
  import opened Transactions
  import opened RoundRuns
  import M = RoundMachine
  import P = People
  import Q = Presence
  import C = Connections
  import A = Accounting

  /** The same event, up to the reference to a round that was deleted. */
  predicate SameEvent(a: Event, b: Event) {
    a.sequence == b.sequence && a.payload == b.payload && a.createdAt == b.createdAt
  }

  predicate Appended(a: seq<Event>, b: seq<Event>) {
    |a| <= |b| && forall i | 0 <= i < |a| :: SameEvent(a[i], b[i])
  }

  lemma AppendedTransitive(a: seq<Event>, b: seq<Event>, c: seq<Event>)
    requires Appended(a, b) && Appended(b, c)
    ensures Appended(a, c)
  {
  }

  lemma AppendedReflexive(a: seq<Event>)
    ensures Appended(a, a)
  {
  }

  lemma UnlinkKeeps(a: seq<Event>, round: Id)
    ensures Appended(a, Unlink(a, round))
  {
  }

  lemma RowStepEvents(db: Db, o: Options, c: M.Command, row: Round, status: LobbyStatus)
    requires db.game.Some?
    ensures var m := RowStep(db, o, c, row, status); !m.Fault? ==> m.db.events == db.events
  {
    hide Decide, Publish;
  }

  lemma OtherEvents(db: Db, o: Options, p: Id, cmd: Command, env: Env)
    requires !cmd.action.CreateRound? && !cmd.action.MarkBall? && env.now == db.clock
    ensures var m := Mutate(db, o, p, cmd, env); !m.Fault? ==> m.db.events == db.events
  {
    hide HasBlockingPresence, Publish, C.Do, RowStep, Decide, CommitCall, CarryWinner, Known, Q.Overridable, P.Current, CarriedSet,
         StartRow, PauseRow, ResumeRow, EndRow, ValidConfig, PlayerIds, FindPattern;
    if db.game.Some? {
      RowStepEvents(db, o, M.Start(db.clock), StartRow(db.game.value.round, db.clock), LobbyActive);
      RowStepEvents(db, o, M.Pause(M.HostCommand, db.clock), PauseRow(db.game.value.round, M.HostCommand, db.clock), db.status);
      RowStepEvents(db, o, M.Resume(db.clock), ResumeRow(db.game.value.round, db.clock), db.status);
      RowStepEvents(db, o, M.End(db.clock), EndRow(db.game.value.round, db.clock), LobbyWaiting);
    }
  }

  lemma MutationEvents(db: Db, o: Options, p: Id, cmd: Command, env: Env)
    requires env.now == db.clock
    ensures var m := Mutate(db, o, p, cmd, env); !m.Fault? ==> Appended(db.events, m.db.events)
  {
    hide C.Do, Publish, Unlink, StripRound, MarkCard, EntryOf, Known, ModeOf, Continue, RowStep, OverrideMutation, ConfigureMutation,
         CallMutation, FirstStart, HasBlockingPresence;
    AppendedReflexive(db.events);
    if cmd.action.CreateRound? {
      if db.game.Some? { UnlinkKeeps(db.events, db.game.value.round.id); }
    } else if !cmd.action.MarkBall? {
      OtherEvents(db, o, p, cmd, env);
    }
  }

  lemma CommitEvents(db: Db, p: Id, cmd: Command, pending: Pending, now: Time)
    ensures var r := Commit(db, p, cmd, pending, now);
            !r.Rejected? && (r.Acknowledged? ==> Appended(db.events, r.db.events))
  {
    hide ValidPayload, ResultRow;
  }

  lemma CommandEvents(db: Db, o: Options, tx: Tx)
    requires tx.CommandTx? && Inv(db, o) && TxOk(db, tx) && Next(db, o, tx).Some?
    ensures Appended(db.events, Next(db, o, tx).value.events)
  {
    hide Mutate, Inv, DealFits, Replay, Commit, Authenticated, Appended;
    var now := tx.env.now;
    var here := db.(clock := now);
    Tick(db, o, now);
    var p, cmd, env := tx.participant, tx.cmd, tx.env;
    AppendedReflexive(db.events);
    if Authenticated(here, p, tx.session) {
      AuthenticatedRow(here, p, tx.session);
      if (p, cmd.id) in here.results {
        StoredResultOk(here, o, (p, cmd.id));
        ReplayOk(here, p, cmd, here.results[(p, cmd.id)]);
      } else if cmd.action.MarkBall? || Tables(here).participants[p].role.Host? {
        MutationEvents(here, o, p, cmd, env);
        var m := Mutate(here, o, p, cmd, env);
        if m.Done? {
          CommitEvents(m.db, p, cmd, m.pending, now);
          AppendedTransitive(db.events, m.db.events, Commit(m.db, p, cmd, m.pending, now).db.events);
        }
      }
    }
  }

  lemma LeaseEvents(db: Db, o: Options, tx: Tx)
    requires (tx.CallTx? || tx.SettleTx?) && Next(db, o, tx).Some?
    ensures Appended(db.events, Next(db, o, tx).value.events)
  {
    hide HasBlockingPresence, CommitCall, Decide, ValidPayload, ValidResult;
  }

  lemma PresenceEvents(db: Db, o: Options, op: C.Op)
    requires ExecutePresence(db, op).Some?
    ensures Appended(db.events, ExecutePresence(db, op).value.events)
  {
    hide C.Do, Announced, ShouldPause, Publish;
  }

  lemma StepEvents(db: Db, o: Options, tx: Tx)
    requires Inv(db, o) && TxOk(db, tx) && Next(db, o, tx).Some?
    ensures Appended(db.events, Next(db, o, tx).value.events)
  {
    hide Inv, DealFits, Appended, Execute, ExecuteCall, ExecuteSettlement, ExecutePresence;
    match tx
    case CommandTx(_, _, _, _) => CommandEvents(db, o, tx);
    case CallTx(_, _) => LeaseEvents(db, o, tx);
    case SettleTx(_, _) => LeaseEvents(db, o, tx);
    case PresenceTx(op) => PresenceEvents(db, o, op);
  }

  lemma Numbered(db: Db, o: Options)
    requires Inv(db, o)
    ensures |db.events| == db.lastSequence && forall i | 0 <= i < |db.events| :: db.events[i].sequence == i + 1
  {
    hide A.Accounted, HostOk, StatusOk, RoundlessOk, RoundRowsOk, ResultsOk, WinsOk, LogOk;
  }

  /** In every run the events are numbered 1, 2, ... up to the last sequence, and an event once committed stays as it is. */
  lemma {:induction false} EventsArePermanent(db: Db, o: Options, txs: seq<Tx>, states: seq<Db>)
    requires Inv(db, o) && IsRun(db, o, txs, states)
    ensures var last := states[|txs|];
            && Appended(db.events, last.events)
            && |last.events| == last.lastSequence
            && forall i | 0 <= i < |last.events| :: last.events[i].sequence == i + 1
  {
    hide Inv, TxOk, Next, Appended;
    LastKeepsInv(db, o, txs, states);
    Numbered(states[|txs|], o);
    if txs == [] {
      AppendedReflexive(db.events);
    } else {
      var n := |txs| - 1;
      assert states[..n + 1][n] == states[n];
      EventsArePermanent(db, o, txs[..n], states[..n + 1]);
      EveryRunKeepsInv(db, o, txs, states);
      assert Next(states[n], o, txs[n]) == Some(states[n + 1]);
      StepEvents(states[n], o, txs[n]);
      AppendedTransitive(db.events, states[n].events, states[n + 1].events);
    }
  }

  // ---------- references to rounds ----------

  /** An event refers to the round that is there, or to none. */
  predicate RefersTo(game: Option<Game>, roundId: Option<Id>) {
    roundId.Some? ==> game.Some? && game.value.round.id == roundId.value
  }

  predicate RefsOk(db: Db) {
    forall e | e in db.events :: RefersTo(db.game, e.roundId)
  }

  predicate PendingRefs(db: Db, pending: Pending) {
    pending.Public? ==> RefersTo(db.game, pending.roundId)
  }

  lemma SameRefs(db: Db, after: Db)
    requires RefsOk(db) && after.events == db.events
    requires db.game.Some? ==> after.game.Some? && after.game.value.round.id == db.game.value.round.id
    ensures RefsOk(after)
  {
  }

  lemma RowStepRefs(db: Db, o: Options, c: M.Command, status: LobbyStatus)
    requires db.game.Some? && !c.OpenWindow? && !c.Continue?
    ensures var m := RowStep(db, o, c, V.RowAfter(db.game.value.round, c), status);
            && (m.Refused? ==> m.db == db)
            && (m.Done? ==>
                  && m.db.events == db.events && m.db.game.Some? && m.db.game.value.round.id == db.game.value.round.id
                  && m.pending.Public? && m.pending.roundId == Some(db.game.value.round.id))
  {
    hide Decide, Publish;
  }

  /** A mutation outside the creation of a round keeps the events and the round's id, and announces that round or none. */
  predicate KeepsRound(db: Db, m: Mutation) {
    && (m.Refused? ==> m.db.events == db.events && m.db.game == db.game)
    && (m.Done? ==>
          && m.db.events == db.events && PendingRefs(m.db, m.pending)
          && (db.game.Some? ==> m.db.game.Some? && m.db.game.value.round.id == db.game.value.round.id))
  }

  lemma RowCommandRefs(db: Db, o: Options, p: Id, cmd: Command, env: Env)
    requires env.now == db.clock && db.game.Some?
    requires cmd.action.StartRound? || cmd.action.PauseRound? || cmd.action.ResumeRound? || cmd.action.EndRound?
    ensures KeepsRound(db, Mutate(db, o, p, cmd, env))
  {
    hide HasBlockingPresence, RowStep, Continue, MarkMutation, CreateMutation, OverrideMutation, ConfigureMutation, CallMutation, FirstStart;
    var now := env.now;
    match cmd.action
    case StartRound => RowStepRefs(db, o, M.Start(now), LobbyActive);
    case PauseRound => RowStepRefs(db, o, M.Pause(M.HostCommand, now), db.status);
    case ResumeRound => RowStepRefs(db, o, M.Resume(now), db.status);
    case EndRound => RowStepRefs(db, o, M.End(now), LobbyWaiting);
    case _ =>
  }

  lemma CallRefs(db: Db, now: Time)
    requires db.game.Some?
    ensures KeepsRound(db, CallMutation(db, now))
  {
  }

  lemma ConfigureRefs(db: Db, o: Options, setup: Setup)
    ensures KeepsRound(db, ConfigureMutation(db, o, setup))
  {
    hide Publish, Known;
  }

  lemma ContinueRefs(db: Db, o: Options, pattern: Id)
    requires db.game.Some?
    ensures KeepsRound(db, LC.ContinueMutation(db, o, pattern))
  {
    hide CarryWinner, Publish, Decide;
  }

  lemma FirstStartRefs(db: Db, o: Options, env: Env)
    requires db.game.None?
    ensures KeepsRound(db, FirstStart(db, o, env))
  {
    hide C.Do, Publish, Known;
  }

  lemma OverrideRefs(db: Db, p: Id, number: nat, now: Time)
    ensures KeepsRound(db, OverrideMutation(db, p, number, now))
  {
    hide C.Do;
  }

  lemma MarkRefs(db: Db, o: Options, p: Id, ball: nat, now: Time)
    requires Inv(db, o) && db.game.Some? && now == db.clock
    ensures KeepsRound(db, MarkMutation(db, o, p, ball, now))
  {
    hide Inv, MarkCard, EntryOf, Known, MarkAllowed;
    LM.ReadyToMark(db, o);
    MarkedRound(db.game.value, o, db.nextId, now, p, ball);
  }

  lemma MarkedRound(g: Game, o: Options, limit: Id, now: Time, p: Id, ball: nat)
    requires MarkReady(g, o, limit, now, now)
    ensures var c := MarkCard(g, o, p, ball, now, limit); c.Marked? ==> c.game.round.id == g.round.id
  {
    hide AttributionOf, SnapOf, RequiredBall, Decide, FindPattern, MarkReady, MarkAllowed;
  }

  lemma CreateRefs(db: Db, o: Options, env: Env)
    requires Inv(db, o) && RefsOk(db)
    ensures var m := CreateMutation(db, o, env);
            && (m.Refused? ==> m.db.events == db.events && m.db.game == db.game)
            && (m.Done? ==> RefsOk(m.db) && PendingRefs(m.db, m.pending))
  {
    hide C.Do, Publish, StripRound, Inv, Known, ModeOf;
    if db.game.Some? { Unlinked(db.events, db.game); }
  }

  /** After the round's events were unlinked, no event refers to any round. */
  lemma Unlinked(events: seq<Event>, game: Option<Game>)
    requires game.Some? && forall e | e in events :: RefersTo(game, e.roundId)
    ensures forall e | e in Unlink(events, game.value.round.id) :: e.roundId.None?
  {
    var after := Unlink(events, game.value.round.id);
    forall i | 0 <= i < |after| ensures after[i].roundId.None? { assert events[i] in events; }
  }

  lemma MutationRefs(db: Db, o: Options, p: Id, cmd: Command, env: Env)
    requires Inv(db, o) && RefsOk(db) && env.now == db.clock
    ensures var m := Mutate(db, o, p, cmd, env);
            && (m.Refused? ==> RefsOk(m.db))
            && (m.Done? ==> RefsOk(m.db) && PendingRefs(m.db, m.pending))
  {
    hide Inv, RowStep, CallMutation, Continue, HasBlockingPresence, OverrideMutation, CreateMutation, ConfigureMutation, MarkMutation,
         FirstStart, RefsOk, PendingRefs;
    var m := Mutate(db, o, p, cmd, env);
    if cmd.action.CreateRound? {
      CreateRefs(db, o, env);
      if m.Refused? { SameRefs(db, m.db); }
    } else {
      assert KeepsRound(db, m) by { OtherRefs(db, o, p, cmd, env); }
      if !m.Fault? { SameRefs(db, m.db); }
    }
  }

  lemma OtherRefs(db: Db, o: Options, p: Id, cmd: Command, env: Env)
    requires Inv(db, o) && env.now == db.clock && !cmd.action.CreateRound?
    ensures KeepsRound(db, Mutate(db, o, p, cmd, env))
  {
    hide Inv, RowStep, CallMutation, Continue, HasBlockingPresence, OverrideMutation, CreateMutation, ConfigureMutation, MarkMutation,
         FirstStart, KeepsRound, Staged;
    RefusedKeeps(db);
    match cmd.action
    case OverrideAbsence(target, number) => OverrideRefs(db, target, number, env.now);
    case Configure(setup) => ConfigureRefs(db, o, setup);
    case MarkBall(ball) => if db.game.Some? { MarkRefs(db, o, p, ball, env.now); }
    case CallNext => if db.game.Some? { CallRefs(db, env.now); }
    case ContinueRound(pattern) => if db.game.Some? { ContinueRefs(db, o, pattern); }
    case StartRound => if db.game.None? { FirstStartRefs(db, o, env); } else { RowCommandRefs(db, o, p, cmd, env); }
    case PauseRound => if db.game.Some? { RowCommandRefs(db, o, p, cmd, env); }
    case ResumeRound => if db.game.Some? { RowCommandRefs(db, o, p, cmd, env); }
    case EndRound => if db.game.Some? { RowCommandRefs(db, o, p, cmd, env); }
    case CreateRound =>
  }

  lemma RefusedKeeps(db: Db)
    ensures KeepsRound(db, Refused(db))
  {
  }

  lemma CommitRefs(db: Db, p: Id, cmd: Command, pending: Pending, now: Time)
    requires RefsOk(db) && PendingRefs(db, pending)
    ensures var r := Commit(db, p, cmd, pending, now); r.Acknowledged? ==> RefsOk(r.db)
  {
    hide ValidPayload, ResultRow;
  }

  lemma CommandRefs(db: Db, o: Options, tx: Tx)
    requires tx.CommandTx? && Inv(db, o) && RefsOk(db) && TxOk(db, tx) && Next(db, o, tx).Some?
    ensures RefsOk(Next(db, o, tx).value)
  {
    hide Mutate, Inv, DealFits, Replay, Commit, Authenticated, RefsOk, PendingRefs;
    var now := tx.env.now;
    var here := db.(clock := now);
    Tick(db, o, now);
    SameRefs(db, here);
    var p, cmd, env := tx.participant, tx.cmd, tx.env;
    if Authenticated(here, p, tx.session) {
      AuthenticatedRow(here, p, tx.session);
      if (p, cmd.id) in here.results {
        StoredResultOk(here, o, (p, cmd.id));
        ReplayOk(here, p, cmd, here.results[(p, cmd.id)]);
      } else if cmd.action.MarkBall? || Tables(here).participants[p].role.Host? {
        MutationRefs(here, o, p, cmd, env);
        var m := Mutate(here, o, p, cmd, env);
        if m.Done? {
          CommitEvents(m.db, p, cmd, m.pending, now);
          CommitRefs(m.db, p, cmd, m.pending, now);
        }
      }
    }
  }

  lemma LeaseRefs(db: Db, o: Options, tx: Tx)
    requires (tx.CallTx? || tx.SettleTx?) && RefsOk(db) && Next(db, o, tx).Some?
    ensures RefsOk(Next(db, o, tx).value)
  {
    hide HasBlockingPresence, Decide, ValidPayload, ValidResult;
  }

  lemma PresenceRefs(db: Db, op: C.Op)
    requires RefsOk(db) && ExecutePresence(db, op).Some?
    ensures RefsOk(ExecutePresence(db, op).value)
  {
    hide C.Do, Announced, ShouldPause, Publish;
  }

  lemma StepRefs(db: Db, o: Options, tx: Tx)
    requires Inv(db, o) && RefsOk(db) && TxOk(db, tx) && Next(db, o, tx).Some?
    ensures RefsOk(Next(db, o, tx).value)
  {
    hide Inv, DealFits, RefsOk, Execute, ExecuteCall, ExecuteSettlement, ExecutePresence;
    match tx
    case CommandTx(_, _, _, _) => CommandRefs(db, o, tx);
    case CallTx(_, _) => LeaseRefs(db, o, tx);
    case SettleTx(_, _) => LeaseRefs(db, o, tx);
    case PresenceTx(op) => PresenceRefs(db, op);
  }

  /** In every run no event refers to a round that was deleted. */
  lemma {:induction false} NoDanglingReferences(db: Db, o: Options, txs: seq<Tx>, states: seq<Db>)
    requires Inv(db, o) && RefsOk(db) && IsRun(db, o, txs, states)
    ensures RefsOk(states[|txs|])
  {
    hide Inv, TxOk, Next, RefsOk;
    if txs != [] {
      var n := |txs| - 1;
      assert states[..n + 1][n] == states[n];
      NoDanglingReferences(db, o, txs[..n], states[..n + 1]);
      EveryRunKeepsInv(db, o, txs, states);
      assert Next(states[n], o, txs[n]) == Some(states[n + 1]);
      StepRefs(states[n], o, txs[n]);
    }
  }
}
