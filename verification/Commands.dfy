/** Who may issue which command, and what each command of the host does, from the reply alone. */
module Commands {

  import opened Common
  import opened Patterns
  import opened Rows
  import opened Games
  import opened Lobby
  import opened LobbyInv
  import opened LobbySteps
  import opened LobbyWorld
  import opened Transactions
  import Blocking
  import LC = LobbyContinue
  import M = RoundMachine
  import P = People
  import Q = Presence
  import C = Connections
  import A = Accounting

  // ---------- who ----------

  predicate SignedIn(db: Db, p: Id, session: Id) {
    var t := Tables(db);
    && session in t.sessions && t.sessions[session].participant == p && t.sessions[session].status.SessionActive?
    && p in t.participants && t.participants[p].departedAt.None?
  }

  /** Without an active session nothing is done, and players may mark but not steer; the tables stay as they are. */
  lemma WhoMayCommand(db: Db, o: Options, p: Id, session: Id, cmd: Command, env: Env)
    ensures !SignedIn(db, p, session) ==>
              Execute(db, o, p, session, cmd, env) == Rejected(db.(clock := env.now), Unauthorized)
    ensures SignedIn(db, p, session) && (p, cmd.id) !in db.results && !cmd.action.MarkBall? && Tables(db).participants[p].role.Player? ==>
              Execute(db, o, p, session, cmd, env) == Rejected(db.(clock := env.now), Forbidden)
  {
    hide Mutate, Commit, Replay;
  }

  /** A command of the host that was not issued before. */
  ghost predicate Issued(db: Db, o: Options, p: Id, session: Id, cmd: Command, env: Env) {
    && Inv(db, o) && db.clock <= env.now && SignedIn(db, p, session) && (p, cmd.id) !in db.results
    && Tables(db).participants[p].role.Host?
  }

  // ---------- when somebody is missing ----------

  /** Somebody the round needs is absent without override, or has a grace period that is over. */
  predicate Missing(t: P.Tables, p: Id, now: Time)
    requires p in t.participants
  {
    && t.participants[p].departedAt.None? && (t.participants[p].role.Host? || t.participants[p].eligibility.Playing?)
    && p in t.presence && t.presence[p] != []
    && var g := Q.Newest(t, p);
       || (g.status.Absent? && !g.overridden)
       || (g.status.Grace? && g.graceEndsAt.Some? && g.graceEndsAt.value <= now)
  }

  predicate Held(t: P.Tables, now: Time) {
    exists p | p in t.participants :: Missing(t, p, now)
  }

  lemma HeldIsBlocked(t: P.Tables, now: Time)
    requires Q.PeopleOk(t)
    ensures Held(t, now) <==> HasBlockingPresence(t, now)
  {
    hide Q.PeopleOk, Blocks, Missing;
    forall p | p in t.participants ensures Missing(t, p, now) <==> Blocks(t, p, now) {
      MissingBlocks(t, p, now);
    }
  }

  lemma MissingBlocks(t: P.Tables, p: Id, now: Time)
    requires Q.PeopleOk(t) && p in t.participants
    ensures Missing(t, p, now) <==> Blocks(t, p, now)
  {
    hide Q.PeopleOk, Blocks;
    Blocking.BlockingMeaning(t, p, now);
    A.ConnectedHasRow(t, p);
  }

  // ---------- what a reply leaves behind ----------

  function Refusal(db: Db, now: Time): Reply {
    Rejected(db.(clock := now), InvalidCommand)
  }

  /** The change was published as one event with the next number and stored as the command's result; else `mid` is what is left. */
  predicate Publishes(mid: Db, r: Reply, p: Id, cmd: Command, roundId: Option<Id>, payload: Payload) {
    && r.Acknowledged? && r.scope.ActiveLobby? && r.sequence == Some(mid.lastSequence + 1) && r.occurredAt == mid.clock
    && !r.replay && r.events == []
    && (p, cmd.id) in r.db.results
    && var row := r.db.results[(p, cmd.id)];
       && row.body == Body(cmd, None, [], None) && row.roundId == roundId && row.scope == r.scope && row.sequence == r.sequence
       && row.createdAt == mid.clock
       && r.db == mid.(lastSequence := mid.lastSequence + 1,
                       events := mid.events + [Event(mid.lastSequence + 1, roundId, payload, mid.clock)],
                       results := mid.results[(p, cmd.id) := row])
  }

  lemma CommitPublishes(mid: Db, p: Id, cmd: Command, pending: Pending)
    requires pending.Public? && pending.receipt.None?
    ensures var r := Commit(mid, p, cmd, pending, mid.clock);
            r.Failed? || Publishes(mid, r, p, cmd, pending.roundId, pending.payload)
  {
    hide ValidPayload;
  }

  /** The reply to a command of the host follows from what the command did to the tables. */
  lemma Outcome(db: Db, o: Options, p: Id, session: Id, cmd: Command, env: Env)
    requires Issued(db, o, p, session, cmd, env) && !cmd.action.MarkBall?
    requires DealFits(db, cmd, env) && (cmd.action.Configure? ==> ValidConfig(cmd.action.setup.config))
    ensures var m := Mutate(db.(clock := env.now), o, p, cmd, env);
            var r := Execute(db, o, p, session, cmd, env);
            && !m.Fault?
            && (m.Refused? ==> r == Rejected(m.db, InvalidCommand))
            && (m.Done? && m.pending.Public? && m.pending.receipt.None? && m.db.clock == env.now ==>
                  Publishes(m.db, r, p, cmd, m.pending.roundId, m.pending.payload))
  {
    hide Inv, DealFits, Mutate, Commit, Replay, Publishes;
    TransactionOk(db, o, CommandTx(p, session, cmd, env));
    var m := Mutate(db.(clock := env.now), o, p, cmd, env);
    if m.Done? && m.pending.Public? && m.pending.receipt.None? && m.db.clock == env.now {
      CommitPublishes(m.db, p, cmd, m.pending);
    }
  }

  lemma IssuedFacts(db: Db, o: Options, p: Id, session: Id, cmd: Command, env: Env)
    requires Issued(db, o, p, session, cmd, env)
    ensures Inv(db.(clock := env.now), o) && Q.PeopleOk(Tables(db))
    ensures Held(Tables(db), env.now) <==> HasBlockingPresence(Tables(db), env.now)
    ensures db.game.Some? ==> GameOk(db.game.value, o, db.nextId, env.now)
  {
    hide Inv, Q.PeopleOk, GameOk, Held, HasBlockingPresence;
    Tick(db, o, env.now);
    AccountedIn(db, o);
    A.AccountedPeople(db.world);
    HeldIsBlocked(Tables(db), env.now);
    if db.game.Some? { GameFacts(db.(clock := env.now), o); }
  }

  // ---------- steps of the row ----------

  /** The tables with another row of the round. */
  function WithRow(db: Db, row: Round, status: LobbyStatus, now: Time): Db
    requires db.game.Some?
  {
    db.(clock := now, status := status, game := Some(db.game.value.(round := row)))
  }

  lemma RowOutcome(db: Db, o: Options, p: Id, session: Id, cmd: Command, env: Env, c: M.Command, row: Round, status: LobbyStatus)
    requires Issued(db, o, p, session, cmd, env) && !cmd.action.MarkBall? && !cmd.action.Configure? && DealFits(db, cmd, env)
    requires db.game.Some? && Mutate(db.(clock := env.now), o, p, cmd, env) == RowStep(db.(clock := env.now), o, c, row, status)
    ensures var r := Execute(db, o, p, session, cmd, env);
            var g := db.game.value;
            match Decide(g.round, o.catalog, c)
            case Threw => false
            case Declined => r == Refusal(db, env.now)
            case Accepted =>
              Publish(g.(round := row)).Some?
              && Publishes(WithRow(db, row, status, env.now), r, p, cmd, Some(row.id),
                           if row.stage.StageEnded? then EndPayload(Publish(g.(round := row)).value)
                           else StagePayload(Publish(g.(round := row)).value))
  {
    hide Inv, DealFits, Mutate, Publish, Decide, Publishes, Execute, Issued;
    Outcome(db, o, p, session, cmd, env);
  }

  /** Which row step a command is. */
  lemma RowCommands(db: Db, o: Options, p: Id, cmd: Command, env: Env)
    requires db.game.Some?
    ensures var here, row, now := db.(clock := env.now), db.game.value.round, env.now;
            var m := Mutate(here, o, p, cmd, env);
            && (cmd.action.StartRound? ==>
                  m == if HasBlockingPresence(Tables(db), now) then Refused(here) else RowStep(here, o, M.Start(now), StartRow(row, now), LobbyActive))
            && (cmd.action.PauseRound? ==>
                  m == RowStep(here, o, M.Pause(M.HostCommand, now), PauseRow(row, M.HostCommand, now), db.status))
            && (cmd.action.ResumeRound? ==>
                  m == if HasBlockingPresence(Tables(db), now) then Refused(here) else RowStep(here, o, M.Resume(now), ResumeRow(row, now), db.status))
            && (cmd.action.EndRound? ==> m == RowStep(here, o, M.End(now), EndRow(row, now), LobbyWaiting))
            && (cmd.action.Configure? ==> m == ConfigureMutation(here, o, cmd.action.setup))
  {
    hide RowStep, HasBlockingPresence, ConfigureMutation, CallMutation, Lobby.Continue, MarkMutation, CreateMutation, OverrideMutation;
  }

  /** The stage that is published with the round. */
  function Shown(r: Round, stage: PublicStage): PublicRound {
    PublicRound(r.id, r.currentPattern, r.config, stage)
  }

  /** A waiting round starts, unless somebody it needs is missing. */
  lemma StartMeaning(db: Db, o: Options, p: Id, session: Id, cmd: Command, env: Env)
    requires Issued(db, o, p, session, cmd, env) && cmd.action.StartRound? && db.game.Some?
    ensures var r := Execute(db, o, p, session, cmd, env);
            var g := db.game.value;
            if g.round.stage.StageWaiting? && !Held(Tables(db), env.now) then
              Publishes(
                WithRow(db, g.round.(stage := StageActive, startedAt := Some(env.now), activeAt := Some(env.now), pausedAt := None,
                                     pauseReason := None, nextCallAt := NextAutomaticCall(g.round.config, env.now)),
                        LobbyActive, env.now),
                r, p, cmd, Some(g.round.id), StagePayload(Shown(g.round, PublicActive(env.now))))
            else r == Refusal(db, env.now)
  {
    hide Inv, Execute, Publishes, Held, HasBlockingPresence, DealFits, GameOk, Publish, Mutate, RowStep;
    RowCommands(db, o, p, cmd, env);
    IssuedFacts(db, o, p, session, cmd, env);
    var g, now := db.game.value, env.now;
    StartDecided(g, o, db.nextId, now);
    PlainDeal(db, cmd, env);
    if HasBlockingPresence(Tables(db), now) { Outcome(db, o, p, session, cmd, env); }
    else { RowOutcome(db, o, p, session, cmd, env, M.Start(now), StartRow(g.round, now), LobbyActive); }
  }

  lemma PlainDeal(db: Db, cmd: Command, env: Env)
    requires !cmd.action.CreateRound? && (cmd.action.StartRound? ==> db.game.Some?)
    ensures DealFits(db, cmd, env)
  {
  }

  lemma StartDecided(g: Game, o: Options, limit: Id, now: Time)
    requires GameOk(g, o, limit, now)
    ensures Decide(g.round, o.catalog, M.Start(now)) == if g.round.stage.StageWaiting? then Accepted else Declined
    ensures Publish(g.(round := StartRow(g.round, now))).Some? ==>
              Publish(g.(round := StartRow(g.round, now))).value == Shown(g.round, PublicActive(now))
  {
    hide DrawOk, CardsOk, CallsOk, MarksOk, WinnersOk, DeadlineAfterCalls, FindPattern;
  }

  /** An active round pauses, whoever is missing. */
  lemma PauseMeaning(db: Db, o: Options, p: Id, session: Id, cmd: Command, env: Env)
    requires Issued(db, o, p, session, cmd, env) && cmd.action.PauseRound? && db.game.Some?
    ensures var r := Execute(db, o, p, session, cmd, env);
            var g := db.game.value;
            if g.round.stage.StageActive? && g.round.startedAt.Some? then
              Publishes(
                WithRow(db, g.round.(stage := StagePaused, pausedAt := Some(env.now), pauseReason := Some(M.HostCommand), nextCallAt := None),
                        db.status, env.now),
                r, p, cmd, Some(g.round.id),
                StagePayload(Shown(g.round, PublicPaused(g.round.startedAt.value, M.HostCommand, env.now))))
            else !g.round.stage.StageActive? && r == Refusal(db, env.now)
  {
    hide Inv, Execute, Publishes, Held, HasBlockingPresence, DealFits, GameOk, Publish, Mutate, RowStep;
    RowCommands(db, o, p, cmd, env);
    IssuedFacts(db, o, p, session, cmd, env);
    var g, now := db.game.value, env.now;
    PauseDecided(g, o, db.nextId, now);
    PlainDeal(db, cmd, env);
    RowOutcome(db, o, p, session, cmd, env, M.Pause(M.HostCommand, now), PauseRow(g.round, M.HostCommand, now), db.status);
  }

  lemma PauseDecided(g: Game, o: Options, limit: Id, now: Time)
    requires GameOk(g, o, limit, now)
    ensures g.round.stage.StageActive? ==> g.round.startedAt.Some?
    ensures Decide(g.round, o.catalog, M.Pause(M.HostCommand, now)) == if g.round.stage.StageActive? then Accepted else Declined
    ensures var paused := g.(round := PauseRow(g.round, M.HostCommand, now));
            Publish(paused).Some? && g.round.startedAt.Some? ==>
              Publish(paused).value == Shown(g.round, PublicPaused(g.round.startedAt.value, M.HostCommand, now))
  {
    hide DrawOk, CardsOk, CallsOk, MarksOk, WinnersOk, DeadlineAfterCalls, FindPattern;
  }

  /** A paused round resumes, whatever it was paused for, unless somebody it needs is missing. */
  lemma ResumeMeaning(db: Db, o: Options, p: Id, session: Id, cmd: Command, env: Env)
    requires Issued(db, o, p, session, cmd, env) && cmd.action.ResumeRound? && db.game.Some?
    ensures var r := Execute(db, o, p, session, cmd, env);
            var g := db.game.value;
            if g.round.stage.StagePaused? && g.round.startedAt.Some? && !Held(Tables(db), env.now) then
              Publishes(
                WithRow(db, g.round.(stage := StageActive, activeAt := Some(env.now), pausedAt := None, pauseReason := None,
                                     nextCallAt := NextAutomaticCall(g.round.config, env.now)), db.status, env.now),
                r, p, cmd, Some(g.round.id), StagePayload(Shown(g.round, PublicActive(g.round.startedAt.value))))
            else (g.round.stage.StagePaused? ==> Held(Tables(db), env.now)) && r == Refusal(db, env.now)
  {
    hide Inv, Execute, Publishes, Held, HasBlockingPresence, DealFits, GameOk, Publish, Mutate, RowStep;
    RowCommands(db, o, p, cmd, env);
    IssuedFacts(db, o, p, session, cmd, env);
    var g, now := db.game.value, env.now;
    ResumeDecided(g, o, db.nextId, now);
    PlainDeal(db, cmd, env);
    if HasBlockingPresence(Tables(db), now) { Outcome(db, o, p, session, cmd, env); }
    else { RowOutcome(db, o, p, session, cmd, env, M.Resume(now), ResumeRow(g.round, now), db.status); }
  }

  lemma ResumeDecided(g: Game, o: Options, limit: Id, now: Time)
    requires GameOk(g, o, limit, now)
    ensures g.round.stage.StagePaused? ==> g.round.startedAt.Some?
    ensures Decide(g.round, o.catalog, M.Resume(now)) == if g.round.stage.StagePaused? then Accepted else Declined
    ensures var resumed := g.(round := ResumeRow(g.round, now));
            Publish(resumed).Some? && g.round.startedAt.Some? ==>
              Publish(resumed).value == Shown(g.round, PublicActive(g.round.startedAt.value))
  {
    hide DrawOk, CardsOk, CallsOk, MarksOk, WinnersOk, DeadlineAfterCalls, FindPattern;
  }

  /** The standing winners, all on the latest call. */
  function Standing(g: Game): Option<WinnerResult>
    requires g.round.trigger.Some? ==> g.round.openedAt.Some? && g.round.closesAt.Some? && g.round.settledAt.Some?
  {
    if g.winners == map[] || g.round.trigger.None? then None
    else Some(WinnerResult(g.round.trigger.value, g.round.openedAt.value, g.round.closesAt.value, g.round.settledAt.value, g.winners.Keys))
  }

  predicate MayEnd(g: Game) {
    && g.round.stage in {StageActive, StagePaused, StageResult} && g.round.startedAt.Some?
    && (g.round.trigger.Some? ==> g.round.openedAt.Some? && g.round.closesAt.Some? && g.round.settledAt.Some?)
  }

  /** A round that is active, paused or has its result ends, whoever is missing, and shows who won. */
  lemma EndMeaning(db: Db, o: Options, p: Id, session: Id, cmd: Command, env: Env)
    requires Issued(db, o, p, session, cmd, env) && cmd.action.EndRound? && db.game.Some?
    ensures var r := Execute(db, o, p, session, cmd, env);
            var g := db.game.value;
            if MayEnd(g) then
              Publishes(
                WithRow(db, g.round.(stage := StageEnded, endedAt := Some(env.now), nextCallAt := None), LobbyWaiting, env.now),
                r, p, cmd, Some(g.round.id), EndPayload(Shown(g.round, PublicEnded(g.round.startedAt.value, env.now, Standing(g)))))
            else g.round.stage in {StageWaiting, StageWindow, StageEnded} && r == Refusal(db, env.now)
  {
    hide Inv, Execute, Publishes, Held, HasBlockingPresence, DealFits, GameOk, Publish, Mutate, RowStep, Standing, MayEnd;
    RowCommands(db, o, p, cmd, env);
    IssuedFacts(db, o, p, session, cmd, env);
    var g, now := db.game.value, env.now;
    EndDecided(g, o, db.nextId, now);
    PlainDeal(db, cmd, env);
    RowOutcome(db, o, p, session, cmd, env, M.End(now), EndRow(g.round, now), LobbyWaiting);
  }

  lemma EndDecided(g: Game, o: Options, limit: Id, now: Time)
    requires GameOk(g, o, limit, now)
    ensures MayEnd(g) <==> g.round.stage in {StageActive, StagePaused, StageResult}
    ensures Decide(g.round, o.catalog, M.End(now)) == if MayEnd(g) then Accepted else Declined
    ensures var ended := g.(round := EndRow(g.round, now));
            Publish(ended).Some? && MayEnd(g) ==>
              Publish(ended).value == Shown(g.round, PublicEnded(g.round.startedAt.value, now, Standing(g)))
  {
    hide DrawOk, CardsOk, CallsOk, MarksOk, DeadlineAfterCalls, FindPattern;
  }

  /** Without a round there is nothing to pause, resume, call, continue or end. */
  lemma NothingToSteer(db: Db, o: Options, p: Id, session: Id, cmd: Command, env: Env)
    requires Issued(db, o, p, session, cmd, env) && db.game.None?
    requires cmd.action.PauseRound? || cmd.action.ResumeRound? || cmd.action.CallNext? || cmd.action.ContinueRound? || cmd.action.EndRound?
    ensures Execute(db, o, p, session, cmd, env) == Refusal(db, env.now)
  {
    hide Inv, Execute, DealFits, Publishes;
    PlainDeal(db, cmd, env);
    Outcome(db, o, p, session, cmd, env);
  }

  // ---------- calls ----------

  /** The tables with one more call. */
  function WithCall(db: Db, call: Call, next: Option<Time>, now: Time): Db
    requires db.game.Some?
  {
    var g := db.game.value;
    db.(clock := now, nextId := db.nextId + 1, game := Some(g.(calls := g.calls + [call], round := g.round.(nextCallAt := next))))
  }

  /** In an active round with balls left the next one of the draw is called, unless somebody it needs is missing. */
  lemma CallMeaning(db: Db, o: Options, p: Id, session: Id, cmd: Command, env: Env)
    requires Issued(db, o, p, session, cmd, env) && cmd.action.CallNext? && db.game.Some?
    ensures var r := Execute(db, o, p, session, cmd, env);
            var g := db.game.value;
            var n := |g.calls|;
            if g.round.stage.StageActive? && !Held(Tables(db), env.now) && n < |g.draw| then
              var call := Call(db.nextId, n + 1, g.draw[n], env.now);
              var next := if n + 1 == |g.draw| then None else NextAutomaticCall(g.round.config, env.now);
              Publishes(WithCall(db, call, next, env.now), r, p, cmd, Some(g.round.id), CallPayload(call))
            else r == Refusal(db, env.now)
  {
    hide Inv, Execute, Publishes, Held, HasBlockingPresence, DealFits, Mutate, GameOk;
    IssuedFacts(db, o, p, session, cmd, env);
    PlainDeal(db, cmd, env);
    DrawCovers(db.game.value, o, db.nextId, env.now);
    CallDoes(db, o, p, cmd, env);
    Outcome(db, o, p, session, cmd, env);
  }

  lemma CallDoes(db: Db, o: Options, p: Id, cmd: Command, env: Env)
    requires cmd.action.CallNext? && db.game.Some? && |db.game.value.draw| == BALL_COUNT && |db.game.value.calls| <= BALL_COUNT
    ensures var here := db.(clock := env.now);
            var g := db.game.value;
            var n := |g.calls|;
            Mutate(here, o, p, cmd, env) ==
              if g.round.stage.StageActive? && !HasBlockingPresence(Tables(db), env.now) && n < |g.draw| then
                var call := Call(db.nextId, n + 1, g.draw[n], env.now);
                var next := if n + 1 == |g.draw| then None else NextAutomaticCall(g.round.config, env.now);
                Done(WithCall(db, call, next, env.now), Public(Some(g.round.id), CallPayload(call), None))
              else Refused(here)
  {
    hide HasBlockingPresence;
  }

  lemma DrawCovers(g: Game, o: Options, limit: Id, now: Time)
    requires GameOk(g, o, limit, now)
    ensures |g.draw| == BALL_COUNT && |g.calls| <= BALL_COUNT
  {
    hide CardsOk, MarksOk, WinnersOk, RowOk, DeadlineAfterCalls;
  }

  // ---------- setup ----------

  /** Before the first round the setup is kept for it; later only a waiting round takes it, and only a known pattern. */
  lemma ConfigureMeaning(db: Db, o: Options, p: Id, session: Id, cmd: Command, env: Env)
    requires Issued(db, o, p, session, cmd, env) && cmd.action.Configure? && ValidConfig(cmd.action.setup.config)
    ensures var r := Execute(db, o, p, session, cmd, env);
            var setup := cmd.action.setup;
            if !(exists pattern | pattern in o.catalog :: pattern.id == setup.pattern) then r == Refusal(db, env.now)
            else if db.game.None? then
              Publishes(db.(clock := env.now, pending := Some(setup)), r, p, cmd, None, ConfigurationPayload(setup))
            else
              var row := db.game.value.round;
              if row.stage.StageWaiting? then
                var after := row.(initialPattern := setup.pattern, currentPattern := setup.pattern, config := setup.config);
                Publishes(WithRow(db, after, db.status, env.now), r, p, cmd, Some(row.id),
                          StagePayload(Shown(after, PublicWaiting(row.createdAt))))
              else r == Refusal(db, env.now)
  {
    hide Inv, Execute, Publishes, DealFits, GameOk, Mutate, ConfigureMutation;
    IssuedFacts(db, o, p, session, cmd, env);
    PlainDeal(db, cmd, env);
    Outcome(db, o, p, session, cmd, env);
    ConfigureDoes(db, o, p, cmd, env);
  }

  lemma ConfigureDoes(db: Db, o: Options, p: Id, cmd: Command, env: Env)
    requires cmd.action.Configure? && (db.game.Some? ==> GameOk(db.game.value, o, db.nextId, env.now))
    ensures var here := db.(clock := env.now);
            var setup := cmd.action.setup;
            var m := Mutate(here, o, p, cmd, env);
            if !(exists pattern | pattern in o.catalog :: pattern.id == setup.pattern) then m == Refused(here)
            else if db.game.None? then m == Done(here.(pending := Some(setup)), Public(None, ConfigurationPayload(setup), None))
            else
              var row := db.game.value.round;
              if row.stage.StageWaiting? then
                var after := row.(initialPattern := setup.pattern, currentPattern := setup.pattern, config := setup.config);
                m.Fault? || m == Done(WithRow(db, after, db.status, env.now),
                                      Public(Some(row.id), StagePayload(Shown(after, PublicWaiting(row.createdAt))), None))
              else m == Refused(here)
  {
    hide GameOk, FindPattern;
    if db.game.Some? {
      WaitingIsUnstarted(db.game.value, o, db.nextId, env.now);
    }
  }

  lemma WaitingIsUnstarted(g: Game, o: Options, limit: Id, now: Time)
    requires GameOk(g, o, limit, now)
    ensures g.round.stage.StageWaiting? ==> g.round.startedAt.None?
  {
    hide DrawOk, CardsOk, CallsOk, MarksOk, WinnersOk, DeadlineAfterCalls;
  }

  // ---------- new rounds ----------

  function PresentIn(t: P.Tables): set<Id> {
    set p | p in t.participants && t.participants[p].departedAt.None?
  }

  function Players(t: P.Tables): set<Id> {
    set p | p in t.participants && t.participants[p].departedAt.None? && t.participants[p].eligibility.Playing?
  }

  function Enrolled(t: P.Tables): P.Tables {
    t.(participants := map p | p in t.participants ::
         if p in PresentIn(t) then t.participants[p].(eligibility := P.Playing) else t.participants[p])
  }

  /** What expiry leaves, with these tables of people. */
  function WithPeople(db: Db, t: P.Tables, now: Time): Db {
    db.(clock := now, world := db.world.(tables := t))
  }

  ghost function Expired(db: Db, now: Time): P.Tables {
    P.ExpireDue(Tables(db), now)
  }

  function FreshGame(id: Id, pattern: Id, config: CallConfig, deal: Deal, now: Time): Game {
    Game(Round(id, pattern, pattern, StageWaiting, config, now, None, None, None, None, None, None, None, None, None, None),
         deal.draw, deal.cards, [], map[], map[])
  }

  function StartedGame(id: Id, pattern: Id, config: CallConfig, deal: Deal, now: Time): Game {
    Game(Round(id, pattern, pattern, StageActive, config, now, Some(now), Some(now), None, None, NextAutomaticCall(config, now),
               None, None, None, None, None),
         deal.draw, deal.cards, [], map[], map[])
  }

  /** The old round is deleted with everything that refers to it. */
  function Detached(db: Db): Db {
    if db.game.None? then db
    else db.(events := Unlink(db.events, db.game.value.round.id), results := StripRound(db.results, db.game.value.round.id))
  }

  ghost function Created(db: Db, env: Env): Db {
    Detached(WithPeople(db, Enrolled(Expired(db, env.now)), env.now))
      .(status := LobbyWaiting, nextId := env.deal.limit,
        game := Some(FreshGame(db.nextId, STANDARD_ONE_LINE, Manual, env.deal, env.now)))
  }

  predicate RoundOver(db: Db) {
    db.game.Some? ==> db.game.value.round.stage.StageEnded?
  }

  /**
   * Where no round goes on, a new one is created with a card for everybody present, all of whom play; the departures that
   * were due happen in any case.
   */
  lemma CreateMeaning(db: Db, o: Options, p: Id, session: Id, cmd: Command, env: Env)
    requires Issued(db, o, p, session, cmd, env) && cmd.action.CreateRound? && DealFits(db, cmd, env)
    ensures var r := Execute(db, o, p, session, cmd, env);
            if !RoundOver(db) then r == Refusal(db, env.now)
            else if |PresentIn(Expired(db, env.now))| <= MAX_PLAYERS then
              Publishes(Created(db, env), r, p, cmd, Some(db.nextId),
                        StagePayload(PublicRound(db.nextId, STANDARD_ONE_LINE, Manual, PublicWaiting(env.now))))
            else r == Rejected(WithPeople(db, Expired(db, env.now), env.now), InvalidCommand)
  {
    hide Inv, Execute, Publishes, DealFits, Mutate, P.ExpireDue, Created, PresentIn;
    Outcome(db, o, p, session, cmd, env);
    SomebodyPresent(db, o, p, session, env.now);
    OneLineIsThere(o) by { OptionsIn(db, o); }
    CreateDoes(db, o, p, cmd, env);
  }

  lemma OptionsIn(db: Db, o: Options)
    requires Inv(db, o)
    ensures ValidOptions(o)
  {
    hide RowsOk, ResultsOk, WinsOk, LogOk;
  }

  lemma OneLineIsThere(o: Options)
    requires ValidOptions(o)
    ensures Known(o.catalog, STANDARD_ONE_LINE) && ModeOf(o.catalog, STANDARD_ONE_LINE) == OneLine
  {
  }

  lemma SomebodyPresent(db: Db, o: Options, p: Id, session: Id, now: Time)
    requires Inv(db, o) && SignedIn(db, p, session)
    ensures p in PresentIn(Expired(db, now)) && |PresentIn(Expired(db, now))| >= 1
    ensures db.game.None? ==> p in Players(Expired(db, now)) && |Players(Expired(db, now))| >= 1
  {
    hide Inv, P.ExpireDue;
    ActiveStays(db, o, p, session, now);
    SubsetCount({p}, PresentIn(Expired(db, now)));
    if db.game.None? {
      EverybodyPlays(db, o, now, p);
      SubsetCount({p}, Players(Expired(db, now)));
    }
  }

  lemma EverybodyPlays(db: Db, o: Options, now: Time, p: Id)
    requires Inv(db, o) && db.game.None? && p in Tables(db).participants
    ensures p in Expired(db, now).participants && Expired(db, now).participants[p].eligibility.Playing?
  {
    hide A.Accounted, HostOk, ResultsOk, P.Departs, P.Max;
  }

  lemma CreateDoes(db: Db, o: Options, p: Id, cmd: Command, env: Env)
    requires cmd.action.CreateRound? && Known(o.catalog, STANDARD_ONE_LINE) && ModeOf(o.catalog, STANDARD_ONE_LINE) == OneLine
    requires |PresentIn(Expired(db, env.now))| >= 1
    ensures var here := db.(clock := env.now);
            var m := Mutate(here, o, p, cmd, env);
            if !RoundOver(db) then m == Refused(here)
            else if |PresentIn(Expired(db, env.now))| <= MAX_PLAYERS then
              m == Done(Created(db, env),
                        Public(Some(db.nextId), StagePayload(PublicRound(db.nextId, STANDARD_ONE_LINE, Manual, PublicWaiting(env.now))), None))
            else m == Refused(WithPeople(db, Expired(db, env.now), env.now))
    ensures Created(db, env).clock == env.now
  {
    hide P.ExpireDue, Unlink, StripRound, FindPattern;
    var t := Expired(db, env.now);
    assert Q.LiveIds(t) == PresentIn(t);
    assert C.AllPlay(t).participants == Enrolled(t).participants;
  }

  ghost function FirstStarted(db: Db, env: Env): Db
    requires db.pending.Some?
  {
    WithPeople(db, Expired(db, env.now), env.now)
      .(status := LobbyActive, pending := None, nextId := env.deal.limit,
        game := Some(StartedGame(db.nextId, db.pending.value.pattern, db.pending.value.config, env.deal, env.now)))
  }

  /** Without a round the kept setup starts at once for everybody present, whoever is missing. */
  lemma FirstStartMeaning(db: Db, o: Options, p: Id, session: Id, cmd: Command, env: Env)
    requires Issued(db, o, p, session, cmd, env) && cmd.action.StartRound? && db.game.None? && DealFits(db, cmd, env)
    ensures db.pending.Some?
    ensures var r := Execute(db, o, p, session, cmd, env);
            var setup := db.pending.value;
            if |Players(Expired(db, env.now))| <= MAX_PLAYERS then
              Publishes(FirstStarted(db, env), r, p, cmd, Some(db.nextId),
                        StagePayload(PublicRound(db.nextId, setup.pattern, setup.config, PublicActive(env.now))))
            else r == Rejected(WithPeople(db, Expired(db, env.now), env.now), InvalidCommand)
  {
    hide Inv, Execute, Publishes, DealFits, Mutate, P.ExpireDue, FirstStarted, Players;
    Outcome(db, o, p, session, cmd, env);
    SomebodyPresent(db, o, p, session, env.now);
    PendingComplete(db, o);
    FirstStartDoes(db, o, p, cmd, env);
  }

  lemma FirstStartDoes(db: Db, o: Options, p: Id, cmd: Command, env: Env)
    requires cmd.action.StartRound? && db.game.None? && db.pending.Some? && ValidConfig(db.pending.value.config)
    requires Known(o.catalog, db.pending.value.pattern) && |Players(Expired(db, env.now))| >= 1
    ensures var here := db.(clock := env.now);
            var setup := db.pending.value;
            Mutate(here, o, p, cmd, env) ==
              if |Players(Expired(db, env.now))| <= MAX_PLAYERS then
                Done(FirstStarted(db, env),
                     Public(Some(db.nextId), StagePayload(PublicRound(db.nextId, setup.pattern, setup.config, PublicActive(env.now))), None))
              else Refused(WithPeople(db, Expired(db, env.now), env.now))
    ensures FirstStarted(db, env).clock == env.now
  {
    hide P.ExpireDue, FindPattern;
    assert PlayerIds(Expired(db, env.now)) == Players(Expired(db, env.now));
  }

  // ---------- overriding an absence ----------

  /** A present player who is absent in just this generation. */
  predicate AbsentHere(t: P.Tables, p: Id, number: nat) {
    && p in t.participants && t.participants[p].departedAt.None? && t.participants[p].role.Player?
    && p in t.presence && t.presence[p] != []
    && var g := Q.Newest(t, p);
       g.number == number && g.status.Absent? && !g.overridden
  }

  /** The newest generation of `p` is marked as overridden. */
  function Overridden(t: P.Tables, p: Id, now: Time): P.Tables
    requires p in t.presence && t.presence[p] != []
  {
    var n := |t.presence[p]| - 1;
    t.(presence := t.presence[p := t.presence[p][n := Q.Newest(t, p).(overridden := true, changedAt := now)]])
  }

  /** The absence of a player who is still absent in that generation is overridden; what was due departs in any case. */
  lemma OverrideMeaning(db: Db, o: Options, p: Id, session: Id, cmd: Command, env: Env)
    requires Issued(db, o, p, session, cmd, env) && cmd.action.OverrideAbsence?
    ensures var r := Execute(db, o, p, session, cmd, env);
            var t := Expired(db, env.now);
            var target := cmd.action.participant;
            if AbsentHere(t, target, cmd.action.number) then
              var u := Overridden(t, target, env.now);
              Publishes(WithPeople(db, u, env.now), r, p, cmd, None, PresencePayload(target, Q.Newest(u, target)))
            else r == Rejected(WithPeople(db, t, env.now), InvalidCommand)
  {
    hide Inv, Execute, Publishes, DealFits, Mutate, P.ExpireDue, Q.PeopleOk, AbsentHere, Overridden;
    PlainDeal(db, cmd, env);
    IssuedFacts(db, o, p, session, cmd, env);
    Q.ExpireKeeps(Tables(db), env.now);
    Outcome(db, o, p, session, cmd, env);
    OverrideDoes(db, o, p, cmd, env);
  }

  lemma OverrideDoes(db: Db, o: Options, p: Id, cmd: Command, env: Env)
    requires cmd.action.OverrideAbsence? && Q.PeopleOk(Expired(db, env.now))
    ensures var t := Expired(db, env.now);
            var target := cmd.action.participant;
            var m := Mutate(db.(clock := env.now), o, p, cmd, env);
            if AbsentHere(t, target, cmd.action.number) then
              var u := Overridden(t, target, env.now);
              m.Fault? || m == Done(WithPeople(db, u, env.now), Public(None, PresencePayload(target, Q.Newest(u, target)), None))
            else m == Refused(WithPeople(db, t, env.now))
  {
    hide P.ExpireDue, Q.PeopleOk;
    var t := Expired(db, env.now);
    var target := cmd.action.participant;
    if target in t.participants {
      OverridesNewest(t, target, cmd.action.number, env.now);
    } else {
      Q.NoCurrentOutside(t, target);
    }
  }

  lemma OverridesNewest(t: P.Tables, p: Id, number: nat, now: Time)
    requires Q.PeopleOk(t) && p in t.participants
    ensures Q.Overridable(t, p, number) <==> AbsentHere(t, p, number)
    ensures p in t.presence && t.presence[p] != [] && P.Current(t, p).Some?
    ensures Q.Override(t, p, now) == Overridden(t, p, now)
    ensures P.Current(Overridden(t, p, now), p) == Some(Q.Newest(Overridden(t, p, now), p))
  {
    hide P.HasOpenSession, P.HasActiveSession;
    Q.CurrentIsNewest(t, p);
    assert Q.ParticipantOk(t, p);
    Q.OpenIndexIsLast(t.presence[p]);
    Blocking.CurrentAfter(t, p, Q.Newest(t, p).(overridden := true, changedAt := now));
  }

  // ---------- continuing ----------

  /** The pattern is the next one after a start with One Line. */
  predicate FollowsOn(o: Options, r: Round, pattern: Id) {
    && Known(o.catalog, r.initialPattern) && Known(o.catalog, r.currentPattern) && Known(o.catalog, pattern)
    && ModeOf(o.catalog, r.initialPattern) == OneLine
    && (|| (ModeOf(o.catalog, r.currentPattern) == OneLine && ModeOf(o.catalog, pattern) == TwoLines)
        || (ModeOf(o.catalog, r.currentPattern) == TwoLines && ModeOf(o.catalog, pattern) == Blackout))
  }

  /** The stored mark that made `p` a winner also first completed the next pattern through the triggering call. */
  ghost predicate WinsOn(db: Db, o: Options, pattern: Id, p: Id)
    requires db.game.Some?
  {
    exists k :: WinsOnBy(db, o, pattern, p, k)
  }

  ghost predicate WinsOnBy(db: Db, o: Options, pattern: Id, p: Id, k: (Id, Id))
    requires db.game.Some?
  {
    var g := db.game.value;
    && BackedBy(g, db.results, o.catalog, p, k) && p in g.cards && k in db.results
    && db.results[k].body.progress.Some? && db.results[k].body.events != [] && db.results[k].body.events[0].MarkResult?
    && FindPattern(o.catalog, pattern).Some?
    && LC.WonBoth(g, db.results[k], p, FindPattern(o.catalog, pattern).value)
  }

  /** Whoever wins on stays a winner, and then the result stands anew; else the round is active again without a window. */
  function ContinuedRow(r: Round, pattern: Id, winsOn: bool, drawn: bool, now: Time): Round {
    var next := r.(currentPattern := pattern, activeAt := Some(now), pausedAt := None, pauseReason := None);
    if winsOn then next.(stage := StageResult, nextCallAt := None, settledAt := Some(now))
    else next.(stage := StageActive, nextCallAt := if drawn then None else NextAutomaticCall(r.config, now),
               trigger := None, openedAt := None, closesAt := None, settledAt := None)
  }

  /** The stage that is published of it. */
  function ContinuedStage(r: Round, winners: set<Id>): PublicStage
    requires r.startedAt.Some? && (r.stage.StageResult? ==> r.trigger.Some? && r.openedAt.Some? && r.closesAt.Some? && r.settledAt.Some?)
  {
    if r.stage.StageResult? then
      PublicResult(r.startedAt.value, NextContinuationPattern(r.initialPattern, r.currentPattern),
                   WinnerResult(r.trigger.value, r.openedAt.value, r.closesAt.value, r.settledAt.value, winners))
    else PublicActive(r.startedAt.value)
  }

  predicate Settled(r: Round) {
    r.startedAt.Some? && r.trigger.Some? && r.openedAt.Some? && r.closesAt.Some? && r.settledAt.Some?
  }

  ghost function WinnersOn(db: Db, o: Options, pattern: Id): map<Id, Winner>
    requires db.game.Some?
  {
    map w | w in db.game.value.winners && WinsOn(db, o, pattern, w) :: db.game.value.winners[w]
  }

  /** The round after it continued with these winners. */
  function ContinuedGame(g: Game, pattern: Id, winners: map<Id, Winner>, now: Time): Game {
    g.(winners := winners, round := ContinuedRow(g.round, pattern, winners != map[], |g.calls| >= |g.draw|, now))
  }

  ghost function AfterContinue(db: Db, o: Options, pattern: Id, now: Time): (after: Db)
    requires db.game.Some?
    ensures after.clock == now
  {
    db.(clock := now, game := Some(ContinuedGame(db.game.value, pattern, WinnersOn(db, o, pattern), now)))
  }

  ghost function ContinuePayload(db: Db, o: Options, pattern: Id, now: Time): Payload
    requires db.game.Some? && Settled(db.game.value.round)
  {
    var g := ContinuedGame(db.game.value, pattern, WinnersOn(db, o, pattern), now);
    StagePayload(Shown(g.round, ContinuedStage(g.round, g.winners.Keys)))
  }

  predicate MayContinue(o: Options, r: Round, pattern: Id) {
    r.stage.StageResult? && Settled(r) && FollowsOn(o, r, pattern)
  }

  /** A result continues with the pattern that follows on, unless somebody it needs is missing, and keeps exactly those who win on. */
  lemma ContinueMeaning(db: Db, o: Options, p: Id, session: Id, cmd: Command, env: Env)
    requires Issued(db, o, p, session, cmd, env) && cmd.action.ContinueRound? && db.game.Some?
    ensures db.game.value.round.stage.StageResult? ==> Settled(db.game.value.round)
    ensures var r := Execute(db, o, p, session, cmd, env);
            var g := db.game.value;
            var pattern := cmd.action.pattern;
            if MayContinue(o, g.round, pattern) && !Held(Tables(db), env.now) then
              Publishes(AfterContinue(db, o, pattern, env.now), r, p, cmd, Some(g.round.id), ContinuePayload(db, o, pattern, env.now))
            else r == Refusal(db, env.now)
  {
    hide Inv, Execute, Publishes, Held, HasBlockingPresence, DealFits, Mutate, GameOk, AfterContinue, ContinuePayload;
    IssuedFacts(db, o, p, session, cmd, env);
    PlainDeal(db, cmd, env);
    Outcome(db, o, p, session, cmd, env);
    ContinueDoes(db, o, p, cmd, env);
  }

  lemma ContinueDecided(g: Game, o: Options, limit: Id, now: Time, pattern: Id)
    requires GameOk(g, o, limit, now) && Known(o.catalog, pattern)
    ensures Decide(g.round, o.catalog, M.Continue(ModeOf(o.catalog, pattern), now))
            == if g.round.stage.StageResult? && FollowsOn(o, g.round, pattern) then Accepted else Declined
  {
    hide DrawOk, CardsOk, CallsOk, MarksOk, WinnersOk, DeadlineAfterCalls, FindPattern;
  }

  lemma ResultIsSettled(g: Game, o: Options, limit: Id, now: Time)
    requires GameOk(g, o, limit, now) && g.round.stage.StageResult?
    ensures Settled(g.round)
  {
    hide DrawOk, CardsOk, CallsOk, MarksOk, WinnersOk, DeadlineAfterCalls, FindPattern;
  }

  lemma ContinueDoes(db: Db, o: Options, p: Id, cmd: Command, env: Env)
    requires Inv(db.(clock := env.now), o) && cmd.action.ContinueRound? && db.game.Some?
    ensures db.game.value.round.stage.StageResult? ==> Settled(db.game.value.round)
    ensures var here := db.(clock := env.now);
            var g := db.game.value;
            var pattern := cmd.action.pattern;
            var m := Mutate(here, o, p, cmd, env);
            if MayContinue(o, g.round, pattern) && !HasBlockingPresence(Tables(db), env.now) then
              m.Fault? || m == Done(AfterContinue(db, o, pattern, env.now),
                                    Public(Some(g.round.id), ContinuePayload(db, o, pattern, env.now), None))
            else m == Refused(here)
  {
    hide Inv, HasBlockingPresence, GameOk, FollowsOn, Lobby.Continue, AfterContinue, ContinuePayload, Staged;
    var here := db.(clock := env.now);
    var g := db.game.value;
    GameFacts(here, o);
    if g.round.stage.StageResult? { ResultIsSettled(g, o, db.nextId, env.now); }
    ContinueChanges(here, o, cmd.action.pattern);
    if MayContinue(o, g.round, cmd.action.pattern) { ContinuedStaged(here, o, cmd.action.pattern); SameContinuation(db, o, cmd.action.pattern, env.now); }
  }

  lemma SameContinuation(db: Db, o: Options, pattern: Id, now: Time)
    requires db.game.Some? && Settled(db.game.value.round)
    ensures var here := db.(clock := now);
            AfterContinue(here, o, pattern, now) == AfterContinue(db, o, pattern, now)
            && ContinuePayload(here, o, pattern, now) == ContinuePayload(db, o, pattern, now)
  {
    hide BackedBy, LC.WonBoth;
    var here := db.(clock := now);
    forall w ensures WinsOn(here, o, pattern, w) <==> WinsOn(db, o, pattern, w) {
      forall k ensures WinsOnBy(here, o, pattern, w, k) <==> WinsOnBy(db, o, pattern, w, k) {}
    }
    assert WinnersOn(here, o, pattern) == WinnersOn(db, o, pattern);
  }

  lemma ContinuedStaged(db: Db, o: Options, pattern: Id)
    requires db.game.Some? && MayContinue(o, db.game.value.round, pattern)
    ensures var g := db.game.value;
            var m := Staged(db, ContinuedGame(g, pattern, WinnersOn(db, o, pattern), db.clock));
            m.Fault? || m == Done(AfterContinue(db, o, pattern, db.clock),
                                  Public(Some(g.round.id), ContinuePayload(db, o, pattern, db.clock), None))
  {
    hide FollowsOn, WinnersOn;
  }

  /** The code's continuation of the round is this one. */
  lemma ContinueChanges(db: Db, o: Options, pattern: Id)
    requires Inv(db, o) && db.game.Some?
    ensures var g := db.game.value;
            Lobby.Continue(g, db.results, o, pattern, db.clock)
            == if MayContinue(o, g.round, pattern) then Changed(ContinuedGame(g, pattern, WinnersOn(db, o, pattern), db.clock))
               else ChangeRefused
  {
    hide Inv, GameOk, FollowsOn, Lobby.Continue, Decide, WinnersOn, LC.Continued;
    var g := db.game.value;
    GameFacts(db, o);
    ContinueRefused(db, o, pattern, db.clock);
    if g.round.stage.StageResult? { ResultIsSettled(g, o, db.nextId, db.clock); }
    if Known(o.catalog, pattern) {
      ContinueDecided(g, o, db.nextId, db.clock, pattern);
      if MayContinue(o, g.round, pattern) {
        LC.ContinuableHere(db, o, pattern);
        LC.ContinueCommits(g, db.results, o, db.nextId, db.clock, pattern);
        CarriedWinOn(db, o, pattern);
        ContinuedAlike(db, o, pattern);
      }
    }
  }

  lemma ContinueRefused(db: Db, o: Options, pattern: Id, now: Time)
    requires db.game.Some?
    ensures !Known(o.catalog, pattern) ==> Lobby.Continue(db.game.value, db.results, o, pattern, now).ChangeRefused? && !FollowsOn(o, db.game.value.round, pattern)
    ensures Known(o.catalog, pattern) && Decide(db.game.value.round, o.catalog, M.Continue(ModeOf(o.catalog, pattern), now)).Declined? ==>
              Lobby.Continue(db.game.value, db.results, o, pattern, now).ChangeRefused?
  {
    hide Decide, CarryWinner;
  }

  /** The carried winners are those who win on. */
  lemma CarriedWinOn(db: Db, o: Options, pattern: Id)
    requires db.game.Some? && LC.Continuable(db.game.value, db.results, o, db.nextId, db.clock, pattern)
    ensures FindPattern(o.catalog, pattern).Some?
    ensures forall w | w in db.game.value.winners ::
              w in CarriedSet(db.game.value, db.results, FindPattern(o.catalog, pattern).value) <==> WinsOn(db, o, pattern, w)
  {
    hide LC.Continuable, CarryWinner, WinsOnBy;
    var g := db.game.value;
    LC.ContinuableFacts(g, db.results, o, db.nextId, db.clock, pattern);
    forall w | w in g.winners
      ensures CarryWinner(g, db.results, FindPattern(o.catalog, pattern).value, w, g.winners[w]).Carried? <==> WinsOn(db, o, pattern, w)
    {
      CarryIsWinningOn(db, o, pattern, w);
    }
  }

  lemma CarryIsWinningOn(db: Db, o: Options, pattern: Id, w: Id)
    requires db.game.Some? && LC.Continuable(db.game.value, db.results, o, db.nextId, db.clock, pattern) && w in db.game.value.winners
    ensures FindPattern(o.catalog, pattern).Some?
    ensures CarryWinner(db.game.value, db.results, FindPattern(o.catalog, pattern).value, w, db.game.value.winners[w]).Carried?
            <==> WinsOn(db, o, pattern, w)
  {
    hide LC.Continuable, CarryWinner, BackedBy, LC.WonBoth, GameOk, WinsOk, ToDomain, M.Transition;
    var g := db.game.value;
    LC.ContinuableFacts(g, db.results, o, db.nextId, db.clock, pattern);
    var k := LC.WinnerCarries(g, db.results, o, db.nextId, db.clock, pattern, w);
    RecordShape(g, k, db.results[k]);
    if WinsOnBy(db, o, pattern, w, k) { assert WinsOn(db, o, pattern, w); }
    if l :| WinsOnBy(db, o, pattern, w, l) {
      LC.ContinuationModes(g, o, db.nextId, db.clock, pattern);
      BackedOnce(g, db.results, o.catalog, w, k, l);
    }
  }

  lemma RecordShape(g: Game, k: (Id, Id), r: Result)
    requires RecordOk(g, k, r)
    ensures r.body.progress.Some? && r.body.events != [] && r.body.events[0].MarkResult?
  {
    hide ProgressParses, EventsAgree;
  }

  lemma BackedOnce(g: Game, results: map<(Id, Id), Result>, catalog: seq<Pattern>, p: Id, k: (Id, Id), l: (Id, Id))
    requires WinsOk(g, results, catalog) && BackedBy(g, results, catalog, p, k) && BackedBy(g, results, catalog, p, l)
    requires Known(catalog, g.round.currentPattern) ==> ModeOf(catalog, g.round.currentPattern) != Blackout
    ensures k == l
  {
    hide ContextOk, Matches, Backed;
    assert k in Contexts(results, g.round.id, p) && l in Contexts(results, g.round.id, p);
  }

  lemma ContinuedAlike(db: Db, o: Options, pattern: Id)
    requires db.game.Some? && FindPattern(o.catalog, pattern).Some?
    requires forall w | w in db.game.value.winners ::
               w in CarriedSet(db.game.value, db.results, FindPattern(o.catalog, pattern).value) <==> WinsOn(db, o, pattern, w)
    ensures var g := db.game.value;
            LC.Continued(g, pattern, CarriedSet(g, db.results, FindPattern(o.catalog, pattern).value), db.clock)
            == ContinuedGame(g, pattern, WinnersOn(db, o, pattern), db.clock)
  {
    hide CarryWinner, WinsOn;
    var g := db.game.value;
    var carried := CarriedSet(g, db.results, FindPattern(o.catalog, pattern).value);
    var winners := WinnersOn(db, o, pattern);
    assert winners == Keep(g.winners, carried);
    assert winners.Keys == carried;
  }
}
