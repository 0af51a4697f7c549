/** Presence transactions, overrides and new rounds keep the lobby invariant and never throw. */
module LobbyWorld {

  import opened Common
  import opened Rows
  import opened Games
  import opened Marks
  import opened Lobby
  import opened LobbyInv
  import opened LobbySteps
  import M = RoundMachine
  import P = People
  import Q = Presence
  import C = Connections
  import A = Accounting

  // ---------- the roster ----------

  /** Nobody changes role or eligibility, and newcomers are players. */
  predicate RosterKept(t: P.Tables, u: P.Tables, newcomers: P.Eligibility) {
    && (forall p | p in t.participants ::
          && p in u.participants && u.participants[p].role == t.participants[p].role
          && u.participants[p].eligibility == t.participants[p].eligibility
          && (t.participants[p].departedAt.Some? ==> u.participants[p].departedAt.Some?))
    && (forall p | p in u.participants && p !in t.participants ::
          u.participants[p].role.Player? && u.participants[p].eligibility == newcomers)
  }

  lemma ExpiryKeepsRoster(t: P.Tables, now: Time, e: P.Eligibility)
    ensures RosterKept(t, P.ExpireDue(t, now), e)
  {
    hide P.Max;
    forall p | p in t.participants && t.participants[p].departedAt.Some?
      ensures P.ExpireDue(t, now).participants[p] == t.participants[p]
    {
      P.ExpiryDeparts(t, now, p);
    }
  }

  lemma SameParticipants(t: P.Tables, u: P.Tables, v: P.Tables, e: P.Eligibility)
    requires RosterKept(t, u, e) && v.participants == u.participants
    ensures RosterKept(t, v, e)
  {
  }

  lemma OpKeepsRoster(w: C.World, op: C.Op, e: P.Eligibility)
    requires !op.Enroll? && (op.Arrive? ==> op.eligibility == e)
    ensures RosterKept(w.tables, C.Do(w, op).tables, e)
  {
    hide P.ExpireDue, Q.MayConnect, P.Current, RosterKept;
    var t := w.tables;
    var now := TimeOf(op, 0);
    ExpiryKeepsRoster(t, now, e);
    Unchanged(t, e);
    ParticipantsAfter(w, op);
    if op.Arrive? && op.participant !in t.participants {
      ArrivalRoster(t, P.ExpireDue(t, now), op, e);
    }
    SameParticipantsAll(t, P.ExpireDue(t, now), e);
    SameParticipantsAll(t, t, e);
  }

  lemma SameParticipantsAll(t: P.Tables, u: P.Tables, e: P.Eligibility)
    requires RosterKept(t, u, e)
    ensures forall v: P.Tables | v.participants == u.participants :: RosterKept(t, v, e)
  {
  }

  lemma Unchanged(t: P.Tables, e: P.Eligibility)
    ensures RosterKept(t, t, e)
  {
  }

  /** Only expiry and arrivals touch the participant rows. */
  lemma ParticipantsAfter(w: C.World, op: C.Op)
    requires !op.Enroll?
    ensures var u := C.Do(w, op).tables.participants;
            var expired := P.ExpireDue(w.tables, TimeOf(op, 0)).participants;
            || u == w.tables.participants
            || u == expired
            || (op.Arrive? && op.participant !in w.tables.participants
                && u == expired[op.participant := P.Participant(op.username, P.Player, op.eligibility, op.issuedAt, None)])
  {
    hide P.ExpireDue, Q.MayConnect, P.Current, Q.LeaseHolds, Q.Overridable, P.OpenIndex, Q.LiveIds, C.AllPlay;
  }

  lemma ArrivalRoster(t: P.Tables, u: P.Tables, op: C.Op, e: P.Eligibility)
    requires RosterKept(t, u, e) && op.Arrive? && op.eligibility == e && op.participant !in t.participants
    ensures forall v: P.Tables | v.participants == u.participants[op.participant :=
                P.Participant(op.username, P.Player, op.eligibility, op.issuedAt, None)] :: RosterKept(t, v, e)
  {
  }

  predicate NewcomersFit(db: Db, e: P.Eligibility) {
    if db.game.None? then e.Playing? else e.Queued?
  }

  lemma WorldKeeps(db: Db, o: Options, w: C.World, e: P.Eligibility)
    requires Inv(db, o) && A.Accounted(w) && RosterKept(Tables(db), w.tables, e) && NewcomersFit(db, e)
    ensures Inv(db.(world := w), o)
  {
    hide A.Accounted, WinsOk, LogOk, GameOk, WinnersComplete, ResultOk;
    var host :| Hosts(Tables(db), host);
    assert Hosts(w.tables, host);
    if db.game.Some? {
      PlayersKept(Tables(db), w.tables, db.game.value.cards);
    }
  }

  lemma PlayersKept(t: P.Tables, u: P.Tables, cards: map<Id, Card>)
    requires PlayersOk(t, cards) && RosterKept(t, u, P.Queued)
    ensures PlayersOk(u, cards)
  {
  }

  lemma OpKeepsInv(db: Db, o: Options, op: C.Op, e: P.Eligibility)
    requires Inv(db, o) && !op.Enroll? && (op.Arrive? ==> op.eligibility == e) && NewcomersFit(db, e)
    ensures Inv(db.(world := C.Do(db.world, op)), o)
  {
    hide Inv, A.Accounted, C.Do, RosterKept;
    AccountedIn(db, o);
    A.EveryOpAccounted(db.world, op);
    OpKeepsRoster(db.world, op, e);
    WorldKeeps(db, o, C.Do(db.world, op), e);
  }

  lemma AccountedIn(db: Db, o: Options)
    requires Inv(db, o)
    ensures A.Accounted(db.world)
  {
  }

  lemma FitsSome(db: Db) returns (e: P.Eligibility)
    ensures NewcomersFit(db, e)
  {
    e := if db.game.None? then P.Playing else P.Queued;
  }

  lemma ExpiryKeepsInv(db: Db, o: Options, now: Time)
    requires Inv(db, o)
    ensures Inv(WithExpiry(db, now), o)
  {
    hide Inv, C.Do;
    var e := FitsSome(db);
    OpKeepsInv(db, o, C.Expiry(now), e);
  }

  /** Presence transactions never throw. */
  lemma PresenceTransactionOk(db: Db, o: Options, op: C.Op)
    requires Inv(db, o) && db.clock <= TimeOf(op, db.clock) && !op.Enroll?
    ensures var r := ExecutePresence(db, op);
            r.Some? && Inv(r.value, o) && r.value.clock == TimeOf(op, db.clock)
  {
    hide Inv, C.Do, Announced, PauseForAbsence, NewcomersFit;
    var resolved := Resolved(db, op);
    var now := TimeOf(resolved, db.clock);
    Tick(db, o, now);
    var e := FitsSome(db);
    ResolvedFits(db, op, e);
    var after := db.(clock := now, world := C.Do(db.world, resolved));
    OpKeepsInv(db.(clock := now), o, resolved, e);
    if Announced(db.world, resolved).Some? {
      var (p, g) := Announced(db.world, resolved).value;
      AppendKeeps(after, o, None, PresencePayload(p, g), now);
      AbsencePauses(Append(after, None, PresencePayload(p, g), now), o, p);
    }
  }

  lemma ResolvedFits(db: Db, op: C.Op, e: P.Eligibility)
    requires NewcomersFit(db, e)
    ensures NewcomersFit(db.(clock := TimeOf(Resolved(db, op), db.clock)), e)
    ensures Resolved(db, op).Arrive? ==> Resolved(db, op).eligibility == e
    ensures Resolved(db, op).Enroll? <==> op.Enroll?
    ensures TimeOf(Resolved(db, op), db.clock) == TimeOf(op, db.clock)
  {
  }

  lemma AbsencePauses(db: Db, o: Options, p: Id)
    requires Inv(db, o)
    ensures var r := PauseForAbsence(db, p, db.clock);
            r.Some? && Inv(r.value, o) && r.value.clock == db.clock
  {
    hide Inv, GameOk, PauseRow, Publish, ShouldPause;
    if db.game.Some? && ShouldPause(Tables(db), p, db.game.value.round) {
      PauseCases(db, p);
      var reason := if Tables(db).participants[p].role.Host? then M.HostAbsent else M.ParticipantAbsent;
      PausedOk(db, o, reason);
      var paused := db.(game := Some(db.game.value.(round := PauseRow(db.game.value.round, reason, db.clock))));
      GameFacts(paused, o);
      PublishesOk(paused.game.value, o, paused.nextId, paused.clock);
      AppendKeeps(paused, o, Some(db.game.value.round.id), StagePayload(Publish(paused.game.value).value), db.clock);
    }
  }

  lemma PauseCases(db: Db, p: Id)
    requires db.game.Some? && ShouldPause(Tables(db), p, db.game.value.round)
    ensures p in Tables(db).participants
    ensures db.game.value.round.stage.StageActive?
         || (db.game.value.round.stage.StagePaused? && Tables(db).participants[p].role.Host?)
  {
  }

  lemma PausedOk(db: Db, o: Options, reason: M.PauseReason)
    requires Inv(db, o) && db.game.Some?
    requires db.game.value.round.stage.StageActive? || (db.game.value.round.stage.StagePaused? && reason == M.HostAbsent)
    ensures Inv(db.(game := Some(db.game.value.(round := PauseRow(db.game.value.round, reason, db.clock)))), o)
  {
    hide Inv, GameOk;
    GameFacts(db, o);
    var g := db.game.value;
    if g.round.stage.StageActive? {
      ActivePauses(g, o, db.nextId, db.clock, reason);
      PauseStep(g, o, db.nextId, db.clock, reason, db.clock);
    } else {
      PromoteStep(g, o, db.nextId, db.clock, db.clock);
    }
    QuietKeeps(db, o, g.(round := PauseRow(g.round, reason, db.clock)), db.status, db.nextId);
  }

  lemma ActivePauses(g: Game, o: Options, limit: Id, clock: Time, reason: M.PauseReason)
    requires GameOk(g, o, limit, clock) && g.round.stage.StageActive?
    ensures Decide(g.round, o.catalog, M.Pause(reason, clock)).Accepted?
  {
  }

  // ---------- overrides ----------

  lemma OverrideOk(db: Db, o: Options, p: Id, number: nat)
    requires Inv(db, o)
    ensures PlainOutcome(db, OverrideMutation(db, p, number, db.clock), o)
  {
    hide Inv, C.Do, NewcomersFit, Q.Overridable;
    var e := FitsSome(db);
    OpKeepsInv(db, o, C.OverrideAbsence(p, number, db.clock), e);
    var after := db.(world := C.Do(db.world, C.OverrideAbsence(p, number, db.clock)));
    if Q.Overridable(Tables(WithExpiry(db, db.clock)), p, number) {
      OverriddenIsAbsent(db, o, p, number);
    }
  }

  lemma OverriddenIsAbsent(db: Db, o: Options, p: Id, number: nat)
    requires Inv(db, o) && Q.Overridable(Tables(WithExpiry(db, db.clock)), p, number)
    ensures var g := P.Current(C.Do(db.world, C.OverrideAbsence(p, number, db.clock)).tables, p);
            g.Some? && g.value.status.Absent? && g.value.absentSince.Some? && g.value.overridden && g.value.number == number
  {
    hide A.SocketOk, A.CountOk, P.ExpireDue, ResultsOk, WinsOk, LogOk, GameOk, HostOk, PlayersOk, WinnersComplete,
         P.HasOpenSession, P.HasActiveSession, EventsOk, StatusOk;
    AccountedIn(db, o);
    A.AccountedPeople(db.world);
    Q.ExpireKeeps(Tables(db), db.clock);
    OverrideIsAbsent(P.ExpireDue(Tables(db), db.clock), p, number, db.clock);
  }

  lemma OverrideIsAbsent(t: P.Tables, p: Id, number: nat, now: Time)
    requires Q.PeopleOk(t) && Q.Overridable(t, p, number)
    ensures var g := P.Current(Q.Override(t, p, now), p);
            g.Some? && g.value.status.Absent? && g.value.absentSince.Some? && g.value.overridden && g.value.number == number
  {
    hide P.HasOpenSession, P.HasActiveSession;
    Q.CurrentIsNewest(t, p);
    assert Q.ParticipantOk(t, p);
    Q.OpenIndexIsLast(t.presence[p]);
    var gens := Q.Override(t, p, now).presence[p];
    assert gens[|gens| - 1].endedAt.None?;
  }

  // ---------- new rounds ----------

  /** What the generators supply fits the players that the command will find. */
  ghost predicate DealFits(db: Db, cmd: Command, env: Env) {
    && (cmd.action.CreateRound? ==> ValidDeal(env.deal, Q.LiveIds(Tables(WithExpiry(db, env.now))), db.nextId))
    && (cmd.action.StartRound? && db.game.None? ==>
          ValidDeal(env.deal, PlayerIds(Tables(WithExpiry(db, env.now))), db.nextId))
  }

  /** An active session keeps its participant through expiry. */
  lemma ActiveStays(db: Db, o: Options, p: Id, session: Id, now: Time)
    requires Inv(db, o) && Authenticated(db, p, session)
    ensures P.Live(Tables(WithExpiry(db, now)), p)
  {
    hide Inv, A.Accounted, P.Max;
    var t := Tables(db);
    assert P.HasActiveSession(t, p);
    Q.ActiveSurvives(t, now, p);
    P.ExpiryDeparts(t, now, p);
  }

  predicate Playable(n: nat) {
    1 <= n <= MAX_PLAYERS
  }

  lemma NewGameOk(o: Options, id: Id, setup: Setup, deal: Deal, row: Round, players: set<Id>, clock: Time)
    requires ValidDeal(deal, players, id) && Playable(|players|)
    requires RowOk(row, o.catalog, clock) && row.id == id && WindowUnset(row)
    ensures var g := NewGame(id, setup, deal, row);
            && GameOk(g, o, deal.limit, clock) && WinnersComplete(g, o.catalog)
            && g.winners == map[] && g.cards.Keys == players && g.round == row
  {
    hide RowOk, ValidCells, DrawOk;
    assert |deal.cards| == |deal.cards.Keys|;
  }

  /** The other rows of the lobby around a new round. */
  ghost predicate CleanSlate(db: Db, o: Options, id: Id) {
    && ValidOptions(o) && A.Accounted(db.world) && HostOk(Tables(db)) && EventsOk(db)
    && (forall k | k in db.results :: FormatOk(k, db.results[k], db.lastSequence, db.clock) && db.results[k].roundId.None?)
    && (forall e | e in db.log :: e.round < id)
  }

  lemma NewRoundInv(db: Db, o: Options, id: Id, g: Game)
    requires CleanSlate(db, o, id) && id == g.round.id && id < db.nextId
    requires GameOk(g, o, db.nextId, db.clock) && WinnersComplete(g, o.catalog) && g.winners == map[]
    requires PlayersOk(Tables(db), g.cards) && StatusOk(db.(game := Some(g)))
    ensures Inv(db.(game := Some(g)), o)
  {
    hide A.Accounted, HostOk, PlayersOk, GameOk, WinsOk, LogOk, FormatOk, StatusOk, RecordOk;
    BlankWins(g, db.results, o.catalog);
    BlankLog(g, db.log, o.catalog);
  }

  lemma CreateOk(db: Db, o: Options, p: Id, env: Env)
    requires Inv(db, o) && env.now == db.clock
    requires P.Live(Tables(WithExpiry(db, env.now)), p) && Tables(db).participants[p].role.Host?
    requires p in Tables(db).participants
    requires ValidDeal(env.deal, Q.LiveIds(Tables(WithExpiry(db, env.now))), db.nextId)
    ensures PlainOutcome(db, CreateMutation(db, o, env), o)
  {
    hide Inv, Staged, C.Do, Q.LiveIds, P.Live, ValidDeal, StripRound, Unlink, NewGame, WaitingRow, ModeOf, Known, Cleared;
    ExpiryKeepsInv(db, o, env.now);
    ClearedShape(db, WithExpiry(db, env.now));
    if Playable(|Q.LiveIds(Tables(WithExpiry(db, env.now)))|) && Known(o.catalog, STANDARD_ONE_LINE) {
      CreatedOk(db, o, p, env);
    }
  }

  function CreatedBase(cleared: Db, env: Env, w: C.World): Db {
    cleared.(status := LobbyWaiting, nextId := env.deal.limit, world := w)
  }

  lemma CreatedOk(db: Db, o: Options, p: Id, env: Env)
    requires Inv(db, o) && env.now == db.clock && Known(o.catalog, STANDARD_ONE_LINE)
    requires P.Live(Tables(WithExpiry(db, env.now)), p) && p in Tables(db).participants
    requires Tables(db).participants[p].role.Host?
    requires var players := Q.LiveIds(Tables(WithExpiry(db, env.now)));
             ValidDeal(env.deal, players, db.nextId) && Playable(|players|)
    ensures var expired := WithExpiry(db, env.now);
            PlainOutcome(db, Staged(CreatedBase(Cleared(expired), env, C.Do(expired.world, C.Enroll)),
              NewGame(db.nextId, Setup(STANDARD_ONE_LINE, Manual), env.deal,
                      WaitingRow(db.nextId, STANDARD_ONE_LINE, Manual, env.now))), o)
  {
    hide Inv, Staged, C.Do, Q.LiveIds, P.Live, ValidDeal, StripRound, Unlink, NewGame, WaitingRow, ModeOf, Known, Cleared,
         PlainOutcome, RowOk, GameOk, PlayersOk, CleanSlate, WinnersComplete, Hosts, StatusOk;
    var now := env.now;
    var expired := WithExpiry(db, now);
    ExpiryKeepsInv(db, o, now);
    var players := Q.LiveIds(Tables(expired));
    var row := WaitingRow(db.nextId, STANDARD_ONE_LINE, Manual, now);
    var setup := Setup(STANDARD_ONE_LINE, Manual);
    WaitingRowOk(o, db.nextId, STANDARD_ONE_LINE, Manual, now);
    NewGameOk(o, db.nextId, setup, env.deal, row, players, now);
    var cleared := Cleared(expired);
    ClearedOk(expired, o);
    ClearedShape(db, expired);
    var base := CreatedBase(cleared, env, C.Do(expired.world, C.Enroll));
    EnrolledOk(cleared, base, o, db.nextId);
    var g := NewGame(db.nextId, setup, env.deal, row);
    HostRow(db, o, p, now);
    EveryoneEnrolled(Tables(expired), g.cards, p);
    LimitGrows(env.deal, players, db.nextId);
    WaitingStatus(base, g, row);
    NewRoundInv(base, o, db.nextId, g);
    StagedOk(base, db, g, o);
  }

  function Cleared(db: Db): Db {
    if db.game.None? then db
    else db.(events := Unlink(db.events, db.game.value.round.id), results := StripRound(db.results, db.game.value.round.id))
  }

  lemma ClearedShape(db: Db, expired: Db)
    requires expired == WithExpiry(db, db.clock)
    ensures Cleared(expired) == if db.game.None? then expired
      else expired.(events := Unlink(db.events, db.game.value.round.id), results := StripRound(db.results, db.game.value.round.id))
    ensures Cleared(expired).results.Keys == db.results.Keys
  {
  }

  lemma WaitingRowOk(o: Options, id: Id, pattern: Id, config: CallConfig, now: Time)
    requires Known(o.catalog, pattern) && ValidConfig(config)
    ensures var row := WaitingRow(id, pattern, config, now);
            RowOk(row, o.catalog, now) && WindowUnset(row) && row.id == id && row.stage.StageWaiting?
  {
  }

  lemma ClearedOk(db: Db, o: Options)
    requires Inv(db, o)
    ensures CleanSlate(Cleared(db), o, db.nextId)
  {
    hide A.Accounted, HostOk, PlayersOk, GameOk, WinsOk, LogOk, RecordOk, WinnersComplete;
    var c := Cleared(db);
    forall k | k in c.results
      ensures FormatOk(k, c.results[k], c.lastSequence, c.clock) && c.results[k].roundId.None?
    {
      assert ResultOk(db.game, k, db.results[k], db.lastSequence, db.clock);
    }
  }

  lemma EnrolledOk(db: Db, base: Db, o: Options, id: Id)
    requires CleanSlate(db, o, id)
    requires base == db.(status := base.status, nextId := base.nextId, world := C.Do(db.world, C.Enroll))
    ensures CleanSlate(base, o, id)
    ensures Tables(base) == C.AllPlay(Tables(db))
  {
    hide A.Accounted, FormatOk;
    A.EveryOpAccounted(db.world, C.Enroll);
    var host :| Hosts(Tables(db), host);
    assert Hosts(Tables(base), host);
  }

  lemma HostRow(db: Db, o: Options, p: Id, now: Time)
    requires Inv(db, o) && p in Tables(db).participants && Tables(db).participants[p].role.Host?
    requires P.Live(Tables(WithExpiry(db, now)), p)
    ensures var u := Tables(WithExpiry(db, now));
            p in Q.LiveIds(u) && Hosts(u, p)
  {
    hide A.Accounted, PlayersOk, GameOk, WinsOk, LogOk, ResultsOk, WinnersComplete, P.ExpireDue;
    ExpiryKeepsRoster(Tables(db), now, P.Playing);
    SameIds(Tables(db), now);
    var host :| Hosts(Tables(db), host);
  }

  lemma SameIds(t: P.Tables, now: Time)
    ensures P.ExpireDue(t, now).participants.Keys == t.participants.Keys
  {
  }

  /** After everybody present was enrolled, cards for exactly those present fit. */
  lemma EveryoneEnrolled(t: P.Tables, cards: map<Id, Card>, host: Id)
    requires cards.Keys == Q.LiveIds(t) && host in Q.LiveIds(t) && Hosts(t, host)
    ensures PlayersOk(C.AllPlay(t), cards)
  {
    var u := C.AllPlay(t);
    forall p | p in cards ensures p in u.participants && u.participants[p].eligibility.Playing? {
      assert p in Q.LiveIds(t);
    }
    forall p | p in u.participants && u.participants[p].departedAt.None? && u.participants[p].eligibility.Playing?
      ensures p in cards
    {
      assert p in Q.LiveIds(t);
    }
    forall p | p in u.participants && u.participants[p].role.Host? ensures p in cards {
      assert p == host;
    }
  }

  lemma LimitGrows(deal: Deal, players: set<Id>, id: Id)
    requires ValidDeal(deal, players, id)
    ensures id < deal.limit
  {
  }

  lemma WaitingStatus(base: Db, g: Game, row: Round)
    requires base.status.LobbyWaiting? && g.round == row && row.stage.StageWaiting?
    ensures StatusOk(base.(game := Some(g)))
  {
  }

  lemma FirstStartOk(db: Db, o: Options, p: Id, env: Env)
    requires Inv(db, o) && env.now == db.clock && db.game.None?
    requires P.Live(Tables(WithExpiry(db, env.now)), p) && p in Tables(db).participants && Tables(db).participants[p].role.Host?
    requires ValidDeal(env.deal, PlayerIds(Tables(WithExpiry(db, env.now))), db.nextId)
    ensures PlainOutcome(db, FirstStart(db, o, env), o)
  {
    hide Inv, Staged, C.Do, Q.LiveIds, P.Live, ValidDeal, DrawOk, NewGame, WaitingRow, StartRow, PlayerIds, RoundlessOk;
    var now := env.now;
    var expired := WithExpiry(db, now);
    ExpiryKeepsInv(db, o, now);
    PendingComplete(db, o);
    var setup := db.pending.value;
    var players := PlayerIds(Tables(expired));
    if Playable(|players|) {
      FirstRowOk(o, db.nextId, setup, now);
      var row := StartRow(WaitingRow(db.nextId, setup.pattern, setup.config, now), now);
      NewGameOk(o, db.nextId, setup, env.deal, row, players, now);
      ClearedOk(expired, o);
      var base := expired.(status := LobbyActive, pending := None, nextId := env.deal.limit);
      SlateMoves(expired, base, o, db.nextId);
      var g := NewGame(db.nextId, setup, env.deal, row);
      EveryoneStarts(expired, o, g.cards, p) by { HostRow(db, o, p, now); }
      LimitGrows(env.deal, players, db.nextId);
      ActiveStatus(base, g);
      NewRoundInv(base, o, db.nextId, g);
      StagedOk(base, db, g, o);
    }
  }

  lemma PendingComplete(db: Db, o: Options)
    requires Inv(db, o) && db.game.None?
    ensures db.pending.Some? && ValidConfig(db.pending.value.config) && Known(o.catalog, db.pending.value.pattern)
  {
  }

  /** The pending setup starts as the machine starts a fresh waiting round. */
  lemma FirstRowOk(o: Options, id: Id, setup: Setup, now: Time)
    requires Known(o.catalog, setup.pattern) && ValidConfig(setup.config)
    ensures var waiting := WaitingRow(id, setup.pattern, setup.config, now);
            var row := StartRow(waiting, now);
            && RowOk(row, o.catalog, now) && WindowUnset(row) && row.id == id && row.stage.StageActive?
            && ToDomain(waiting, o.catalog) == Some(M.NewRound(ModeOf(o.catalog, setup.pattern), now))
            && Steps(waiting, M.Start(now), row, o.catalog)
  {
  }

  lemma SlateMoves(db: Db, base: Db, o: Options, id: Id)
    requires CleanSlate(Cleared(db), o, id) && db.game.None?
    requires base == db.(status := base.status, pending := base.pending, nextId := base.nextId)
    ensures CleanSlate(base, o, id)
  {
    hide A.Accounted, FormatOk, HostOk;
  }

  lemma EveryoneStarts(db: Db, o: Options, cards: map<Id, Card>, host: Id)
    requires Inv(db, o) && db.game.None? && cards.Keys == PlayerIds(Tables(db))
    requires host in Q.LiveIds(Tables(db)) && Hosts(Tables(db), host)
    ensures PlayersOk(Tables(db), cards)
  {
    hide A.Accounted, ResultsOk, EventsOk;
    var t := Tables(db);
    assert host in PlayerIds(t);
    forall p | p in cards ensures p in t.participants && t.participants[p].eligibility.Playing? {
      assert p in PlayerIds(t);
    }
    forall p | p in t.participants && t.participants[p].departedAt.None? && t.participants[p].eligibility.Playing?
      ensures p in cards
    {
      assert p in PlayerIds(t);
    }
    forall p | p in t.participants && t.participants[p].role.Host? ensures p in cards {
      assert p == host;
    }
  }

  lemma ActiveStatus(base: Db, g: Game)
    requires base.status.LobbyActive? && g.round.stage.StageActive?
    ensures StatusOk(base.(game := Some(g)))
  {
  }
}
