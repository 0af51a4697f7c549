/** The end of that run: the round ends, a card holder departs, a newcomer joins, and the newcomer's snapshot breaks a rule. */
module Squeezing {

  import opened Common
  import opened Rows
  import opened Games
  import opened Lobby
  import opened LobbyInv
  import opened Transactions
  import opened Snapshots
  import opened Gathering
  import opened SharedColumn
  import opened EverybodyWins
  import LobbySteps
  import SR = SnapshotRules
  import RR = RoundRuns
  import M = RoundMachine
  import P = People
  import Q = Presence
  import C = Connections

  /** The card holder who departs, and the newcomer. */
  const LEAVER: Id := 24
  const VIEWER: Id := 25

  // ---------- settlement and end ----------

  predicate AllWon(g: Game, stage: Stage) {
    SharedColumn.Dealt(g) && g.round.stage == stage && g.winners.Keys == Below(MAX_PLAYERS)
  }

  predicate Over(db: Db, stage: Stage) {
    Seated(db) && db.game.Some? && AllWon(db.game.value, stage)
  }

  function EndsAt(o: Options): Time {
    MARKED_AT + o.windowMs
  }

  const LAST_ID := COLUMN_BALLS + 1 + COLUMN_BALLS * MAX_PLAYERS

  lemma WindowOpen(db: Db, o: Options) returns (trigger: Id)
    requires Inv(db, o) && Marking(db, o, MAX_PLAYERS, 0)
    ensures db.game.Some?
    ensures var r := db.game.value.round;
            r.id == 1 && r.stage.StageWindow? && r.trigger == Some(trigger) && r.closesAt == Some(EndsAt(o))
  {
    hide Inv, TheDeal, Draw, Seated, MarkedSoFar;
    LobbySteps.GameFacts(db, o);
    trigger := WindowTrigger(db.game.value, o, db.nextId, db.clock);
  }

  lemma WindowTrigger(g: Game, o: Options, limit: Id, clock: Time) returns (trigger: Id)
    requires GameOk(g, o, limit, clock) && g.round.stage.StageWindow?
    ensures g.round.trigger == Some(trigger)
  {
    hide DrawOk, CardsOk, CallsOk, MarksOk, WinnersOk, DeadlineAfterCalls;
    trigger := g.round.trigger.value;
  }

  lemma Settling(o: Options) returns (db: Db)
    requires Shipped(o)
    ensures At(db, o) && Over(db, StageResult) && Unused(db, LAST_ID) && db.clock == EndsAt(o)
  {
    hide Reached, Inv, Marking, Shipped, Seated, Next, TheDeal, ExecuteSettlement;
    var before := EverybodyHasWon(o);
    var trigger := WindowOpen(before, o);
    var lease := WindowLease(1, trigger, EndsAt(o));
    GoesOn(before, o, SettleTx(lease, EndsAt(o)));
    db := Next(before, o, SettleTx(lease, EndsAt(o))).value;
    RR.SettlesNow(before, o, lease, EndsAt(o));
    SettledRows(before, o, lease, db);
  }

  lemma SettledRows(before: Db, o: Options, lease: WindowLease, db: Db)
    requires Marking(before, o, MAX_PLAYERS, 0) && Next(before, o, SettleTx(lease, EndsAt(o))) == Some(db)
    requires Unused(before, MarkId(MAX_PLAYERS, 0))
    requires ExecuteSettlement(before, o, lease, EndsAt(o)).Settled?
    requires ExecuteSettlement(before, o, lease, EndsAt(o)).db.game
             == Some(before.game.value.(round := SettleRow(before.game.value.round, EndsAt(o))))
    ensures Over(db, StageResult) && Unused(db, LAST_ID)
  {
    hide TheDeal, Draw, Decide, ValidResult, Online, Sockets, Below, MarkedSoFar;
  }

  predicate Finishes(m: Mutation) {
    !m.Refused? && (m.Done? ==> Over(m.db, StageEnded))
  }

  lemma EndDone(db: Db, o: Options)
    requires Inv(db, o) && Over(db, StageResult)
    ensures Finishes(Mutate(db, o, 0, Command(LAST_ID, EndRound), EnvAt(db.clock)))
  {
    hide Inv, Dealt, Publish, Decide, Seated, GameOk, TheDeal, Below, FirstStart, MarkMutation;
    LobbySteps.GameFacts(db, o);
    EndAccepted(db.game.value, o, db.nextId, db.clock);
    EndKeeps(db);
  }

  lemma EndKeeps(db: Db)
    requires Over(db, StageResult)
    ensures Over(db.(status := LobbyWaiting, game := Some(db.game.value.(round := EndRow(db.game.value.round, db.clock)))), StageEnded)
  {
    hide TheDeal, Draw, Below;
  }

  lemma EndAccepted(g: Game, o: Options, limit: Id, clock: Time)
    requires GameOk(g, o, limit, clock) && g.round.stage.StageResult?
    ensures Decide(g.round, o.catalog, M.End(clock)).Accepted?
  {
    hide DrawOk, CardsOk, CallsOk, MarksOk, WinnersOk, DeadlineAfterCalls, FindPattern;
  }

  lemma Ending(o: Options) returns (db: Db)
    requires Shipped(o)
    ensures At(db, o) && Over(db, StageEnded) && db.clock == EndsAt(o)
  {
    hide Reached, Inv, Over, Shipped, Seated, Next, TheDeal, Mutate;
    var before := Settling(o);
    assert before.(clock := before.clock) == before;
    EndDone(before, o);
    OverRows(before, StageResult);
    Commits(before, o, 0, LAST_ID, EndRound, EndsAt(o));
    db := Next(before, o, Order(0, LAST_ID, EndRound, EndsAt(o))).value;
    SameOver(Mutate(before, o, 0, Command(LAST_ID, EndRound), EnvAt(EndsAt(o))).db, db, StageEnded);
  }

  lemma OverRows(db: Db, stage: Stage)
    requires Over(db, stage)
    ensures Seated(db)
  {
  }

  lemma SameOver(db: Db, next: Db, stage: Stage)
    requires Over(db, stage) && next.game == db.game && next.world == db.world
    ensures Over(next, stage)
  {
  }

  // ---------- one leaves ----------

  /** The leaver's only socket was released; the session may be resumed until then. */
  predicate LeftUntil(t: P.Tables, until: Time) {
    && t.participants == Online(MAX_PLAYERS).participants
    && t.sessions == Online(MAX_PLAYERS).sessions[LEAVER := P.Session(LEAVER, P.SessionDisconnected, Some(until), None)]
    && t.presence.Keys == Below(MAX_PLAYERS)
  }

  lemma Leaves(now: Time, rejoinMs: nat, graceMs: nat)
    ensures var c := Q.Unregister(Online(MAX_PLAYERS), LEAVER, LEAVER, 2, LEAVER, now, rejoinMs, graceMs);
            LeftUntil(c.tables, now + rejoinMs) && c.announced.Some?
  {
    hide Below, First, Arrived, P.ExpireDue;
    var t := Online(MAX_PLAYERS);
    Playing(t);
    LeaverRows();
    var u := Q.Disconnect(t, LEAVER, LEAVER, now, rejoinMs);
    assert P.OpenIndex(t.presence[LEAVER]) == 1;
    assert u.presence == t.presence;
  }

  lemma LeaverRows()
    ensures var t := Online(MAX_PLAYERS);
            && LEAVER in t.sessions && t.sessions[LEAVER] == SessionOf(LEAVER) && P.Live(t, LEAVER)
            && LEAVER in t.presence && t.presence[LEAVER] == GenerationsOf(LEAVER, MAX_PLAYERS)
            && t.presence.Keys == Below(MAX_PLAYERS)
    ensures LEAVER in Sockets(MAX_PLAYERS) && Sockets(MAX_PLAYERS)[LEAVER] == C.Socket(LEAVER, LEAVER, 2)
  {
    hide Below, First;
  }

  lemma LeaveNext(db: Db, o: Options, rejoinMs: nat, graceMs: nat)
    requires Over(db, StageEnded)
    ensures var next := Next(db, o, PresenceTx(C.Release(LEAVER, LEAVER, db.clock, rejoinMs, graceMs)));
            next.Some? && next.value.game == db.game && LeftUntil(Tables(next.value), db.clock + rejoinMs)
  {
    hide Online, Sockets, LeftUntil, Q.Unregister, AllWon;
    Leaves(db.clock, rejoinMs, graceMs);
    LeaverRows();
  }

  lemma Leaving(o: Options, rejoinMs: nat, graceMs: nat) returns (db: Db)
    requires Shipped(o)
    ensures At(db, o) && db.game.Some? && AllWon(db.game.value, StageEnded) && db.clock == EndsAt(o)
    ensures LeftUntil(Tables(db), EndsAt(o) + rejoinMs)
  {
    hide Reached, Inv, Shipped, Next, AllWon, LeftUntil, Seated;
    var before := Ending(o);
    LeaveNext(before, o, rejoinMs, graceMs);
    var tx := PresenceTx(C.Release(LEAVER, LEAVER, before.clock, rejoinMs, graceMs));
    GoesOn(before, o, tx);
    db := Next(before, o, tx).value;
  }

  // ---------- another comes ----------

  /** Expiry makes the leaver depart and touches nobody else. */
  lemma Departs(t: P.Tables, until: Time)
    requires LeftUntil(t, until)
    ensures var u := P.ExpireDue(t, until);
            && u.participants.Keys == Below(MAX_PLAYERS) && u.sessions.Keys == Below(MAX_PLAYERS)
            && (forall p: Id | p < MAX_PLAYERS ::
                  && u.participants[p].username == p && u.participants[p].role == RoleOf(p)
                  && (u.participants[p].departedAt.Some? <==> p == LEAVER))
  {
    hide P.ExpireDue, Below, First, Online, P.Departs, P.Deadlines;
    LeftRows(t, until);
    var u := P.ExpireDue(t, until);
    ExpiredKeys(t, until);
    forall p: Id | p < MAX_PLAYERS
      ensures u.participants[p].username == p && u.participants[p].role == RoleOf(p)
              && (u.participants[p].departedAt.Some? <==> p == LEAVER)
    {
      P.ExpiryDeparts(t, until, p);
      ExpiredRow(t, until, p);
      DueOrNot(t, until, p);
    }
  }

  lemma LeftRows(t: P.Tables, until: Time)
    requires LeftUntil(t, until)
    ensures t.participants.Keys == Below(MAX_PLAYERS) && t.sessions.Keys == Below(MAX_PLAYERS)
    ensures forall p: Id | p < MAX_PLAYERS ::
              t.participants[p] == P.Participant(p, RoleOf(p), P.Playing, 0, None)
              && t.sessions[p] == if p == LEAVER then P.Session(LEAVER, P.SessionDisconnected, Some(until), None) else SessionOf(p)
  {
    hide First;
  }

  lemma ExpiredKeys(t: P.Tables, now: Time)
    ensures P.ExpireDue(t, now).participants.Keys == t.participants.Keys && P.ExpireDue(t, now).sessions.Keys == t.sessions.Keys
  {
  }

  lemma ExpiredRow(t: P.Tables, now: Time, p: Id)
    requires p in t.participants
    ensures var q := P.ExpireDue(t, now).participants[p]; q.username == t.participants[p].username && q.role == t.participants[p].role
  {
  }

  lemma DueOrNot(t: P.Tables, until: Time, p: Id)
    requires LeftUntil(t, until) && p < MAX_PLAYERS && p in t.participants
    ensures P.Deadlines(t, p, until) != {} && !P.HasOpenSession(P.ExpireDue(t, until), p) <==> p == LEAVER
  {
    hide First, Online, Below, P.Departs, P.Max;
    LeftRows(t, until);
    if p == LEAVER {
      P.DueListed(t, until, LEAVER);
    }
  }

  function Newcomer(now: Time): C.Op {
    C.Arrive(VIEWER, VIEWER, VIEWER, P.Queued, now, MAX_PLAYERS, now)
  }

  /** Who is there at the end. */
  predicate Crowd(t: P.Tables) {
    && t.participants.Keys == Below(MAX_PLAYERS + 1)
    && (forall p | p in t.participants :: t.participants[p].role == RoleOf(p))
    && P.Live(t, VIEWER) && t.participants[VIEWER].eligibility.Queued?
    && VIEWER in t.sessions && t.sessions[VIEWER] == SessionOf(VIEWER)
  }

  lemma Comes(w: C.World, until: Time)
    requires LeftUntil(w.tables, until)
    ensures Crowd(C.Do(w, Newcomer(until)).tables)
  {
    hide P.ExpireDue, LeftUntil, Below, First, P.Live;
    LeftRows(w.tables, until);
    Departs(w.tables, until);
    BelowCount(LEAVER);
    var u := P.ExpireDue(w.tables, until);
    assert Q.LiveIds(u) == Below(LEAVER);
    ComesIn(u, until);
  }

  lemma ComesIn(u: P.Tables, now: Time)
    requires u.participants.Keys == Below(MAX_PLAYERS) && forall p: Id | p < MAX_PLAYERS :: u.participants[p].role == RoleOf(p)
    ensures Crowd(Q.AddParticipant(u, VIEWER, P.Participant(VIEWER, P.Player, P.Queued, now, None), VIEWER))
  {
    hide First;
  }

  lemma ComeNext(db: Db, o: Options, until: Time)
    requires db.game.Some? && LeftUntil(Tables(db), until) && db.clock <= until
    ensures var next := Next(db, o, PresenceTx(Newcomer(until)));
            next.Some? && next.value.game == db.game && Crowd(Tables(next.value))
  {
    hide C.Do, LeftUntil, Crowd;
    Comes(db.world, until);
  }

  lemma Coming(o: Options, rejoinMs: nat, graceMs: nat) returns (db: Db)
    requires Shipped(o)
    ensures At(db, o) && db.game.Some? && AllWon(db.game.value, StageEnded) && Crowd(Tables(db))
  {
    hide Reached, Inv, Shipped, Next, AllWon, LeftUntil, Crowd;
    var before := Leaving(o, rejoinMs, graceMs);
    var until := EndsAt(o) + rejoinMs;
    ComeNext(before, o, until);
    GoesOn(before, o, PresenceTx(Newcomer(until)));
    db := Next(before, o, PresenceTx(Newcomer(until))).value;
  }

  // ---------- the snapshot ----------

  lemma ViewerIsSqueezed(db: Db)
    requires db.game.Some? && AllWon(db.game.value, StageEnded) && Crowd(Tables(db))
    ensures Squeezed(db, VIEWER) && Authenticated(db, VIEWER, VIEWER) && OwnMarkRows(db, VIEWER, [])
  {
    hide CardOf, Draw, First;
    DrawOfDeal();
    BelowCount(MAX_PLAYERS);
    assert |db.game.value.cards| == |db.game.value.cards.Keys|;
  }

  /** The newcomer, and everybody but the one who left. */
  function SomeRows(): seq<Id> {
    [VIEWER] + First(LEAVER)
  }

  lemma RowsFit(db: Db, o: Options)
    requires Inv(db, o) && db.game.Some? && AllWon(db.game.value, StageEnded) && Crowd(Tables(db))
    ensures VisibleRows(db, VIEWER, SomeRows())
  {
    hide CardOf, Draw, TheDeal, Inv;
    assert db.status.LobbyWaiting? by { EndedWaits(db, o); }
    CandidateRows(db);
    forall p: Id ensures p in Ids(SomeRows()) <==> p < LEAVER || p == VIEWER { Listed(p); }
    SomeRowsUnique();
  }

  lemma EndedWaits(db: Db, o: Options)
    requires Inv(db, o) && db.game.Some? && db.game.value.round.stage.StageEnded?
    ensures db.status.LobbyWaiting?
  {
    hide GameOk, ResultsOk, WinsOk, LogOk, PlayersOk, HostOk, EventsOk;
  }

  lemma CandidateRows(db: Db)
    requires db.game.Some? && AllWon(db.game.value, StageEnded) && Crowd(Tables(db))
    ensures Candidates(db, VIEWER) == Below(MAX_PLAYERS + 1) && |Candidates(db, VIEWER)| == MAX_PLAYERS + 1
    ensures forall p: Id | p <= MAX_PLAYERS :: RankOf(db, VIEWER, p) == if p == VIEWER then 0 else if p == 0 then 1 else 2
  {
    hide CardOf, Draw, First, TheDeal;
    BelowCount(MAX_PLAYERS + 1);
  }

  lemma Listed(p: Id)
    ensures p in Ids(SomeRows()) <==> p < LEAVER || p == VIEWER
  {
    var rows := SomeRows();
    assert forall i | 1 <= i < |rows| :: rows[i] == First(LEAVER)[i - 1] == i - 1;
    if p < LEAVER { assert rows[p + 1] == p; }
    if p == VIEWER { assert rows[0] == p; }
  }

  lemma SomeRowsUnique()
    ensures Unique(SomeRows()) && |SomeRows()| == MAX_PLAYERS
  {
    var rows := SomeRows();
    forall i, j | 0 <= i < j < |rows| ensures rows[i] != rows[j] {
      assert rows[j] == First(LEAVER)[j - 1] == j - 1;
      if i > 0 { assert rows[i] == First(LEAVER)[i - 1] == i - 1; }
    }
  }

  /**
   * With the standard catalogue, a run of the server leads from a new lobby to a snapshot that breaks the rule of
   * visible winners: all 25 win, one of them departs, and somebody joins before the next round.
   */
  lemma ASnapshotFails(o: Options, rejoinMs: nat, graceMs: nat) returns (txs: seq<Tx>, states: seq<Db>, rows: seq<Id>)
    requires Shipped(o)
    ensures IsRun(Founded(), o, txs, states) && forall i | 0 <= i < |txs| :: Served(txs[i])
    ensures var db := states[|txs|];
            && Authenticated(db, VIEWER, VIEWER) && VisibleRows(db, VIEWER, rows) && OwnMarkRows(db, VIEWER, [])
            && (forall p | p in rows :: p in Tables(db).participants)
            && Project(db, VIEWER, rows, []).Some? && !WinnerRules(Project(db, VIEWER, rows, []).value)
  {
    hide Inv, VisibleRows, Squeezed, Project, WinnerRules, OwnMarkRows, Authenticated, AllWon, Crowd, Shipped, Served, IsRun, SomeRows;
    var db := Coming(o, rejoinMs, graceMs);
    ViewerIsSqueezed(db);
    RowsFit(db, o);
    txs, states :| RunTo(Founded(), o, txs, states, db);
    rows := SomeRows();
    SR.SnapshotMeetsRules(db, o, VIEWER, VIEWER, rows, []);
  }
}
