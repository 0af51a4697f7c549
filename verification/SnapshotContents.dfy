/** What an authorized snapshot shows: every row as it is stored, and who is connected. */
module SnapshotContents {

  import opened Common
  import opened Rows
  import opened Games
  import opened Lobby
  import opened LobbyInv
  import opened Snapshots
  import LobbySteps
  import LobbyWorld
  import SR = SnapshotRules
  import P = People
  import Q = Presence
  import C = Connections
  import A = Accounting

  // ---------- people ----------

  /** The participant has a registered socket that was not released. */
  predicate HasSocket(w: C.World, p: Id) {
    exists socket | socket in w.sockets :: w.sockets[socket].participant == p
  }

  /** The stored row and the newest generation; connected exactly with a socket, and otherwise since when not and until when. */
  predicate ShowsPerson(db: Db, p: Id, s: Summary) {
    var t := Tables(db);
    && p in t.participants && p in t.presence && t.presence[p] != []
    && var row, g := t.participants[p], Q.Newest(t, p);
       && s.id == p && s.username == row.username && s.role == row.role && s.eligibility == row.eligibility && s.generation == g.number
       && if row.departedAt.Some? then s.presence == DepartedView(row.departedAt.value) && s.changedAt == row.departedAt.value
          else
            && s.changedAt == g.changedAt
            && if HasSocket(db.world, p) then s.presence.ConnectedView?
               else if g.graceEndsAt.Some? then s.presence == GraceView(g.graceEndsAt.value)
               else g.absentSince.Some? && s.presence == AbsentView(g.absentSince.value, g.overridden)
  }

  lemma PersonShown(db: Db, o: Options, p: Id)
    requires Inv(db, o) && p in Tables(db).participants
    ensures SummaryOf(Tables(db), p).Some? && ShowsPerson(db, p, SummaryOf(Tables(db), p).value)
  {
    hide Inv, A.Accounted, HasSocket;
    LobbyWorld.AccountedIn(db, o);
    ConnectedBySocket(db.world, p);
    A.AccountedPeople(db.world);
    SR.SummaryExists(Tables(db), p);
    GenerationOf(Tables(db), p);
  }

  lemma GenerationOf(t: P.Tables, p: Id)
    requires Q.PeopleOk(t) && p in t.participants
    ensures p in t.presence && t.presence[p] != [] && P.Generations(t, p) == t.presence[p]
    ensures var g := Q.Newest(t, p);
            Q.GenerationShape(g) && (t.participants[p].departedAt.None? <==> !g.status.Gone?)
  {
    hide P.HasOpenSession, P.HasActiveSession;
    assert Q.ParticipantOk(t, p);
  }

  /** A generation is connected exactly while there are sockets. */
  lemma ConnectedBySocket(w: C.World, p: Id)
    requires A.Accounted(w) && p in w.tables.participants
    ensures p in w.tables.presence && w.tables.presence[p] != []
    ensures Q.Newest(w.tables, p).status.Connected? <==> HasSocket(w, p)
  {
    A.AccountedPeople(w);
    GenerationOf(w.tables, p);
    hide Q.PeopleOk;
    assert A.CountOk(w, p);
    if Q.Newest(w.tables, p).status.Connected? {
      assert |A.SocketsOf(w.sockets, p)| > 0;
      var socket :| socket in A.SocketsOf(w.sockets, p);
      assert w.sockets[socket].participant == p;
    }
    if socket :| socket in w.sockets && w.sockets[socket].participant == p {
      assert A.SocketOk(w.tables, w.sockets[socket]);
    }
  }

  /** Whoever is present, holds a card or is the host. */
  function Concerned(db: Db): set<Id> {
    set p | p in Tables(db).participants &&
      (Tables(db).participants[p].departedAt.None? || Tables(db).participants[p].role.Host?
       || (db.game.Some? && p in db.game.value.cards))
  }

  /** The viewer and the host are always visible, nobody is who is not concerned, and everybody concerned is as long as they fit. */
  lemma WhoIsVisible(db: Db, o: Options, viewer: Id, session: Id, rows: seq<Id>)
    requires Inv(db, o) && Authenticated(db, viewer, session) && VisibleRows(db, viewer, rows)
    ensures viewer in rows && forall p | p in Tables(db).participants && Tables(db).participants[p].role.Host? :: p in rows
    ensures forall p | p in rows :: p in Concerned(db)
    ensures |Concerned(db)| <= MAX_PLAYERS ==> forall p | p in Concerned(db) :: p in rows
  {
    hide Inv, Hosts, Limit, RankOf, VisibleRows;
    var host := SR.TheHost(db, o);
    HostAndViewerVisible(db, o, viewer, host, rows);
    assert forall p | p in Tables(db).participants && Tables(db).participants[p].role.Host? :: p == host by { OneHost(Tables(db), host); }
    CandidatesAre(db, o, viewer, host);
    RowsOfCandidates(db, viewer, rows);
  }

  lemma OneHost(t: P.Tables, host: Id)
    requires Hosts(t, host)
    ensures forall p | p in t.participants && t.participants[p].role.Host? :: p == host
  {
  }

  lemma CandidatesAre(db: Db, o: Options, viewer: Id, host: Id)
    requires Viewed(db, o, viewer, host)
    ensures viewer in Tables(db).participants && Candidates(db, viewer) == Concerned(db)
  {
    hide Inv, Hosts;
    RosterFacts(db, o, viewer, host);
  }

  lemma RowsOfCandidates(db: Db, viewer: Id, rows: seq<Id>)
    requires viewer in Tables(db).participants && VisibleRows(db, viewer, rows)
    ensures forall p | p in rows :: p in Candidates(db, viewer)
    ensures |Candidates(db, viewer)| <= MAX_PLAYERS ==> forall p | p in Candidates(db, viewer) :: p in rows
  {
    hide RankOf, Candidates;
    UniqueCount(rows);
    forall p | p in rows ensures p in Candidates(db, viewer) { assert p in Ids(rows); }
    if |Candidates(db, viewer)| <= MAX_PLAYERS {
      if p :| p in Candidates(db, viewer) && p !in Ids(rows) {
        ProperSubsetCount(Ids(rows), Candidates(db, viewer), p);
      }
    }
  }

  // ---------- the round and its timer ----------

  predicate ShowsLobby(db: Db, host: Id, viewer: Id, marks: seq<OwnMark>, s: Snapshot) {
    && s.lastEventSequence == (if db.lastSequence == 0 then None else Some(db.lastSequence))
    && s.viewer == viewer
    && (db.game.None? ==> s.lobby == WaitingView(host) && s.pendingSetup == db.pending && s.round.None? && s.ownCard.None?
                          && s.ownMarks == [] && s.calls == [])
    && (db.game.Some? ==>
          var g := db.game.value;
          && s.lobby == (if g.round.stage.StageWaiting? || g.round.stage.StageEnded? then WaitingView(host) else ActiveView(host, g.round.id))
          && s.pendingSetup.None? && s.round == Publish(g) && s.round.Some?
          && s.calls == g.calls && s.ownMarks == marks
          && s.ownCard == if viewer in g.cards then Some(OwnCard(g.cards[viewer].id, viewer, g.round.id, g.cards[viewer].cells)) else None)
  }

  /** Row `i` is the first whose participant is in a grace period. */
  predicate FirstGrace(ps: seq<Summary>, i: nat) {
    i < |ps| && ps[i].presence.GraceView? && forall j | 0 <= j < i :: !ps[j].presence.GraceView?
  }

  /** The closing of the window, else the next automatic call, else the end of a visible grace period. */
  ghost predicate ShowsTimer(db: Db, s: Snapshot) {
    if db.game.Some? && db.game.value.round.stage.StageWindow? then
      && db.game.value.round.trigger.Some? && db.game.value.round.closesAt.Some?
      && s.timer == Some(WindowTimer(db.game.value.round.trigger.value, db.game.value.round.closesAt.value))
    else if db.game.Some? && db.game.value.round.nextCallAt.Some? then
      s.timer == Some(CallTimer(db.game.value.round.nextCallAt.value))
    else if exists i: nat :: FirstGrace(s.participants, i) then
      exists i: nat :: FirstGrace(s.participants, i)
        && s.timer == Some(GraceTimer(s.participants[i].id, s.participants[i].generation, s.participants[i].presence.graceEndsAt))
    else s.timer.None?
  }

  /** Every visible row is shown as stored, in the order of the rows, with the state of the round and its next deadline. */
  lemma SnapshotShows(db: Db, o: Options, viewer: Id, session: Id, rows: seq<Id>, marks: seq<OwnMark>)
    requires Inv(db, o) && Authenticated(db, viewer, session)
    requires VisibleRows(db, viewer, rows) && OwnMarkRows(db, viewer, marks)
    ensures forall p | p in rows :: p in Tables(db).participants
    ensures Project(db, viewer, rows, marks).Some?
    ensures var s := Project(db, viewer, rows, marks).value;
            && |s.participants| == |rows| && (forall i | 0 <= i < |rows| :: ShowsPerson(db, rows[i], s.participants[i]))
            && ShowsPerson(db, viewer, s.self)
            && (exists host :: Hosts(Tables(db), host) && ShowsLobby(db, host, viewer, marks, s))
            && ShowsTimer(db, s)
  {
    hide VisibleRows, Inv, ShowsPerson, ShowsLobby, ShowsTimer, SummaryOf, Hosts, OwnMarkRows;
    SR.VisibleParticipants(db, viewer, rows);
    var host := SR.TheHost(db, o);
    var s := SR.Projected(db, o, viewer, host, rows, marks);
    forall i | 0 <= i < |rows| ensures ShowsPerson(db, rows[i], s.participants[i]) {
      PersonShown(db, o, rows[i]);
    }
    SelfShown(db, o, viewer, host, rows, marks, s);
    LobbyShown(db, o, viewer, host, rows, marks, s);
    TimerShown(db, o, viewer, host, rows, marks, s);
  }

  lemma SelfShown(db: Db, o: Options, viewer: Id, host: Id, rows: seq<Id>, marks: seq<OwnMark>, s: Snapshot)
    requires SR.Shown(db, o, viewer, host, rows, marks, s)
    ensures ShowsPerson(db, viewer, s.self)
  {
    hide Inv, SR.Shown, ShowsPerson, SummaryOf, VisibleRows;
    SR.RosterOf(db, o, viewer, host, rows, marks, s);
    SR.ShownFacts(db, o, viewer, host, rows, marks, s);
    SelfIsRow(db, o, viewer, host, rows, marks, s);
    PersonShown(db, o, viewer);
  }

  lemma SelfIsRow(db: Db, o: Options, viewer: Id, host: Id, rows: seq<Id>, marks: seq<OwnMark>, s: Snapshot)
    requires SR.Shown(db, o, viewer, host, rows, marks, s) && s.self in s.participants && s.self.id == viewer
    ensures Inv(db, o) && viewer in Tables(db).participants && SummaryOf(Tables(db), viewer) == Some(s.self)
  {
    hide Inv, VisibleRows, OwnMarkRows, RoundView, TimerOf;
    var i :| 0 <= i < |rows| && s.participants[i] == s.self;
    assert SummaryOf(Tables(db), rows[i]) == Some(s.participants[i]);
  }

  lemma LobbyShown(db: Db, o: Options, viewer: Id, host: Id, rows: seq<Id>, marks: seq<OwnMark>, s: Snapshot)
    requires SR.Shown(db, o, viewer, host, rows, marks, s)
    ensures ShowsLobby(db, host, viewer, marks, s)
  {
    hide Inv, VisibleRows, OwnMarkRows, TimerOf, Summaries, GameOk, Publish, RoundView;
    SR.LobbyOf(db, o, viewer, host, rows, marks, s);
    SR.RosterOf(db, o, viewer, host, rows, marks, s);
    BaselineShown(db, viewer, rows, marks, s);
    StatusFits(db, o);
    if db.game.Some? {
      LobbySteps.GameFacts(db, o);
      SR.RoundViewExists(db.game.value, o, db.nextId, db.clock);
    }
  }

  lemma BaselineShown(db: Db, viewer: Id, rows: seq<Id>, marks: seq<OwnMark>, s: Snapshot)
    requires (forall p | p in rows :: p in Tables(db).participants) && Project(db, viewer, rows, marks) == Some(s)
    ensures s.lastEventSequence == (if db.lastSequence == 0 then None else Some(db.lastSequence)) && s.viewer == viewer
    ensures db.game.None? ==> s.round.None?
    ensures s.lobby.WaitingView? <==> db.game.None? || db.status.LobbyWaiting?
  {
    hide Summaries, RoundView, TimerOf, FindHost, FindSummary;
  }

  lemma StatusFits(db: Db, o: Options)
    requires Inv(db, o)
    ensures StatusOk(db)
  {
    hide A.Accounted, HostOk, ResultsOk, WinsOk, LogOk, RoundRowsOk, RoundlessOk, StatusOk;
  }

  lemma TimerShown(db: Db, o: Options, viewer: Id, host: Id, rows: seq<Id>, marks: seq<OwnMark>, s: Snapshot)
    requires SR.Shown(db, o, viewer, host, rows, marks, s)
    ensures ShowsTimer(db, s)
  {
    hide Inv, VisibleRows, OwnMarkRows, RoundView, Summaries, GameOk, FirstGrace, Hosts, P.Live;
    FoundGrace(s.participants);
    SR.LobbyOf(db, o, viewer, host, rows, marks, s);
    if db.game.Some? {
      LobbySteps.GameFacts(db, o);
      DeadlineShape(db.game.value, o, db.nextId, db.clock);
    }
  }

  lemma DeadlineShape(g: Game, o: Options, limit: Id, clock: Time)
    requires GameOk(g, o, limit, clock)
    ensures g.round.nextCallAt.Some? ==> g.round.stage.StageActive? && g.round.config.Automatic?
    ensures g.round.stage.StageWindow? ==> g.round.trigger.Some? && g.round.closesAt.Some?
  {
    hide DrawOk, CardsOk, CallsOk, MarksOk, WinnersOk, DeadlineAfterCalls;
  }

  lemma {:induction false} FoundGrace(ps: seq<Summary>)
    ensures FindGrace(ps).Some? ==> exists i: nat :: FirstGrace(ps, i) && ps[i] == FindGrace(ps).value
    ensures FindGrace(ps).None? ==> forall i: nat :: !FirstGrace(ps, i)
  {
    if ps == [] {
    } else if ps[0].presence.GraceView? {
      assert FirstGrace(ps, 0);
    } else {
      FoundGrace(ps[1..]);
      if FindGrace(ps).Some? {
        var i: nat :| FirstGrace(ps[1..], i) && ps[1..][i] == FindGrace(ps[1..]).value;
        forall j | 0 <= j < i + 1 ensures !ps[j].presence.GraceView? {
          if j > 0 { assert ps[1..][j - 1] == ps[j]; }
        }
        assert FirstGrace(ps, i + 1);
      } else {
        forall i: nat ensures !FirstGrace(ps, i) {
          if FirstGrace(ps, i) {
            forall j | 0 <= j < i - 1 ensures !ps[1..][j].presence.GraceView? { assert ps[1..][j] == ps[j + 1]; }
            assert FirstGrace(ps[1..], i - 1);
          }
        }
      }
    }
  }
}
