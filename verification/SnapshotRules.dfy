/** Every snapshot of a reachable state is projected, and meets all rules except for one squeezed viewer. */
module SnapshotRules {

  import opened Common
  import opened Patterns
  import opened Rows
  import opened Games
  import opened Marks
  import opened Lobby
  import opened LobbyInv
  import opened LobbySteps
  import opened LobbyWorld
  import opened Snapshots
  import P = People
  import Q = Presence
  import A = Accounting

  // ---------- the projection does not throw ----------

  lemma PeopleIn(db: Db, o: Options)
    requires Inv(db, o)
    ensures Q.PeopleOk(Tables(db))
  {
    hide A.SocketOk, A.CountOk, ResultsOk, WinsOk, LogOk, HostOk, PlayersOk, EventsOk, StatusOk, GameOk, WinnersComplete, Q.PeopleOk;
    AccountedIn(db, o);
    A.AccountedPeople(db.world);
  }

  /** Every participant has a presentable presence, and a grace period only while present. */
  lemma SummaryExists(t: P.Tables, p: Id)
    requires Q.PeopleOk(t) && p in t.participants
    ensures SummaryOf(t, p).Some?
    ensures var s := SummaryOf(t, p).value;
            s.id == p && s.role == t.participants[p].role && s.eligibility == t.participants[p].eligibility
  {
    hide P.HasOpenSession, P.HasActiveSession, Q.SessionShape;
    assert Q.ParticipantOk(t, p);
  }

  lemma VisibleParticipants(db: Db, viewer: Id, rows: seq<Id>)
    requires viewer in Tables(db).participants && VisibleRows(db, viewer, rows)
    ensures forall p | p in rows :: p in Tables(db).participants
  {
    hide Limit, RankOf;
    forall p | p in rows ensures p in Tables(db).participants {
      assert p in Ids(rows);
    }
  }

  lemma SummariesExist(db: Db, o: Options, rows: seq<Id>)
    requires Inv(db, o) && forall p | p in rows :: p in Tables(db).participants
    ensures Summaries(Tables(db), rows).Some?
    ensures var ps := Summaries(Tables(db), rows).value;
            |ps| == |rows| && forall i | 0 <= i < |rows| ::
              && ps[i].id == rows[i] && ps[i].role == Tables(db).participants[rows[i]].role
              && ps[i].eligibility == Tables(db).participants[rows[i]].eligibility
  {
    hide Inv, Q.PeopleOk, SummaryOf;
    PeopleIn(db, o);
    forall i | 0 <= i < |rows| ensures SummaryOf(Tables(db), rows[i]).Some? && SummaryOf(Tables(db), rows[i]).value.id == rows[i]
      && SummaryOf(Tables(db), rows[i]).value.role == Tables(db).participants[rows[i]].role
      && SummaryOf(Tables(db), rows[i]).value.eligibility == Tables(db).participants[rows[i]].eligibility
    {
      SummaryExists(Tables(db), rows[i]);
    }
  }

  lemma TimerExists(db: Db, o: Options, ps: seq<Summary>)
    requires Inv(db, o)
    ensures TimerOf(db, ps).Some?
  {
    hide Inv, GameOk;
    if db.game.Some? {
      GameFacts(db, o);
      GameShape(db.game.value, o, db.nextId, db.clock);
    }
  }

  lemma RoundViewExists(g: Game, o: Options, limit: Id, clock: Time)
    requires GameOk(g, o, limit, clock)
    ensures RoundView(g) == Publish(g) && Publish(g).Some? && ValidPublicRound(Publish(g).value)
  {
    hide DrawOk, CardsOk, CallsOk, MarksOk, DeadlineAfterCalls, ValidPublicRound, ResultOf;
    PublishesOk(g, o, limit, clock);
  }

  lemma RoundlessFacts(db: Db, o: Options)
    requires Inv(db, o) && db.game.None?
    ensures db.pending.Some? && ValidConfig(db.pending.value.config) && db.status.LobbyWaiting?
  {
    hide A.Accounted, HostOk, ResultsOk, EventsOk;
  }

  /** The parts of the snapshot. */
  ghost predicate Shown(db: Db, o: Options, viewer: Id, host: Id, rows: seq<Id>, marks: seq<OwnMark>, s: Snapshot) {
    && Viewed(db, o, viewer, host) && viewer in Tables(db).participants && VisibleRows(db, viewer, rows)
    && OwnMarkRows(db, viewer, marks)
    && (forall p | p in rows :: p in Tables(db).participants)
    && Project(db, viewer, rows, marks) == Some(s)
    && Summaries(Tables(db), rows) == Some(s.participants)
  }

  lemma Projected(db: Db, o: Options, viewer: Id, host: Id, rows: seq<Id>, marks: seq<OwnMark>) returns (s: Snapshot)
    requires Viewed(db, o, viewer, host) && viewer in Tables(db).participants && VisibleRows(db, viewer, rows)
    requires OwnMarkRows(db, viewer, marks)
    ensures Shown(db, o, viewer, host, rows, marks, s)
  {
    hide Inv, VisibleRows, OwnMarkRows, RoundView, TimerOf, GameOk, Publish, Summaries;
    VisibleParticipants(db, viewer, rows);
    SummariesExist(db, o, rows);
    HostAndViewerVisible(db, o, viewer, host, rows);
    var ps := Summaries(Tables(db), rows).value;
    ListedIn(ps, rows, viewer);
    ListedIn(ps, rows, host);
    TimerExists(db, o, ps);
    if db.game.Some? {
      GameFacts(db, o);
      RoundViewExists(db.game.value, o, db.nextId, db.clock);
    } else {
      RoundlessFacts(db, o);
    }
    s := Project(db, viewer, rows, marks).value;
  }

  lemma ListedIn(ps: seq<Summary>, rows: seq<Id>, p: Id)
    requires |ps| == |rows| && p in Ids(rows) && forall i | 0 <= i < |rows| :: ps[i].id == rows[i]
    ensures exists i :: 0 <= i < |rows| && rows[i] == p && ps[i] in ps && ps[i].id == p
  {
    var i :| 0 <= i < |rows| && rows[i] == p;
    assert ps[i] in ps;
  }

  // ---------- roster ----------

  /** What every visible summary says. */
  lemma RosterOf(db: Db, o: Options, viewer: Id, host: Id, rows: seq<Id>, marks: seq<OwnMark>, s: Snapshot)
    requires Shown(db, o, viewer, host, rows, marks, s)
    ensures |s.participants| == |rows| && Unique(rows) && |rows| <= Limit(db, viewer)
    ensures forall i | 0 <= i < |rows| ::
              && s.participants[i].id == rows[i] && rows[i] in Tables(db).participants
              && (s.participants[i].role.Host? <==> rows[i] == host)
              && s.participants[i].eligibility == Tables(db).participants[rows[i]].eligibility
    ensures s.self in s.participants && s.self.id == viewer && s.viewer == viewer
    ensures s.self.eligibility == Tables(db).participants[viewer].eligibility
    ensures s.lobby.host == host && viewer in Ids(rows) && host in Ids(rows)
  {
    hide Inv, OwnMarkRows, RoundView, TimerOf, Summaries, RankOf, Limit, Candidates;
    SummariesExist(db, o, rows);
    HostAndViewerVisible(db, o, viewer, host, rows);
  }

  lemma IdsGrow(rows: seq<Id>)
    requires rows != [] && Unique(rows)
    ensures var n := |rows| - 1;
            Unique(rows[..n]) && Ids(rows) == Ids(rows[..n]) + {rows[n]} && rows[n] !in Ids(rows[..n])
  {
  }

  lemma CountGrows(ids: set<Id>, p: Id, playing: set<Id>)
    requires p !in ids
    ensures |(ids + {p}) * playing| == |ids * playing| + if p in playing then 1 else 0
  {
    assert (ids + {p}) * playing == ids * playing + if p in playing then {p} else {};
  }

  lemma {:induction false} PlayingCountIs(ps: seq<Summary>, rows: seq<Id>, playing: set<Id>)
    requires |ps| == |rows| && Unique(rows)
    requires forall i | 0 <= i < |rows| :: ps[i].eligibility.Playing? <==> rows[i] in playing
    ensures PlayingCount(ps) == |Ids(rows) * playing|
  {
    if ps != [] {
      var n := |ps| - 1;
      IdsGrow(rows);
      PlayingCountIs(ps[..n], rows[..n], playing);
      CountGrows(Ids(rows[..n]), rows[n], playing);
    } else {
      assert Ids(rows) * playing == {};
    }
  }

  lemma RosterHolds(db: Db, o: Options, viewer: Id, host: Id, rows: seq<Id>, marks: seq<OwnMark>, s: Snapshot)
    requires Shown(db, o, viewer, host, rows, marks, s)
    ensures RosterRules(s)
  {
    hide Shown, Limit, Inv, VisibleRows, PlayingCount;
    assert Viewed(db, o, viewer, host) && viewer in Tables(db).participants && VisibleRows(db, viewer, rows) by {
      ShownFacts(db, o, viewer, host, rows, marks, s);
    }
    RosterOf(db, o, viewer, host, rows, marks, s);
    LimitCases(db, viewer);
    LobbyOf(db, o, viewer, host, rows, marks, s);
    ListedIn(s.participants, rows, host);
    if |rows| == 26 {
      FullHouse(db, o, viewer, host, rows);
      RosterFacts(db, o, viewer, host);
      var cards := Cards(db).Keys;
      forall i | 0 <= i < |rows| ensures s.participants[i].eligibility.Playing? <==> rows[i] in cards {
        assert rows[i] in Ids(rows);
      }
      PlayingCountIs(s.participants, rows, cards);
      assert Ids(rows) * cards == cards;
    }
  }

  lemma ShownFacts(db: Db, o: Options, viewer: Id, host: Id, rows: seq<Id>, marks: seq<OwnMark>, s: Snapshot)
    requires Shown(db, o, viewer, host, rows, marks, s)
    ensures Viewed(db, o, viewer, host) && viewer in Tables(db).participants && VisibleRows(db, viewer, rows) && Inv(db, o)
    ensures OwnMarkRows(db, viewer, marks)
  {
    hide Inv, VisibleRows, OwnMarkRows, Project, Summaries;
  }

  /** The fields that do not depend on the roster. */
  lemma LobbyOf(db: Db, o: Options, viewer: Id, host: Id, rows: seq<Id>, marks: seq<OwnMark>, s: Snapshot)
    requires Shown(db, o, viewer, host, rows, marks, s)
    ensures s.lobby.ActiveView? <==> db.status.LobbyActive?
    ensures s.round.Some? <==> db.game.Some?
    ensures db.game.Some? ==> s.round == RoundView(db.game.value) && s.pendingSetup.None? && s.calls == db.game.value.calls
    ensures db.game.None? ==> s.pendingSetup == db.pending && s.ownCard.None? && s.ownMarks == [] && s.calls == []
    ensures s.lobby.ActiveView? ==> db.game.Some? && s.lobby.roundId == db.game.value.round.id
    ensures TimerOf(db, s.participants) == Some(s.timer)
    ensures db.game.Some? ==> s.ownMarks == marks
    ensures db.game.Some? ==> s.ownCard == if viewer !in Cards(db) then None
      else Some(OwnCard(Cards(db)[viewer].id, viewer, db.game.value.round.id, Cards(db)[viewer].cells))
  {
    hide Viewed, VisibleRows, OwnMarkRows, RoundView, TimerOf, Summaries, FindHost, FindSummary;
  }

  // ---------- rounds, timers and calls ----------

  lemma RoundHolds(db: Db, o: Options, viewer: Id, host: Id, rows: seq<Id>, marks: seq<OwnMark>, s: Snapshot)
    requires Shown(db, o, viewer, host, rows, marks, s)
    ensures RoundRules(s)
    ensures db.game.Some? ==> s.round == Publish(db.game.value)
  {
    hide Shown, Inv, VisibleRows, GameOk, RoundView, TimerOf, ValidPublicRound;
    ShownFacts(db, o, viewer, host, rows, marks, s);
    LobbyOf(db, o, viewer, host, rows, marks, s);
    if db.game.Some? {
      GameFacts(db, o);
      RoundViewExists(db.game.value, o, db.nextId, db.clock);
    } else {
      RoundlessFacts(db, o);
    }
  }

  lemma TimerHolds(db: Db, o: Options, viewer: Id, host: Id, rows: seq<Id>, marks: seq<OwnMark>, s: Snapshot)
    requires Shown(db, o, viewer, host, rows, marks, s)
    ensures TimerRules(s)
  {
    hide Shown, Inv, VisibleRows, GameOk, RoundView, ValidPublicRound, Viewed, OwnMarkRows;
    ShownFacts(db, o, viewer, host, rows, marks, s);
    LobbyOf(db, o, viewer, host, rows, marks, s);
    RoundHolds(db, o, viewer, host, rows, marks, s);
  }

  lemma LatestIsTrigger(g: Game, o: Options, limit: Id, clock: Time)
    requires GameOk(g, o, limit, clock)
    ensures g.round.trigger.Some? ==> LatestCall(g.calls).Some? && LatestCall(g.calls).value.id == g.round.trigger.value
    ensures |g.calls| <= BALL_COUNT
    ensures forall i | 0 <= i < |g.calls| :: g.calls[i].position == i + 1
    ensures forall i, j | 0 <= i < j < |g.calls| :: g.calls[i].id != g.calls[j].id && g.calls[i].ball != g.calls[j].ball
  {
    hide CardsOk, MarksOk, RowOk, DeadlineAfterCalls;
  }

  lemma CallsHold(db: Db, o: Options, viewer: Id, host: Id, rows: seq<Id>, marks: seq<OwnMark>, s: Snapshot)
    requires Shown(db, o, viewer, host, rows, marks, s)
    ensures CallRules(s)
  {
    hide Shown, Inv, VisibleRows, GameOk, RoundView, ValidPublicRound, Viewed, OwnMarkRows, TimerOf, LatestCall;
    ShownFacts(db, o, viewer, host, rows, marks, s);
    LobbyOf(db, o, viewer, host, rows, marks, s);
    RoundHolds(db, o, viewer, host, rows, marks, s);
    if db.game.Some? {
      GameFacts(db, o);
      LatestIsTrigger(db.game.value, o, db.nextId, db.clock);
    }
  }

  // ---------- cards and marks ----------

  /** Columns do not overlap, so distinct cells are the same as distinct cells in each column. */
  lemma CellRulesMeaning(cells: Cells)
    ensures CellRules(cells) <==> ValidCells(cells)
  {
    if CellRules(cells) {
      forall i, j | 0 <= i < j < CELL_COUNT ensures cells[i] != cells[j] {
        if i != FREE_CELL && j != FREE_CELL && i % 5 != j % 5 {
          ColumnsApart(cells[i], cells[j], i % 5, j % 5);
        }
      }
    }
  }

  lemma ColumnsApart(a: nat, b: nat, c: nat, d: nat)
    requires c != d && c * 15 + 1 <= a <= c * 15 + 15 && d * 15 + 1 <= b <= d * 15 + 15
    ensures a != b
  {
  }

  /** A card has at most 24 marks. */
  lemma MarkCount(cells: Cells, marks: seq<OwnMark>)
    requires ValidCells(cells)
    requires forall i, j | 0 <= i < j < |marks| :: marks[i].ball != marks[j].ball
    requires forall m | m in marks :: m.ball != 0 && m.ball in cells
    ensures |marks| <= 24
  {
    hide ValidCells;
    var balls := seq(|marks|, i requires 0 <= i < |marks| => marks[i].ball);
    UniqueCount(balls);
    var all := set i: nat | i < CELL_COUNT && i != FREE_CELL :: cells[i];
    IndexCount(cells, all);
    forall b | b in Ids(balls) ensures b in all {
      var i :| 0 <= i < |marks| && marks[i].ball == b;
      assert marks[i] in marks;
      var c :| 0 <= c < CELL_COUNT && cells[c] == b;
      FreeIsZero(cells);
    }
    SubsetCount(Ids(balls), all);
  }

  lemma FreeIsZero(cells: Cells)
    requires ValidCells(cells)
    ensures cells[FREE_CELL] == 0
  {
  }

  lemma IndexCount(cells: Cells, all: set<nat>)
    requires all == set i: nat | i < CELL_COUNT && i != FREE_CELL :: cells[i]
    ensures |all| <= 24
  {
    var head := cells[..FREE_CELL];
    var tail := cells[FREE_CELL + 1..];
    ElementCount(head);
    ElementCount(tail);
    forall x | x in all ensures x in Ids(head) + Ids(tail) {
      var i: nat :| i < CELL_COUNT && i != FREE_CELL && cells[i] == x;
      if i < FREE_CELL { assert head[i] == x; } else { assert tail[i - FREE_CELL - 1] == x; }
    }
    SubsetCount(all, Ids(head) + Ids(tail));
  }

  lemma {:induction false} ElementCount(s: seq<nat>)
    ensures |Ids(s)| <= |s|
  {
    if s == [] {
      assert Ids(s) == {};
    } else {
      var n := |s| - 1;
      ElementCount(s[..n]);
      assert Ids(s) == Ids(s[..n]) + {s[n]};
    }
  }

  /** The marks of a card are called balls of that card, with distinct ids. */
  lemma MarksFit(g: Game, o: Options, limit: Id, clock: Time, viewer: Id, marks: seq<OwnMark>)
    requires GameOk(g, o, limit, clock) && viewer in g.cards
    requires forall i | 0 <= i < |marks| ::
               && marks[i].cardId == g.cards[viewer].id
               && (g.cards[viewer].id, marks[i].ball) in g.marks
               && g.marks[(g.cards[viewer].id, marks[i].ball)] == Mark(marks[i].id, marks[i].markedAt)
    requires forall i, j | 0 <= i < j < |marks| :: marks[i].ball != marks[j].ball
    ensures ValidCells(g.cards[viewer].cells)
    ensures forall m | m in marks ::
              m.ball != 0 && m.ball in g.cards[viewer].cells && exists c | c in g.calls :: c.ball == m.ball
    ensures forall i, j | 0 <= i < j < |marks| :: marks[i].id != marks[j].id
  {
    hide DrawOk, CallsOk, RowOk, WinnersOk, DeadlineAfterCalls, ValidCells;
    forall m | m in marks
      ensures m.ball != 0 && m.ball in g.cards[viewer].cells && exists c | c in g.calls :: c.ball == m.ball
    {
      assert HoldsBall(g.cards, (g.cards[viewer].id, m.ball));
    }
    forall i, j | 0 <= i < j < |marks| ensures marks[i].id != marks[j].id {
      assert (g.cards[viewer].id, marks[i].ball) != (g.cards[viewer].id, marks[j].ball);
    }
  }

  lemma CardHolds(db: Db, o: Options, viewer: Id, host: Id, rows: seq<Id>, marks: seq<OwnMark>, s: Snapshot)
    requires Shown(db, o, viewer, host, rows, marks, s)
    ensures CardRules(s)
  {
    hide Shown, Inv, VisibleRows, GameOk, RoundView, ValidPublicRound, TimerOf, CellRules, ValidCells;
    ShownFacts(db, o, viewer, host, rows, marks, s);
    LobbyOf(db, o, viewer, host, rows, marks, s);
    RosterOf(db, o, viewer, host, rows, marks, s);
    RosterFacts(db, o, viewer, host);
    RoundHolds(db, o, viewer, host, rows, marks, s);
    if db.game.Some? {
      GameFacts(db, o);
      PublishedId(db.game.value);
      if viewer in Cards(db) {
        MarksFit(db.game.value, o, db.nextId, db.clock, viewer, marks);
        CellRulesMeaning(db.game.value.cards[viewer].cells);
        MarkCount(db.game.value.cards[viewer].cells, marks);
      }
    }
  }

  lemma PublishedId(g: Game)
    ensures Publish(g).Some? ==> Publish(g).value.id == g.round.id
  {
  }

  // ---------- winners ----------

  lemma ShownWinners(db: Db, o: Options, viewer: Id, host: Id, rows: seq<Id>, marks: seq<OwnMark>, s: Snapshot)
    requires Shown(db, o, viewer, host, rows, marks, s)
    ensures ShownResult(s).Some? <==>
              db.game.Some? && db.game.value.round.stage in {StageResult, StageEnded} && db.game.value.winners != map[]
    ensures ShownResult(s).Some? ==> ShownResult(s).value.winners == Winners(db)
  {
    hide Shown, Inv, VisibleRows, RoundView, ValidPublicRound, TimerOf, OwnMarkRows, Viewed, DrawOk, CardsOk, CallsOk, MarksOk,
         DeadlineAfterCalls;
    ShownFacts(db, o, viewer, host, rows, marks, s);
    LobbyOf(db, o, viewer, host, rows, marks, s);
    RoundHolds(db, o, viewer, host, rows, marks, s);
    if db.game.Some? {
      GameFacts(db, o);
    }
  }

  lemma WinnersHold(db: Db, o: Options, viewer: Id, host: Id, rows: seq<Id>, marks: seq<OwnMark>, s: Snapshot)
    requires Shown(db, o, viewer, host, rows, marks, s)
    ensures WinnerRules(s) <==> !Squeezed(db, viewer)
  {
    hide Shown, Inv, VisibleRows, Viewed, Squeezed, ShownResult, Limit;
    ShownFacts(db, o, viewer, host, rows, marks, s);
    RosterOf(db, o, viewer, host, rows, marks, s);
    RosterFacts(db, o, viewer, host);
    ShownWinners(db, o, viewer, host, rows, marks, s);
    SqueezedHasWinners(db, viewer, host, o);
    if ShownResult(s).Some? {
      WinnersVisible(db, o, viewer, host, rows);
      if Winners(db) <= Ids(rows) {
        forall w | w in Winners(db) ensures exists p | p in s.participants :: p.id == w && p.eligibility.Playing? {
          ListedIn(s.participants, rows, w);
        }
      } else {
        var w :| w in Winners(db) && w !in Ids(rows);
        forall p | p in s.participants ensures p.id != w {
          var i :| 0 <= i < |rows| && s.participants[i] == p;
          assert rows[i] in Ids(rows);
        }
      }
    }
  }

  /** Among 25 holders somebody besides the host has won. */
  lemma SqueezedHasWinners(db: Db, viewer: Id, host: Id, o: Options)
    requires Viewed(db, o, viewer, host)
    ensures Squeezed(db, viewer) ==> db.game.Some? && db.game.value.round.stage.StageEnded? && db.game.value.winners != map[]
  {
    hide Inv;
    RosterFacts(db, o, viewer, host);
    if Squeezed(db, viewer) && db.game.value.winners == map[] {
      assert forall p | p in Cards(db).Keys :: p == host;
      SubsetCount(Cards(db).Keys, {host});
    }
  }

  /**
   * A viewer with an active session always gets a snapshot, and it meets every cross-field rule,
   * unless the viewer waits on an ended round of 25 cards of which all but at most the host's have won:
   * then it breaks the rule of visible winners and no other.
   */
  lemma SnapshotMeetsRules(db: Db, o: Options, viewer: Id, session: Id, rows: seq<Id>, marks: seq<OwnMark>)
    requires Inv(db, o) && Authenticated(db, viewer, session)
    requires VisibleRows(db, viewer, rows) && OwnMarkRows(db, viewer, marks)
    ensures forall p | p in rows :: p in Tables(db).participants
    ensures Project(db, viewer, rows, marks).Some?
    ensures MeetsRules(Project(db, viewer, rows, marks).value) <==> !Squeezed(db, viewer)
    ensures var s := Project(db, viewer, rows, marks).value;
            RosterRules(s) && TimerRules(s) && RoundRules(s) && CardRules(s) && CallRules(s) && (WinnerRules(s) <==> !Squeezed(db, viewer))
  {
    hide VisibleRows, Inv, RosterRules, TimerRules, RoundRules, CardRules, CallRules, WinnerRules, Squeezed;
    VisibleParticipants(db, viewer, rows);
    var host := TheHost(db, o);
    var s := Projected(db, o, viewer, host, rows, marks);
    RosterHolds(db, o, viewer, host, rows, marks, s);
    TimerHolds(db, o, viewer, host, rows, marks, s);
    RoundHolds(db, o, viewer, host, rows, marks, s);
    CardHolds(db, o, viewer, host, rows, marks, s);
    CallsHold(db, o, viewer, host, rows, marks, s);
    WinnersHold(db, o, viewer, host, rows, marks, s);
  }

  lemma TheHost(db: Db, o: Options) returns (host: Id)
    requires Inv(db, o)
    ensures Hosts(Tables(db), host)
  {
    hide A.Accounted, EventsOk, ResultsOk, WinsOk, LogOk, WinnersComplete, GameOk, PlayersOk, Hosts;
    host :| Hosts(Tables(db), host);
  }
}
