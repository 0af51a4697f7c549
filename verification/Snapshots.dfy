/** The authorized snapshot of a lobby, its cross-field rules, and exactly when a snapshot breaks one of them. */
module Snapshots {

  import opened Common
  import opened Patterns
  import opened Rows
  import opened Games
  import opened Marks
  import opened Lobby
  import opened LobbyInv
  import P = People
  import A = Accounting

  // ---------- the projection ----------

  datatype PresenceView =
    | ConnectedView
    | GraceView(graceEndsAt: Time)
    | AbsentView(absentSince: Time, overridden: bool)
    | DepartedView(departedAt: Time)

  datatype Summary = Summary(
    id: Id, username: nat, role: P.Role, eligibility: P.Eligibility, generation: nat, changedAt: Time, presence: PresenceView)

  datatype LobbyView = WaitingView(host: Id) | ActiveView(host: Id, roundId: Id)

  datatype TimerView =
    | CallTimer(deadline: Time)
    | GraceTimer(participant: Id, generation: nat, deadline: Time)
    | WindowTimer(trigger: Id, deadline: Time)

  datatype OwnCard = OwnCard(id: Id, participant: Id, roundId: Id, cells: Cells)
  datatype OwnMark = OwnMark(id: Id, cardId: Id, ball: nat, markedAt: Time)

  /** `lastEventSequence` is the baseline above which events are delivered. */
  datatype Snapshot = Snapshot(
    lastEventSequence: Option<nat>,
    lobby: LobbyView,
    viewer: Id,
    self: Summary,
    participants: seq<Summary>,
    pendingSetup: Option<Setup>,
    round: Option<PublicRound>,
    ownCard: Option<OwnCard>,
    ownMarks: seq<OwnMark>,
    calls: seq<Call>,
    timer: Option<TimerView>)

  function Cards(db: Db): map<Id, Card> {
    if db.game.Some? then db.game.value.cards else map[]
  }

  function Winners(db: Db): set<Id> {
    if db.game.Some? then db.game.value.winners.Keys else {}
  }

  /** The order in which rows compete for a place. */
  function RankOf(db: Db, viewer: Id, p: Id): nat
    requires p in Tables(db).participants
  {
    if p == viewer then 0
    else if Tables(db).participants[p].role.Host? then 1
    else if p in Winners(db) then 2
    else if p in Cards(db) then 3
    else 4
  }

  function Candidates(db: Db, viewer: Id): set<Id> {
    set p | p in Tables(db).participants &&
      (p == viewer || Tables(db).participants[p].role.Host? || P.Live(Tables(db), p) || p in Winners(db) || p in Cards(db))
  }

  function Limit(db: Db, viewer: Id): nat
    requires viewer in Tables(db).participants
  {
    if db.status.LobbyActive? && Tables(db).participants[viewer].eligibility.Queued? && |Cards(db)| == MAX_PLAYERS then 26 else 25
  }

  function Ids(s: seq<Id>): set<Id> {
    set x | x in s
  }

  predicate Unique(s: seq<Id>) {
    forall i, j | 0 <= i < j < |s| :: s[i] != s[j]
  }

  /** A prefix of the candidates in rank order; `SnapshotRows` adds the order among equals and that of display. */
  predicate VisibleRows(db: Db, viewer: Id, rows: seq<Id>)
    requires viewer in Tables(db).participants
  {
    var all := Candidates(db, viewer);
    && Unique(rows) && Ids(rows) <= all
    && |rows| == (if |all| <= Limit(db, viewer) then |all| else Limit(db, viewer))
    && forall p, q | p in Ids(rows) && q in all - Ids(rows) :: RankOf(db, viewer, p) <= RankOf(db, viewer, q)
  }

  /** None where a required column is missing. */
  function PresenceOf(t: P.Tables, p: Id): Option<(nat, Time, PresenceView)>
    requires p in t.participants
  {
    var row := t.participants[p];
    var gens := P.Generations(t, p);
    var generation := if gens == [] then 1 else gens[|gens| - 1].number;
    if row.departedAt.Some? then Some((generation, row.departedAt.value, DepartedView(row.departedAt.value)))
    else if gens == [] then Some((generation, row.joinedAt, AbsentView(row.joinedAt, false)))
    else
      var g := gens[|gens| - 1];
      match g.status
      case Connected => Some((generation, g.changedAt, ConnectedView))
      case Grace => if g.graceEndsAt.None? then None else Some((generation, g.changedAt, GraceView(g.graceEndsAt.value)))
      case Absent => if g.absentSince.None? then None else Some((generation, g.changedAt, AbsentView(g.absentSince.value, g.overridden)))
      case Gone => if g.departedAt.None? then None else Some((generation, g.changedAt, DepartedView(g.departedAt.value)))
  }

  function SummaryOf(t: P.Tables, p: Id): Option<Summary>
    requires p in t.participants
  {
    var presence := PresenceOf(t, p);
    if presence.None? then None else
    var row := t.participants[p];
    var (generation, changedAt, view) := presence.value;
    Some(Summary(p, row.username, row.role, row.eligibility, generation, changedAt, view))
  }

  function Summaries(t: P.Tables, rows: seq<Id>): (r: Option<seq<Summary>>)
    requires forall p | p in rows :: p in t.participants
    ensures r.Some? ==> |r.value| == |rows| && forall i | 0 <= i < |rows| :: SummaryOf(t, rows[i]) == Some(r.value[i])
    ensures r.None? <==> exists i | 0 <= i < |rows| :: SummaryOf(t, rows[i]).None?
  {
    if rows == [] then Some([]) else
    var rest := Summaries(t, rows[..|rows| - 1]);
    var last := SummaryOf(t, rows[|rows| - 1]);
    if rest.None? || last.None? then None else Some(rest.value + [last.value])
  }

  /** The first host among the visible rows. */
  function FindHost(ps: seq<Summary>): (r: Option<Id>)
    ensures r.Some? ==> exists s | s in ps :: s.id == r.value && s.role.Host?
    ensures r.None? <==> forall s | s in ps :: !s.role.Host?
  {
    if ps == [] then None else if ps[0].role.Host? then Some(ps[0].id) else FindHost(ps[1..])
  }

  function FindSummary(ps: seq<Summary>, id: Id): (r: Option<Summary>)
    ensures r.Some? ==> r.value in ps && r.value.id == id
    ensures r.None? <==> forall s | s in ps :: s.id != id
  {
    if ps == [] then None else if ps[0].id == id then Some(ps[0]) else FindSummary(ps[1..], id)
  }

  function FindGrace(ps: seq<Summary>): (r: Option<Summary>)
    ensures r.Some? ==> r.value in ps && r.value.presence.GraceView?
  {
    if ps == [] then None else if ps[0].presence.GraceView? then Some(ps[0]) else FindGrace(ps[1..])
  }

  /** The stored marks of the viewer's card, in any order. */
  predicate OwnMarkRows(db: Db, viewer: Id, marks: seq<OwnMark>) {
    if viewer !in Cards(db) then marks == [] else
    var g := db.game.value;
    var card := g.cards[viewer].id;
    && (forall i | 0 <= i < |marks| :: marks[i].cardId == card && (card, marks[i].ball) in g.marks
          && g.marks[(card, marks[i].ball)] == Mark(marks[i].id, marks[i].markedAt))
    && (forall i, j | 0 <= i < j < |marks| :: marks[i].ball != marks[j].ball)
    && (forall k | k in g.marks && k.0 == card :: exists i | 0 <= i < |marks| :: marks[i].ball == k.1)
  }

  function TimerOf(db: Db, ps: seq<Summary>): Option<Option<TimerView>> {
    var grace := FindGrace(ps);
    var waiting := if grace.None? then None else Some(GraceTimer(grace.value.id, grace.value.generation, grace.value.presence.graceEndsAt));
    if db.game.None? then Some(waiting) else
    var r := db.game.value.round;
    if r.stage.StageWindow? then
      if r.trigger.None? || r.closesAt.None? then None else Some(Some(WindowTimer(r.trigger.value, r.closesAt.value)))
    else if r.stage.StageActive? && r.config.Automatic? && r.nextCallAt.Some? then Some(Some(CallTimer(r.nextCallAt.value)))
    else Some(waiting)
  }

  /** None where a required column is missing. */
  function RoundView(g: Game): Option<PublicRound> {
    if g.round.stage.StagePaused? && g.round.pauseReason.None? then None
    else if g.round.stage.StageResult? && g.winners == map[] then None
    else if StageOf(g).None? then None
    else Some(PublicRound(g.round.id, g.round.currentPattern, g.round.config, StageOf(g).value))
  }

  /** The snapshot before its schema is checked; None where the projection throws. */
  function Project(db: Db, viewer: Id, rows: seq<Id>, marks: seq<OwnMark>): Option<Snapshot>
    requires forall p | p in rows :: p in Tables(db).participants
  {
    var ps := Summaries(Tables(db), rows);
    if ps.None? then None else
    var host := FindHost(ps.value);
    var self := FindSummary(ps.value, viewer);
    var timer := TimerOf(db, ps.value);
    var last := if db.lastSequence == 0 then None else Some(db.lastSequence);
    if host.None? || self.None? || timer.None? then None
    else if db.game.None? then
      if db.pending.None? || db.status.LobbyActive? then None else
      Some(Snapshot(last, WaitingView(host.value), viewer, self.value, ps.value, db.pending, None, None, [], [], timer.value))
    else
      var g := db.game.value;
      var round := RoundView(g);
      if round.None? then None else
      Some(Snapshot(
        last, if db.status.LobbyWaiting? then WaitingView(host.value) else ActiveView(host.value, g.round.id), viewer, self.value, ps.value,
        None, round,
        if viewer in g.cards then Some(OwnCard(g.cards[viewer].id, viewer, g.round.id, g.cards[viewer].cells)) else None,
        marks, g.calls, timer.value))
  }

  // ---------- the rules ----------

  function PlayingCount(ps: seq<Summary>): nat {
    if ps == [] then 0 else PlayingCount(ps[..|ps| - 1]) + if ps[|ps| - 1].eligibility.Playing? then 1 else 0
  }

  predicate RosterRules(s: Snapshot) {
    && s.viewer == s.self.id
    && |s.participants| <= 26
    && (forall i, j | 0 <= i < j < |s.participants| :: s.participants[i].id != s.participants[j].id)
    && s.self in s.participants
    && (|s.participants| == 26 ==>
          s.lobby.ActiveView? && s.round.Some? && s.self.eligibility.Queued? && PlayingCount(s.participants) == 25)
    && (forall p | p in s.participants :: p.role.Host? <==> p.id == s.lobby.host)
    && (exists p | p in s.participants :: p.role.Host?)
  }

  predicate TimerRules(s: Snapshot) {
    && (s.timer.Some? && s.timer.value.GraceTimer? ==>
          exists p | p in s.participants :: p.id == s.timer.value.participant && p.generation == s.timer.value.generation
            && p.presence == GraceView(s.timer.value.deadline))
    && (s.timer.Some? && s.timer.value.CallTimer? ==> s.round.Some? && s.round.value.stage.PublicActive? && s.round.value.config.Automatic?)
    && (if s.round.Some? && s.round.value.stage.PublicWindow?
        then s.timer == Some(WindowTimer(s.round.value.stage.trigger, s.round.value.stage.closesAt))
        else s.timer.Some? ==> !s.timer.value.WindowTimer?)
  }

  predicate RoundRules(s: Snapshot) {
    && (s.lobby.ActiveView? ==> s.round.Some? && s.round.value.id == s.lobby.roundId)
    && (s.pendingSetup.Some? <==> s.round.None?)
    && (s.pendingSetup.Some? ==> ValidConfig(s.pendingSetup.value.config))
    && (s.round.None? ==> s.ownCard.None? && s.ownMarks == [] && s.calls == [])
    && (s.round.Some? ==> ValidPublicRound(s.round.value))
  }

  /** The rules of card cells: only the centre is free, and each column has distinct values in its range. */
  predicate CellRules(cells: Cells) {
    && cells[FREE_CELL] == 0
    && (forall i | 0 <= i < CELL_COUNT && i != FREE_CELL :: cells[i] != 0 && i % 5 * 15 + 1 <= cells[i] <= i % 5 * 15 + 15)
    && (forall i, j | 0 <= i < j < CELL_COUNT && i % 5 == j % 5 && i != FREE_CELL && j != FREE_CELL :: cells[i] != cells[j])
  }

  predicate CardRules(s: Snapshot) {
    s.round.Some? ==>
      && (s.self.eligibility.Playing? <==> s.ownCard.Some?)
      && (s.ownCard.None? ==> s.ownMarks == [])
      && |s.ownMarks| <= 24
      && (s.ownCard.Some? ==>
            && s.ownCard.value.roundId == s.round.value.id && s.ownCard.value.participant == s.self.id
            && CellRules(s.ownCard.value.cells)
            && (forall m | m in s.ownMarks ::
                  && m.cardId == s.ownCard.value.id
                  && m.ball != 0 && m.ball in s.ownCard.value.cells
                  && exists c | c in s.calls :: c.ball == m.ball)
            && (forall i, j | 0 <= i < j < |s.ownMarks| ::
                  s.ownMarks[i].id != s.ownMarks[j].id && s.ownMarks[i].ball != s.ownMarks[j].ball))
  }

  predicate CallRules(s: Snapshot) {
    && |s.calls| <= BALL_COUNT
    && (forall i | 0 <= i < |s.calls| :: s.calls[i].position == i + 1)
    && (forall i, j | 0 <= i < j < |s.calls| :: s.calls[i].id != s.calls[j].id && s.calls[i].ball != s.calls[j].ball)
    && (s.round.Some? && s.round.value.stage.PublicWindow? ==>
          LatestCall(s.calls).Some? && LatestCall(s.calls).value.id == s.round.value.stage.trigger)
    && (ShownResult(s).Some? ==> LatestCall(s.calls).Some? && LatestCall(s.calls).value.id == ShownResult(s).value.trigger)
  }

  function ShownResult(s: Snapshot): Option<WinnerResult> {
    if s.round.None? then None
    else if s.round.value.stage.PublicResult? then Some(s.round.value.stage.result)
    else if s.round.value.stage.PublicEnded? then s.round.value.stage.outcome
    else None
  }

  /** Winners are visible and play. */
  predicate WinnerRules(s: Snapshot) {
    ShownResult(s).Some? ==>
      forall w | w in ShownResult(s).value.winners :: exists p | p in s.participants :: p.id == w && p.eligibility.Playing?
  }

  predicate MeetsRules(s: Snapshot) {
    RosterRules(s) && TimerRules(s) && RoundRules(s) && CardRules(s) && CallRules(s) && WinnerRules(s)
  }

  // ---------- who is visible ----------

  function Top(db: Db, viewer: Id, rank: nat): set<Id> {
    set p | p in Candidates(db, viewer) && RankOf(db, viewer, p) <= rank
  }

  lemma {:induction false} UniqueCount(s: seq<Id>)
    requires Unique(s)
    ensures |Ids(s)| == |s|
  {
    if s != [] {
      var n := |s| - 1;
      UniqueCount(s[..n]);
      assert Ids(s) == Ids(s[..n]) + {s[n]};
      assert s[n] !in Ids(s[..n]);
    } else {
      assert Ids(s) == {};
    }
  }

  lemma ProperSubsetCount<T>(a: set<T>, b: set<T>, x: T)
    requires a <= b && x in b && x !in a
    ensures |a| < |b|
  {
    SubsetCount(a, b - {x});
  }

  /** The best-ranked candidates are all visible as long as they fit. */
  lemma TopVisible(db: Db, viewer: Id, rows: seq<Id>, rank: nat)
    requires viewer in Tables(db).participants && VisibleRows(db, viewer, rows)
    requires |Top(db, viewer, rank)| <= Limit(db, viewer)
    ensures Top(db, viewer, rank) <= Ids(rows)
  {
    hide RankOf, Limit;
    var top := Top(db, viewer, rank);
    UniqueCount(rows);
    if q :| q in top && q !in Ids(rows) {
      assert Ids(rows) <= top;
      ProperSubsetCount(Ids(rows), top, q);
      ProperSubsetCount(Ids(rows), Candidates(db, viewer), q);
    }
  }

  /** What the invariant says about the viewer and the host. */
  ghost predicate Viewed(db: Db, o: Options, viewer: Id, host: Id) {
    && Inv(db, o) && P.Live(Tables(db), viewer) && Hosts(Tables(db), host)
  }

  lemma RosterFacts(db: Db, o: Options, viewer: Id, host: Id)
    requires Viewed(db, o, viewer, host)
    ensures viewer in Tables(db).participants && host in Tables(db).participants
    ensures Winners(db) <= Cards(db).Keys && Cards(db).Keys <= Tables(db).participants.Keys && |Cards(db).Keys| <= MAX_PLAYERS
    ensures |Cards(db)| == |Cards(db).Keys|
    ensures db.game.Some? ==> host in Cards(db)
    ensures db.game.Some? ==> (viewer in Cards(db) <==> Tables(db).participants[viewer].eligibility.Playing?)
    ensures forall p | p in Cards(db) :: Tables(db).participants[p].eligibility.Playing?
  {
    hide A.Accounted, EventsOk, ResultsOk, WinsOk, LogOk, WinnersComplete, DrawOk, CallsOk, MarksOk, RowOk, DeadlineAfterCalls,
         ValidCells, HostOk;
    assert |Cards(db)| == |Cards(db).Keys|;
  }

  lemma RankedAt(db: Db, o: Options, viewer: Id, host: Id, p: Id)
    requires Viewed(db, o, viewer, host)
    ensures p in Top(db, viewer, 0) <==> p == viewer
    ensures p in Top(db, viewer, 1) <==> p == viewer || p == host
    ensures p in Top(db, viewer, 2) <==> p == viewer || p == host || p in Winners(db)
    ensures db.game.Some? ==> (p in Top(db, viewer, 3) <==> p == viewer || p in Cards(db))
  {
    hide Inv, Winners, Cards;
    RosterFacts(db, o, viewer, host);
  }

  /** The viewer, the host and the winners. */
  lemma TopTwo(db: Db, o: Options, viewer: Id, host: Id)
    requires Viewed(db, o, viewer, host)
    ensures Top(db, viewer, 0) == {viewer} && Top(db, viewer, 1) == {viewer, host}
    ensures Top(db, viewer, 2) == {viewer, host} + Winners(db)
    ensures db.game.Some? ==> Top(db, viewer, 3) == {viewer} + Cards(db).Keys
  {
    hide Viewed, Top, Winners, Cards;
    forall p
      ensures p in Top(db, viewer, 0) <==> p == viewer
      ensures p in Top(db, viewer, 1) <==> p == viewer || p == host
      ensures p in Top(db, viewer, 2) <==> p == viewer || p == host || p in Winners(db)
      ensures db.game.Some? ==> (p in Top(db, viewer, 3) <==> p == viewer || p in Cards(db))
    {
      RankedAt(db, o, viewer, host, p);
    }
  }

  lemma PairCount(a: Id, b: Id)
    ensures |{a}| == 1 && |{a, b}| <= 2
  {
    SubsetCount({a, b}, {a} + {b});
  }

  lemma HostAndViewerVisible(db: Db, o: Options, viewer: Id, host: Id, rows: seq<Id>)
    requires Viewed(db, o, viewer, host) && viewer in Tables(db).participants && VisibleRows(db, viewer, rows)
    ensures viewer in Ids(rows) && host in Ids(rows)
  {
    hide Viewed, VisibleRows;
    TopTwo(db, o, viewer, host);
    PairCount(viewer, host);
    TopVisible(db, viewer, rows, 1);
  }

  lemma LimitCases(db: Db, viewer: Id)
    requires viewer in Tables(db).participants
    ensures 25 <= Limit(db, viewer) <= 26
    ensures Limit(db, viewer) == 26 <==>
      db.status.LobbyActive? && Tables(db).participants[viewer].eligibility.Queued? && |Cards(db)| == MAX_PLAYERS
  {
  }

  /** A waiting viewer of an ended round with 25 cards, all of whose holders but the host have won. */
  predicate Squeezed(db: Db, viewer: Id) {
    && db.game.Some? && db.game.value.round.stage.StageEnded?
    && |db.game.value.cards| == MAX_PLAYERS && viewer !in db.game.value.cards
    && forall p | p in db.game.value.cards :: p in db.game.value.winners || IsHost(db, p)
  }

  predicate IsHost(db: Db, p: Id) {
    p in Tables(db).participants && Tables(db).participants[p].role.Host?
  }

  /** All winners fit exactly when the viewer is not squeezed. */
  lemma NeededCount(db: Db, o: Options, viewer: Id, host: Id)
    requires Viewed(db, o, viewer, host) && viewer in Tables(db).participants
    requires db.game.Some? && db.game.value.round.stage in {StageResult, StageEnded}
    ensures |{viewer, host} + Winners(db)| > Limit(db, viewer) <==> Squeezed(db, viewer)
  {
    hide Inv, Limit, Viewed;
    assert Hosts(Tables(db), host) && Inv(db, o) by { ViewedFacts(db, o, viewer, host); }
    RosterFacts(db, o, viewer, host);
    LimitCases(db, viewer);
    StatusFacts(db, o);
    Seats(Cards(db).Keys, Winners(db), viewer, host);
  }

  lemma ViewedFacts(db: Db, o: Options, viewer: Id, host: Id)
    requires Viewed(db, o, viewer, host)
    ensures Hosts(Tables(db), host) && Inv(db, o) && P.Live(Tables(db), viewer)
  {
    hide Inv;
  }

  /** A viewer without a card does not fit when everybody else with a card must be shown. */
  lemma Seats(cards: set<Id>, winners: set<Id>, viewer: Id, host: Id)
    requires winners <= cards && host in cards && |cards| <= MAX_PLAYERS
    ensures |{viewer, host} + winners| <= 26
    ensures |{viewer, host} + winners| > 25 <==>
              viewer !in cards && |cards| == MAX_PLAYERS && forall p | p in cards :: p in winners || p == host
  {
    var need := {viewer, host} + winners;
    var seated := {host} + winners;
    SubsetCount(seated, cards);
    if viewer in cards {
      SubsetCount(need, cards);
    } else {
      assert need == {viewer} + seated && viewer !in seated;
      assert |need| == 1 + |seated|;
      if |seated| == MAX_PLAYERS { SameSize(seated, cards); }
      if forall p | p in cards :: p in seated { assert seated == cards; }
    }
  }

  lemma StatusFacts(db: Db, o: Options)
    requires Inv(db, o) && db.game.Some?
    ensures db.status.LobbyActive? <==> db.game.value.round.stage in {StageActive, StagePaused, StageWindow, StageResult}
  {
    hide A.Accounted, EventsOk, ResultsOk, WinsOk, LogOk, WinnersComplete, GameOk, HostOk, PlayersOk;
  }

  lemma SameSize<T>(a: set<T>, b: set<T>)
    requires a <= b && |a| >= |b|
    ensures a == b
  {
    if x :| x in b && x !in a {
      ProperSubsetCount(a, b, x);
    }
  }

  /** The winners are all visible exactly when the viewer is not squeezed. */
  lemma WinnersVisible(db: Db, o: Options, viewer: Id, host: Id, rows: seq<Id>)
    requires Viewed(db, o, viewer, host) && viewer in Tables(db).participants && VisibleRows(db, viewer, rows)
    requires db.game.Some? && db.game.value.round.stage in {StageResult, StageEnded}
    ensures Winners(db) <= Ids(rows) <==> !Squeezed(db, viewer)
  {
    hide Viewed, Squeezed, Limit, Top, Candidates;
    TopTwo(db, o, viewer, host);
    NeededCount(db, o, viewer, host);
    HostAndViewerVisible(db, o, viewer, host, rows);
    var need := {viewer, host} + Winners(db);
    if !Squeezed(db, viewer) {
      TopVisible(db, viewer, rows, 2);
    } else if Winners(db) <= Ids(rows) {
      assert need <= Ids(rows);
      SubsetCount(need, Ids(rows));
      UniqueCount(rows);
    }
  }

  /** Twenty-six rows are the waiting viewer and the 25 card holders. */
  lemma FullHouse(db: Db, o: Options, viewer: Id, host: Id, rows: seq<Id>)
    requires Viewed(db, o, viewer, host) && viewer in Tables(db).participants && VisibleRows(db, viewer, rows)
    requires |rows| == 26
    ensures db.status.LobbyActive? && db.game.Some? && Tables(db).participants[viewer].eligibility.Queued?
    ensures Ids(rows) == {viewer} + Cards(db).Keys && viewer !in Cards(db).Keys && |Cards(db).Keys| == 25
  {
    hide Inv, Limit, Top, Candidates;
    RosterFacts(db, o, viewer, host);
    LimitCases(db, viewer);
    RoundIsThere(db, viewer);
    TopTwo(db, o, viewer, host);
    var top := {viewer} + Cards(db).Keys;
    assert |top| == 26;
    TopVisible(db, viewer, rows, 3);
    UniqueCount(rows);
    SameSize(top, Ids(rows));
  }

  lemma RoundIsThere(db: Db, viewer: Id)
    ensures |Cards(db)| == MAX_PLAYERS ==> db.game.Some?
  {
  }
}
