/** Which rows a snapshot reads and in which order: both sorts are total, so the rows are determined. */
module SnapshotRows {

  import opened Common
  import opened Rows
  import opened Games
  import opened Lobby
  import opened LobbyInv
  import opened Snapshots
  import SR = SnapshotRules
  import SC = SnapshotContents
  import P = People

  // ---------- sorting ----------

  /** A strict order under which any two different members compare. */
  ghost predicate Orders<T(!new)>(less: (T, T) -> bool, s: set<T>) {
    && (forall x, y, z | x in s && y in s && z in s && less(x, y) && less(y, z) :: less(x, z))
    && (forall x | x in s :: !less(x, x))
    && (forall x, y | x in s && y in s && x != y :: less(x, y) || less(y, x))
  }

  predicate Ascends<T>(less: (T, T) -> bool, a: seq<T>) {
    forall i, j | 0 <= i < j < |a| :: less(a[i], a[j])
  }

  function Members<T>(a: seq<T>): set<T> {
    set x | x in a
  }

  lemma {:induction false} HasLeast<T(!new)>(less: (T, T) -> bool, s: set<T>) returns (least: T)
    requires Orders(less, s) && s != {}
    ensures least in s && forall x | x in s && x != least :: less(least, x)
    decreases |s|
  {
    least :| least in s;
    var rest := s - {least};
    if rest != {} {
      var other := HasLeast(less, rest);
      if less(other, least) { least := other; }
    }
  }

  /** The members can be put in order. */
  lemma {:induction false} Sorts<T(!new)>(less: (T, T) -> bool, s: set<T>) returns (a: seq<T>)
    requires Orders(less, s)
    ensures Ascends(less, a) && Members(a) == s && |a| == |s|
    decreases |s|
  {
    a := [];
    if s != {} {
      var least := HasLeast(less, s);
      var rest := Sorts(less, s - {least});
      a := [least] + rest;
      assert Members(a) == {least} + Members(rest);
      forall i, j | 0 <= i < j < |a| ensures less(a[i], a[j]) { assert a[j] in Members(rest); }
    }
  }

  /** In just one way. */
  lemma {:induction false} SortsAlike<T(!new)>(less: (T, T) -> bool, a: seq<T>, b: seq<T>)
    requires Orders(less, Members(a)) && Ascends(less, a) && Ascends(less, b) && Members(a) == Members(b)
    ensures a == b
  {
    Nobody(a);
    Nobody(b);
    if a != [] {
      assert a[0] in Members(b) && a[0] in Members(a);
      assert b[0] in Members(a) && b[0] in Members(b);
      assert a[0] == b[0] by {
        var i :| 0 <= i < |b| && b[i] == a[0];
        var j :| 0 <= j < |a| && a[j] == b[0];
      }
      TailMembers(less, a);
      TailMembers(less, b);
      SortsAlike(less, a[1..], b[1..]);
    }
  }

  lemma Nobody<T(!new)>(a: seq<T>)
    ensures a == [] <==> Members(a) == {}
  {
    if a != [] { assert a[0] in Members(a); }
  }

  lemma TailMembers<T(!new)>(less: (T, T) -> bool, a: seq<T>)
    requires a != [] && Ascends(less, a) && Orders(less, Members(a))
    ensures Members(a[1..]) == Members(a) - {a[0]} && Ascends(less, a[1..]) && Orders(less, Members(a[1..]))
  {
    assert forall x | x in a :: x in Members(a);
    forall x | x in a[1..] ensures x != a[0] && x in Members(a) {
      var i :| 0 <= i < |a| - 1 && a[1..][i] == x;
      assert less(a[0], a[i + 1]) && a[0] in Members(a);
    }
    forall x | x in a && x != a[0] ensures x in a[1..] {
      var i :| 0 <= i < |a| && a[i] == x;
      assert a[1..][i - 1] == x;
    }
  }

  // ---------- the rows ----------

  /** Later departures first, and those who departed before those who are present. */
  predicate DepartedLater(a: Option<Time>, b: Option<Time>) {
    a.Some? && (b.None? || a.value > b.value)
  }

  /** Who joined first, and among those who joined together the lower id. */
  predicate Senior(t: P.Tables, p: Id, q: Id)
    requires p in t.participants && q in t.participants
  {
    var a, b := t.participants[p].joinedAt, t.participants[q].joinedAt;
    a < b || (a == b && p < q)
  }

  /** The order in which rows compete for a place. */
  predicate Competes(db: Db, viewer: Id, p: Id, q: Id) {
    && p in Tables(db).participants && q in Tables(db).participants
    && var a, b := Tables(db).participants[p].departedAt, Tables(db).participants[q].departedAt;
       || RankOf(db, viewer, p) < RankOf(db, viewer, q)
       || (RankOf(db, viewer, p) == RankOf(db, viewer, q) && (DepartedLater(a, b) || (a == b && Senior(Tables(db), p, q))))
  }

  /** The viewer, the host, the present, the departed. */
  function PlaceOf(db: Db, viewer: Id, p: Id): nat
    requires p in Tables(db).participants
  {
    if p == viewer then 0
    else if Tables(db).participants[p].role.Host? then 1
    else if Tables(db).participants[p].departedAt.None? then 2
    else 3
  }

  /** The order in which they are shown: those who departed by their departure, the others by when they joined. */
  predicate Precedes(db: Db, viewer: Id, p: Id, q: Id) {
    && p in Tables(db).participants && q in Tables(db).participants
    && var a, b := Tables(db).participants[p].departedAt, Tables(db).participants[q].departedAt;
       || PlaceOf(db, viewer, p) < PlaceOf(db, viewer, q)
       || (PlaceOf(db, viewer, p) == PlaceOf(db, viewer, q)
           && if a.Some? && b.Some? && a != b then a.value > b.value else Senior(Tables(db), p, q))
  }

  function Competition(db: Db, viewer: Id): (Id, Id) -> bool {
    (p: Id, q: Id) => Competes(db, viewer, p, q)
  }

  function Display(db: Db, viewer: Id): (Id, Id) -> bool {
    (p: Id, q: Id) => Precedes(db, viewer, p, q)
  }

  function Places(db: Db, viewer: Id): nat
    requires viewer in Tables(db).participants
  {
    if |Candidates(db, viewer)| <= Limit(db, viewer) then |Candidates(db, viewer)| else Limit(db, viewer)
  }

  /** The winners of the competition for places. */
  ghost predicate Chosen(db: Db, viewer: Id, chosen: set<Id>)
    requires viewer in Tables(db).participants
  {
    && chosen <= Candidates(db, viewer) && |chosen| == Places(db, viewer)
    && forall p, q | p in chosen && q in Candidates(db, viewer) - chosen :: Competes(db, viewer, p, q)
  }

  /** What the two queries and the sort give. */
  ghost predicate RowsAre(db: Db, viewer: Id, rows: seq<Id>)
    requires viewer in Tables(db).participants
  {
    Chosen(db, viewer, Members(rows)) && Ascends(Display(db, viewer), rows)
  }

  lemma CompetitionOrders(db: Db, viewer: Id, s: set<Id>)
    requires s <= Tables(db).participants.Keys
    ensures Orders(Competition(db, viewer), s)
  {
    hide RankOf;
  }

  lemma DisplayOrders(db: Db, viewer: Id, host: Id, s: set<Id>)
    requires Hosts(Tables(db), host) && s <= Tables(db).participants.Keys
    ensures Orders(Display(db, viewer), s)
  {
    hide PlaceOf, Hosts;
    forall p, q, r | p in s && q in s && r in s && Precedes(db, viewer, p, q) && Precedes(db, viewer, q, r)
      ensures Precedes(db, viewer, p, r)
    {
      DisplayChains(db, viewer, host, p, q, r);
    }
  }

  /** In one place there is the viewer, the host, or only people who are present, or only people who departed. */
  lemma DisplayChains(db: Db, viewer: Id, host: Id, p: Id, q: Id, r: Id)
    requires Hosts(Tables(db), host) && Precedes(db, viewer, p, q) && Precedes(db, viewer, q, r)
    ensures Precedes(db, viewer, p, r)
  {
  }

  // ---------- they are determined ----------

  lemma PrefixMembers<T(!new)>(less: (T, T) -> bool, a: seq<T>, n: nat)
    requires Orders(less, Members(a)) && Ascends(less, a) && n <= |a|
    ensures |Members(a[..n])| == n && Members(a[..n]) <= Members(a)
    ensures forall x, y | x in Members(a[..n]) && y in Members(a) - Members(a[..n]) :: less(x, y)
  {
    assert forall x | x in a :: x in Members(a);
    assert forall k | 0 <= k < n :: a[k] == a[..n][k] && a[..n][k] in Members(a[..n]);
    forall x, y | x in Members(a[..n]) && y in Members(a) - Members(a[..n]) ensures less(x, y) {
      var i :| 0 <= i < n && a[i] == x;
      var j :| 0 <= j < |a| && a[j] == y;
    }
    PrefixCount(less, a, n);
  }

  lemma {:induction false} PrefixCount<T(!new)>(less: (T, T) -> bool, a: seq<T>, n: nat)
    requires Orders(less, Members(a)) && Ascends(less, a) && n <= |a|
    ensures |Members(a[..n])| == n
  {
    if n > 0 {
      PrefixCount(less, a, n - 1);
      assert Members(a[..n]) == Members(a[..n - 1]) + {a[n - 1]};
      forall i | 0 <= i < n - 1 ensures a[i] != a[n - 1] {
        assert less(a[i], a[n - 1]) && a[i] in Members(a);
      }
    } else {
      assert Members(a[..n]) == {};
    }
  }

  lemma CandidatesKnown(db: Db, viewer: Id)
    ensures Candidates(db, viewer) <= Tables(db).participants.Keys
  {
  }

  /** There are such rows, just one sequence of them. */
  lemma RowsExist(db: Db, viewer: Id, host: Id) returns (rows: seq<Id>)
    requires Hosts(Tables(db), host) && viewer in Tables(db).participants
    ensures RowsAre(db, viewer, rows)
  {
    hide Hosts, Candidates, Limit, Orders, Ascends, Competes, Precedes;
    CandidatesKnown(db, viewer);
    CompetitionOrders(db, viewer, Candidates(db, viewer));
    var all := Sorts(Competition(db, viewer), Candidates(db, viewer));
    PrefixMembers(Competition(db, viewer), all, Places(db, viewer));
    var chosen := Members(all[..Places(db, viewer)]);
    DisplayOrders(db, viewer, host, chosen);
    rows := Sorts(Display(db, viewer), chosen);
  }

  lemma ChosenAlike(db: Db, viewer: Id, a: set<Id>, b: set<Id>)
    requires viewer in Tables(db).participants && Chosen(db, viewer, a) && Chosen(db, viewer, b)
    ensures a == b
  {
    hide Chosen;
    if a != b {
      ChosenSizes(db, viewer, a, b);
      var p :| p in a && p !in b;
      var q :| q in b && q !in a;
      OneIsChosen(db, viewer, a, b, p, q);
      assert false;
    }
  }

  lemma ChosenSizes(db: Db, viewer: Id, a: set<Id>, b: set<Id>)
    requires viewer in Tables(db).participants && Chosen(db, viewer, a) && Chosen(db, viewer, b) && a != b
    ensures (exists p :: p in a && p !in b) && (exists q :: q in b && q !in a)
  {
    hide Candidates, Limit, Competes;
    if a <= b {
      var q :| q in b && q !in a;
      ProperSubsetCount(a, b, q);
    } else if b <= a {
      var p :| p in a && p !in b;
      ProperSubsetCount(b, a, p);
    }
  }

  lemma OneIsChosen(db: Db, viewer: Id, a: set<Id>, b: set<Id>, p: Id, q: Id)
    requires viewer in Tables(db).participants && Chosen(db, viewer, a) && Chosen(db, viewer, b)
    ensures !(p in a - b && q in b - a)
  {
    hide Candidates, Limit, RankOf;
    assert q in b - a ==> q in Candidates(db, viewer) - a;
    assert p in a - b ==> p in Candidates(db, viewer) - b;
  }

  lemma RowsAreUnique(db: Db, o: Options, viewer: Id, rows: seq<Id>, others: seq<Id>)
    requires Inv(db, o) && viewer in Tables(db).participants && RowsAre(db, viewer, rows) && RowsAre(db, viewer, others)
    ensures rows == others
  {
    hide Inv, Hosts, Candidates, Places, Orders, Ascends, Competes, Precedes;
    var host := SR.TheHost(db, o);
    ChosenAlike(db, viewer, Members(rows), Members(others));
    CandidatesKnown(db, viewer);
    DisplayOrders(db, viewer, host, Members(rows));
    SortsAlike(Display(db, viewer), rows, others);
  }

  /** What holds of all admissible rows holds of these. */
  lemma RowsAreVisible(db: Db, viewer: Id, host: Id, rows: seq<Id>)
    requires Hosts(Tables(db), host) && viewer in Tables(db).participants && RowsAre(db, viewer, rows)
    ensures VisibleRows(db, viewer, rows)
  {
    hide Hosts, Candidates, Limit, Precedes, RankOf;
    CandidatesKnown(db, viewer);
    DisplayOrders(db, viewer, host, Members(rows));
    assert forall x | x in rows :: x in Members(rows);
    assert rows[..|rows|] == rows;
    PrefixCount(Display(db, viewer), rows, |rows|);
    assert Members(rows) == Ids(rows);
  }

  // ---------- what is served ----------

  /** The viewer's marks in the order in which they were made. */
  predicate MarkRows(db: Db, viewer: Id, marks: seq<OwnMark>) {
    OwnMarkRows(db, viewer, marks) && forall i, j | 0 <= i < j < |marks| :: marks[i].markedAt <= marks[j].markedAt
  }

  /** Earlier marks first; the ball decides between marks of one instant, whose order the query leaves open. */
  predicate MarkedBefore(a: OwnMark, b: OwnMark) {
    a.markedAt < b.markedAt || (a.markedAt == b.markedAt && a.ball < b.ball)
  }

  function OwnMarks(g: Game, card: Id): set<OwnMark> {
    set k | k in g.marks && k.0 == card :: OwnMark(g.marks[k].id, card, k.1, g.marks[k].markedAt)
  }

  lemma MarksExist(db: Db, viewer: Id) returns (marks: seq<OwnMark>)
    ensures MarkRows(db, viewer, marks)
  {
    marks := [];
    if viewer in Cards(db) {
      var less := (a: OwnMark, b: OwnMark) => MarkedBefore(a, b);
      marks := Sorts(less, OwnMarks(db.game.value, db.game.value.cards[viewer].id));
      assert forall i, j | 0 <= i < j < |marks| :: less(marks[i], marks[j]);
      MarksAreRows(db, viewer, marks);
    }
  }

  lemma MarksAreRows(db: Db, viewer: Id, marks: seq<OwnMark>)
    requires viewer in Cards(db) && Members(marks) == OwnMarks(db.game.value, db.game.value.cards[viewer].id)
    requires forall i, j | 0 <= i < j < |marks| :: MarkedBefore(marks[i], marks[j])
    ensures MarkRows(db, viewer, marks)
  {
    var g := db.game.value;
    var card := g.cards[viewer].id;
    forall i | 0 <= i < |marks|
      ensures marks[i].cardId == card && (card, marks[i].ball) in g.marks
              && g.marks[(card, marks[i].ball)] == Mark(marks[i].id, marks[i].markedAt)
    {
      assert marks[i] in Members(marks);
      var k :| k in g.marks && k.0 == card && marks[i] == OwnMark(g.marks[k].id, card, k.1, g.marks[k].markedAt);
      assert k == (card, marks[i].ball);
    }
    forall k | k in g.marks && k.0 == card ensures exists i | 0 <= i < |marks| :: marks[i].ball == k.1 {
      var m := OwnMark(g.marks[k].id, card, k.1, g.marks[k].markedAt);
      assert m in OwnMarks(g, card) && m in Members(marks);
    }
    forall i, j | 0 <= i < j < |marks| ensures marks[i].ball != marks[j].ball && marks[i].markedAt <= marks[j].markedAt {
      assert MarkedBefore(marks[i], marks[j]);
      assert g.marks[(card, marks[i].ball)].markedAt == marks[i].markedAt && g.marks[(card, marks[j].ball)].markedAt == marks[j].markedAt;
    }
  }

  /** The viewer first, then the host; then those who are present, the earliest first; then those who departed, the latest first. */
  predicate InOrder(db: Db, viewer: Id, rows: seq<Id>) {
    && rows != [] && rows[0] == viewer && (forall p | p in rows :: p in Tables(db).participants)
    && (forall i | 0 <= i < |rows| && Tables(db).participants[rows[i]].role.Host? :: i <= 1)
    && (forall i, j | 2 <= i < j < |rows| ::
          var a, b := Tables(db).participants[rows[i]], Tables(db).participants[rows[j]];
          && (a.departedAt.Some? ==> b.departedAt.Some? && a.departedAt.value >= b.departedAt.value)
          && (b.departedAt.None? ==> a.joinedAt <= b.joinedAt))
  }

  /** Whoever has an active session gets a snapshot, and its rows are determined. */
  lemma SnapshotIsServed(db: Db, o: Options, viewer: Id, session: Id) returns (rows: seq<Id>, marks: seq<OwnMark>, s: Snapshot)
    requires Inv(db, o) && Authenticated(db, viewer, session)
    ensures viewer in Tables(db).participants && RowsAre(db, viewer, rows) && VisibleRows(db, viewer, rows) && InOrder(db, viewer, rows)
    ensures forall others | RowsAre(db, viewer, others) :: others == rows
    ensures MarkRows(db, viewer, marks)
    ensures (forall p | p in rows :: p in Tables(db).participants) && Project(db, viewer, rows, marks) == Some(s)
  {
    hide Inv, Hosts, RowsAre, VisibleRows, OwnMarkRows, InOrder, SC.ShowsPerson, SC.ShowsLobby, SC.ShowsTimer, Project;
    var host := SR.TheHost(db, o);
    rows := RowsExist(db, viewer, host);
    RowsAreVisible(db, viewer, host, rows);
    forall others | RowsAre(db, viewer, others) ensures others == rows { RowsAreUnique(db, o, viewer, rows, others); }
    marks := MarksExist(db, viewer);
    SC.SnapshotShows(db, o, viewer, session, rows, marks);
    s := Project(db, viewer, rows, marks).value;
    SC.WhoIsVisible(db, o, viewer, session, rows);
    HostIs(db, host);
    ShownInOrder(db, viewer, host, rows);
  }

  lemma HostIs(db: Db, host: Id)
    requires Hosts(Tables(db), host)
    ensures host in Tables(db).participants && Tables(db).participants[host].role.Host?
  {
  }

  lemma ShownInOrder(db: Db, viewer: Id, host: Id, rows: seq<Id>)
    requires Hosts(Tables(db), host) && viewer in Tables(db).participants && RowsAre(db, viewer, rows)
    requires viewer in rows && host in rows
    ensures InOrder(db, viewer, rows)
  {
    hide Chosen;
    assert forall i, j | 0 <= i < j < |rows| :: Display(db, viewer)(rows[i], rows[j]);
    assert forall i, j | 0 <= i < j < |rows| :: Precedes(db, viewer, rows[i], rows[j]);
    RowsKnown(db, viewer, rows);
    var k :| 0 <= k < |rows| && rows[k] == viewer;
    assert forall i | 0 < i < |rows| :: Precedes(db, viewer, rows[0], rows[i]);
    assert k == 0;
    forall i | 2 <= i < |rows| ensures !Tables(db).participants[rows[i]].role.Host? {
      assert Precedes(db, viewer, rows[0], rows[1]) && Precedes(db, viewer, rows[1], rows[i]) && Precedes(db, viewer, rows[0], rows[i]);
    }
  }

  lemma RowsKnown(db: Db, viewer: Id, rows: seq<Id>)
    requires viewer in Tables(db).participants && RowsAre(db, viewer, rows)
    ensures forall p | p in rows :: p in Tables(db).participants
  {
    hide Limit;
    assert forall p | p in rows :: p in Members(rows);
  }
}
