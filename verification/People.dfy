/** Participants, their sessions and their presence generations. */
module People {

  import opened Common

  datatype Role = Host | Player
  datatype Eligibility = Playing | Queued

  datatype Participant = Participant(
    username: nat,
    role: Role,
    eligibility: Eligibility,
    joinedAt: Time,
    departedAt: Option<Time>)

  datatype SessionStatus = SessionActive | SessionDisconnected | SessionDeparted

  datatype Session = Session(
    participant: Id,
    status: SessionStatus,
    rejoinUntil: Option<Time>,
    departedAt: Option<Time>)

  datatype PresenceStatus = Connected | Grace | Absent | Gone

  datatype Generation = Generation(
    number: nat,
    status: PresenceStatus,
    connectionCount: nat,
    changedAt: Time,
    graceEndsAt: Option<Time>,
    absentSince: Option<Time>,
    departedAt: Option<Time>,
    overridden: bool,
    endedAt: Option<Time>)

  /** `presence` lists the generations of each participant in ascending order. */
  datatype Tables = Tables(
    participants: map<Id, Participant>,
    sessions: map<Id, Session>,
    presence: map<Id, seq<Generation>>)

  // ---------- queries ----------

  predicate Live(t: Tables, p: Id) {
    p in t.participants && t.participants[p].departedAt.None?
  }

  predicate OpenSession(s: Session) {
    s.status.SessionActive? || s.status.SessionDisconnected?
  }

  predicate HasOpenSession(t: Tables, p: Id) {
    exists k | k in t.sessions :: t.sessions[k].participant == p && OpenSession(t.sessions[k])
  }

  predicate HasActiveSession(t: Tables, p: Id) {
    exists k | k in t.sessions :: t.sessions[k].participant == p && t.sessions[k].status.SessionActive?
  }

  /** The index of the newest generation that has not ended, or -1. */
  function OpenIndex(gens: seq<Generation>): (i: int)
    ensures -1 <= i < |gens|
    ensures i >= 0 ==> gens[i].endedAt.None?
  {
    if gens == [] then -1
    else if gens[|gens| - 1].endedAt.None? then |gens| - 1
    else OpenIndex(gens[..|gens| - 1])
  }

  function Generations(t: Tables, p: Id): seq<Generation> {
    if p in t.presence then t.presence[p] else []
  }

  function Current(t: Tables, p: Id): Option<Generation> {
    var gens := Generations(t, p);
    var i := OpenIndex(gens);
    if i < 0 then None else Some(gens[i])
  }

  /** Replaces the current generation. */
  function WithCurrent(t: Tables, p: Id, g: Generation): Tables
    requires Current(t, p).Some?
  {
    t.(presence := t.presence[p := t.presence[p][OpenIndex(t.presence[p]) := g]])
  }

  // ---------- lazy expiry ----------

  predicate Due(t: Tables, k: Id, now: Time) {
    && k in t.sessions
    && t.sessions[k].status.SessionDisconnected?
    && t.sessions[k].rejoinUntil.Some? && t.sessions[k].rejoinUntil.value <= now
    && Live(t, t.sessions[k].participant)
  }

  function ExpiredSession(s: Session): Session {
    s.(status := SessionDeparted, departedAt := s.rejoinUntil)
  }

  function ExpiredSessions(t: Tables, now: Time): map<Id, Session> {
    map k | k in t.sessions :: if Due(t, k, now) then ExpiredSession(t.sessions[k]) else t.sessions[k]
  }

  /** The due deadlines of participant `p`. */
  function Deadlines(t: Tables, p: Id, now: Time): set<Time> {
    set k | k in t.sessions && Due(t, k, now) && t.sessions[k].participant == p :: t.sessions[k].rejoinUntil.value
  }

  predicate IsMax(s: set<Time>, m: Time) {
    m in s && forall x | x in s :: x <= m
  }

  ghost function Max(s: set<Time>): (m: Time)
    requires s != {}
    ensures m in s && forall x | x in s :: x <= m
  {
    MaxExists(s);
    var m :| IsMax(s, m);
    m
  }

  lemma {:induction false} MaxExists(s: set<Time>)
    requires s != {}
    ensures exists m :: IsMax(s, m)
  {
    var y :| y in s;
    if s == {y} {
      assert IsMax(s, y);
    } else {
      MaxExists(s - {y});
      var m :| IsMax(s - {y}, m);
      var top := if m < y then y else m;
      forall x | x in s ensures x <= top {
        assert x == y || x in s - {y};
      }
      assert IsMax(s, top);
    }
  }

  /** Something of `p` is due, and nothing open is left afterwards. */
  predicate Departs(t: Tables, p: Id, now: Time) {
    && p in t.participants
    && Deadlines(t, p, now) != {}
    && !HasOpenSession(t.(sessions := ExpiredSessions(t, now)), p)
  }

  function DepartedGeneration(g: Generation, at: Time): Generation {
    g.(status := Gone, connectionCount := 0, changedAt := at, graceEndsAt := None, absentSince := None,
       departedAt := Some(at), overridden := false)
  }

  /** Every generation that has not ended is marked as departed. */
  function DepartedPresence(gens: seq<Generation>, at: Time): seq<Generation> {
    seq(|gens|, i requires 0 <= i < |gens| =>
      if gens[i].endedAt.None? then DepartedGeneration(gens[i], at) else gens[i])
  }

  ghost function ExpireDue(t: Tables, now: Time): Tables {
    Tables(
      map p | p in t.participants ::
        if Departs(t, p, now) then t.participants[p].(departedAt := Some(Max(Deadlines(t, p, now))))
        else t.participants[p],
      ExpiredSessions(t, now),
      map p | p in t.presence ::
        if Departs(t, p, now) then DepartedPresence(t.presence[p], Max(Deadlines(t, p, now)))
        else t.presence[p])
  }

  function DepartedCount(t: Tables, now: Time): nat {
    |set p | p in t.participants && Departs(t, p, now)|
  }

  // ---------- confluence of lazy expiry ----------

  /** A participant with an open session after the first expiry does not depart in it. */
  lemma DueLater(t: Tables, t1: Time, t2: Time, k: Id)
    requires t1 <= t2
    ensures Due(ExpireDue(t, t1), k, t2) <==> Due(t, k, t2) && !Due(t, k, t1)
  {
    var u := ExpireDue(t, t1);
    if Due(t, k, t2) && !Due(t, k, t1) {
      var p := t.sessions[k].participant;
      assert u.sessions[k] == t.sessions[k];
      assert HasOpenSession(t.(sessions := ExpiredSessions(t, t1)), p);
      assert u.participants[p] == t.participants[p];
    }
    if Due(u, k, t2) {
      assert !Due(t, k, t1);
      assert u.sessions[k] == t.sessions[k];
    }
  }

  lemma SessionsConfluent(t: Tables, t1: Time, t2: Time)
    requires t1 <= t2
    ensures ExpiredSessions(ExpireDue(t, t1), t2) == ExpiredSessions(t, t2)
  {
    forall k | k in t.sessions
      ensures ExpiredSessions(ExpireDue(t, t1), t2)[k] == ExpiredSessions(t, t2)[k]
    {
      DueLater(t, t1, t2, k);
    }
  }

  lemma DeadlinesLater(t: Tables, t1: Time, t2: Time, p: Id)
    requires t1 <= t2
    ensures var u := ExpireDue(t, t1);
            && Deadlines(t, p, t2) == Deadlines(t, p, t1) + Deadlines(u, p, t2)
            && (forall x | x in Deadlines(t, p, t1) :: x <= t1)
            && (forall x | x in Deadlines(u, p, t2) :: x > t1)
  {
    var u := ExpireDue(t, t1);
    forall k ensures Due(u, k, t2) <==> Due(t, k, t2) && !Due(t, k, t1) {
      DueLater(t, t1, t2, k);
    }
    forall x ensures x in Deadlines(t, p, t2) <==> x in Deadlines(t, p, t1) + Deadlines(u, p, t2) {
      if x in Deadlines(t, p, t2) {
        var k :| k in t.sessions && Due(t, k, t2) && t.sessions[k].participant == p && t.sessions[k].rejoinUntil.value == x;
        if !Due(t, k, t1) {
          assert Due(u, k, t2) && u.sessions[k] == t.sessions[k];
        }
      }
      if x in Deadlines(u, p, t2) {
        var k :| k in u.sessions && Due(u, k, t2) && u.sessions[k].participant == p && u.sessions[k].rejoinUntil.value == x;
        assert u.sessions[k] == t.sessions[k];
      }
    }
  }

  /** Expiring twice departs the same participants, at the same instants, as expiring once at the later time. */
  lemma DepartsConfluent(t: Tables, t1: Time, t2: Time, p: Id)
    requires t1 <= t2
    ensures var u := ExpireDue(t, t1);
            && (Departs(t, p, t2) <==> Departs(t, p, t1) || Departs(u, p, t2))
            && !(Departs(t, p, t1) && Departs(u, p, t2))
            && (Departs(t, p, t1) ==> Max(Deadlines(t, p, t1)) == Max(Deadlines(t, p, t2)))
            && (Departs(u, p, t2) ==> Max(Deadlines(u, p, t2)) == Max(Deadlines(t, p, t2)))
  {
    var u := ExpireDue(t, t1);
    SessionsConfluent(t, t1, t2);
    DeadlinesLater(t, t1, t2, p);
    if Departs(t, p, t1) {
      NothingLeftToExpire(t, t1, t2, p);
    }
    if Departs(t, p, t2) && Deadlines(u, p, t2) == {} {
      SettledEarly(t, t1, t2, p);
    }
  }

  lemma NothingLeftToExpire(t: Tables, t1: Time, t2: Time, p: Id)
    requires t1 <= t2 && Departs(t, p, t1)
    ensures Deadlines(ExpireDue(t, t1), p, t2) == {}
    ensures Departs(t, p, t2)
  {
    var u := ExpireDue(t, t1);
    forall k | k in u.sessions && u.sessions[k].participant == p ensures !Due(u, k, t2) {}
    DeadlinesLater(t, t1, t2, p);
    SessionsConfluent(t, t1, t2);
    var v := t.(sessions := ExpiredSessions(t, t2));
    forall k | k in v.sessions && v.sessions[k].participant == p ensures !OpenSession(v.sessions[k]) {
      assert !OpenSession(ExpiredSessions(t, t1)[k]);
    }
  }

  lemma DueListed(t: Tables, now: Time, k: Id)
    ensures Due(t, k, now) ==> t.sessions[k].rejoinUntil.value in Deadlines(t, t.sessions[k].participant, now)
  {
  }

  lemma SettledEarly(t: Tables, t1: Time, t2: Time, p: Id)
    requires t1 <= t2 && Departs(t, p, t2) && Deadlines(ExpireDue(t, t1), p, t2) == {}
    ensures Departs(t, p, t1)
  {
    var u := ExpireDue(t, t1);
    DeadlinesLater(t, t1, t2, p);
    var v := t.(sessions := ExpiredSessions(t, t1));
    forall k | k in v.sessions && v.sessions[k].participant == p ensures !OpenSession(v.sessions[k]) {
      DueLater(t, t1, t2, k);
      DueListed(u, t2, k);
      assert !OpenSession(ExpiredSessions(t, t2)[k]);
    }
  }

  /** Expiring at t1 and then at t2 leaves the tables and the total count of expiring once at t2. */
  lemma ExpiryConfluent(t: Tables, t1: Time, t2: Time)
    requires t1 <= t2 && t.presence.Keys == t.participants.Keys
    ensures ExpireDue(ExpireDue(t, t1), t2) == ExpireDue(t, t2)
    ensures DepartedCount(t, t1) + DepartedCount(ExpireDue(t, t1), t2) == DepartedCount(t, t2)
  {
    hide Departs, Deadlines, ExpiredSessions, DepartedPresence;
    var u := ExpireDue(t, t1);
    var once, twice := ExpireDue(t, t2), ExpireDue(u, t2);
    SessionsConfluent(t, t1, t2);
    forall p | p in t.participants
      ensures once.participants[p] == twice.participants[p] && once.presence[p] == twice.presence[p]
    {
      DepartsConfluent(t, t1, t2, p);
    }
    assert once.participants == twice.participants;
    assert once.presence == twice.presence;
    CountsAdd(t, t1, t2);
  }

  lemma CountsAdd(t: Tables, t1: Time, t2: Time)
    requires t1 <= t2
    ensures DepartedCount(t, t1) + DepartedCount(ExpireDue(t, t1), t2) == DepartedCount(t, t2)
  {
    hide Departs, Deadlines, ExpiredSessions;
    var u := ExpireDue(t, t1);
    var a := set p | p in t.participants && Departs(t, p, t1);
    var b := set p | p in u.participants && Departs(u, p, t2);
    var c := set p | p in t.participants && Departs(t, p, t2);
    forall p ensures (p in c <==> p in a || p in b) && !(p in a && p in b) {
      DepartsConfluent(t, t1, t2, p);
    }
    assert c == a + b && a !! b;
  }

  // ---------- who departs ----------

  /** Expiry departs exactly the participants with something due and nothing open left, at their largest due deadline, and never undoes a departure. */
  lemma ExpiryDeparts(t: Tables, now: Time, p: Id)
    requires p in t.participants
    ensures var u := ExpireDue(t, now);
            && (t.participants[p].departedAt.Some? ==> u.participants[p] == t.participants[p])
            && (Live(t, p) ==>
                  (u.participants[p].departedAt.Some? <==> Deadlines(t, p, now) != {} && !HasOpenSession(u, p)))
            && (Live(t, p) && u.participants[p].departedAt.Some? ==>
                  && u.participants[p].departedAt.value in Deadlines(t, p, now)
                  && forall x | x in Deadlines(t, p, now) :: x <= u.participants[p].departedAt.value)
  {
    hide Max;
    var u := ExpireDue(t, now);
    var v := t.(sessions := ExpiredSessions(t, now));
    assert HasOpenSession(u, p) <==> HasOpenSession(v, p);
    if t.participants[p].departedAt.Some? {
      assert Deadlines(t, p, now) == {};
    }
  }
}
