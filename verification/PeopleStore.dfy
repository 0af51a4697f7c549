/** The participant, session and presence tables as they are updated in place, row by row. */
module PeopleStore {

  import opened Common
  import opened People
  import opened Presence
  import C = Connections

  // ---------- lazy expiry, one row at a time ----------

  function RejoinDeadline(sessions: map<Id, Session>, k: Id): Time {
    if k in sessions && sessions[k].rejoinUntil.Some? then sessions[k].rejoinUntil.value else 0
  }

  predicate SortedByDeadline(sessions: map<Id, Session>, due: seq<Id>) {
    forall i, j | 0 <= i < j < |due| :: RejoinDeadline(sessions, due[i]) <= RejoinDeadline(sessions, due[j])
  }

  predicate Distinct(s: seq<Id>) {
    forall i, j | 0 <= i < j < |s| :: s[i] != s[j]
  }

  predicate Earliest(sessions: map<Id, Session>, s: set<Id>, k: Id) {
    k in s && forall j | j in s :: RejoinDeadline(sessions, k) <= RejoinDeadline(sessions, j)
  }

  lemma {:induction false} EarliestExists(sessions: map<Id, Session>, s: set<Id>)
    requires s != {}
    ensures exists k :: Earliest(sessions, s, k)
  {
    hide RejoinDeadline;
    var x :| x in s;
    if s == {x} {
      assert Earliest(sessions, s, x);
    } else {
      EarliestExists(sessions, s - {x});
      var y :| Earliest(sessions, s - {x}, y);
      var first := if RejoinDeadline(sessions, x) < RejoinDeadline(sessions, y) then x else y;
      forall j | j in s ensures RejoinDeadline(sessions, first) <= RejoinDeadline(sessions, j) {
        assert j == x || j in s - {x};
      }
      assert Earliest(sessions, s, first);
    }
  }

  /** The sessions after the first `due` rows were expired. */
  function SessionsAfter(sessions: map<Id, Session>, done: set<Id>): map<Id, Session> {
    map k | k in sessions :: if k in done then ExpiredSession(sessions[k]) else sessions[k]
  }

  function Elements(s: seq<Id>): set<Id> {
    set x | x in s
  }

  function DueIds(t: Tables, now: Time): set<Id> {
    set k | k in t.sessions && Due(t, k, now)
  }

  lemma AllExpired(t: Tables, now: Time, due: seq<Id>)
    requires Elements(due) == DueIds(t, now)
    ensures SessionsAfter(t.sessions, Elements(due)) == ExpiredSessions(t, now)
  {
    forall k | k in t.sessions ensures k in Elements(due) <==> Due(t, k, now) {}
  }

  /** The deadline recorded last for each participant among the first rows in ascending order. */
  predicate LastDeadlines(t: Tables, due: seq<Id>, deadlines: map<Id, Time>) {
    && (forall p | p in deadlines :: exists i :: 0 <= i < |due| && IsLast(t, due, p, i, deadlines[p]))
    && (forall i | 0 <= i < |due| && due[i] in t.sessions :: t.sessions[due[i]].participant in deadlines)
  }

  predicate IsLast(t: Tables, due: seq<Id>, p: Id, i: nat, at: Time)
    requires i < |due|
  {
    && due[i] in t.sessions && t.sessions[due[i]].participant == p && RejoinDeadline(t.sessions, due[i]) == at
    && forall j | i < j < |due| && due[j] in t.sessions :: t.sessions[due[j]].participant != p
  }

  lemma ExtendDeadlines(t: Tables, due: seq<Id>, k: Id, deadlines: map<Id, Time>)
    requires LastDeadlines(t, due, deadlines) && k in t.sessions
    ensures LastDeadlines(t, due + [k], deadlines[t.sessions[k].participant := RejoinDeadline(t.sessions, k)])
  {
    var p := t.sessions[k].participant;
    var more := due + [k];
    var after := deadlines[p := RejoinDeadline(t.sessions, k)];
    forall q | q in after ensures exists i :: 0 <= i < |more| && IsLast(t, more, q, i, after[q]) {
      if q == p {
        assert IsLast(t, more, q, |due|, after[q]);
      } else {
        var i :| 0 <= i < |due| && IsLast(t, due, q, i, deadlines[q]);
        assert IsLast(t, more, q, i, after[q]);
      }
    }
  }

  /** Overwriting in ascending order keeps the largest deadline of each participant. */
  lemma LastIsLargest(t: Tables, now: Time, due: seq<Id>, deadlines: map<Id, Time>, p: Id)
    requires Elements(due) == DueIds(t, now) && SortedByDeadline(t.sessions, due) && LastDeadlines(t, due, deadlines)
    ensures p in deadlines <==> Deadlines(t, p, now) != {}
    ensures p in deadlines ==> deadlines[p] == Max(Deadlines(t, p, now))
  {
    hide Max;
    if p in deadlines {
      var i :| 0 <= i < |due| && IsLast(t, due, p, i, deadlines[p]);
      assert due[i] in DueIds(t, now);
      assert deadlines[p] in Deadlines(t, p, now);
      forall x | x in Deadlines(t, p, now) ensures x <= deadlines[p] {
        var k :| k in t.sessions && Due(t, k, now) && t.sessions[k].participant == p && t.sessions[k].rejoinUntil.value == x;
        assert k in Elements(due);
        var j :| 0 <= j < |due| && due[j] == k;
        assert j <= i;
      }
    }
    if Deadlines(t, p, now) != {} {
      var x :| x in Deadlines(t, p, now);
      var k :| k in t.sessions && Due(t, k, now) && t.sessions[k].participant == p;
      assert k in Elements(due);
      var j :| 0 <= j < |due| && due[j] == k;
    }
  }

  /** The participants and presence rows after those in `done` were looked at. */
  ghost function ParticipantsAfter(t: Tables, now: Time, done: set<Id>): map<Id, Participant> {
    map p | p in t.participants ::
      if p in done && Departs(t, p, now) then t.participants[p].(departedAt := Some(Max(Deadlines(t, p, now)))) else t.participants[p]
  }

  ghost function PresenceAfter(t: Tables, now: Time, done: set<Id>): map<Id, seq<Generation>> {
    map p | p in t.presence ::
      if p in done && Departs(t, p, now) then DepartedPresence(t.presence[p], Max(Deadlines(t, p, now))) else t.presence[p]
  }

  ghost function DepartedIn(t: Tables, now: Time, done: set<Id>): set<Id> {
    set p | p in t.participants && p in done && Departs(t, p, now)
  }

  lemma NoDeadlineNoDeparture(t: Tables, now: Time, done: set<Id>)
    requires forall p | Deadlines(t, p, now) != {} :: p in done
    ensures Tables(ParticipantsAfter(t, now, done), ExpiredSessions(t, now), PresenceAfter(t, now, done)) == ExpireDue(t, now)
    ensures |DepartedIn(t, now, done)| == DepartedCount(t, now)
  {
    hide Max;
    assert DepartedIn(t, now, done) == set p | p in t.participants && Departs(t, p, now);
  }

  /** Looking at one more participant. */
  lemma OneMore(t: Tables, now: Time, done: set<Id>, p: Id)
    requires p !in done
    ensures p in t.participants ==> p in ParticipantsAfter(t, now, done) && ParticipantsAfter(t, now, done)[p] == t.participants[p]
    ensures p in t.presence <==> p in PresenceAfter(t, now, done)
    ensures p in t.presence ==> PresenceAfter(t, now, done)[p] == t.presence[p]
    ensures var more := done + {p};
            if Departs(t, p, now) then
              && ParticipantsAfter(t, now, more)
                 == ParticipantsAfter(t, now, done)[p := t.participants[p].(departedAt := Some(Max(Deadlines(t, p, now))))]
              && PresenceAfter(t, now, more) == (if p !in t.presence then PresenceAfter(t, now, done)
                 else PresenceAfter(t, now, done)[p := DepartedPresence(t.presence[p], Max(Deadlines(t, p, now)))])
              && DepartedIn(t, now, more) == DepartedIn(t, now, done) + {p} && p !in DepartedIn(t, now, done)
            else
              && ParticipantsAfter(t, now, more) == ParticipantsAfter(t, now, done)
              && PresenceAfter(t, now, more) == PresenceAfter(t, now, done)
              && DepartedIn(t, now, more) == DepartedIn(t, now, done)
  {
    hide Max, Departs;
    DepartsHere(t, now, p);
  }

  lemma DepartsHere(t: Tables, now: Time, p: Id)
    ensures Departs(t, p, now) ==> p in t.participants && Deadlines(t, p, now) != {}
  {
  }

  lemma NothingDone(t: Tables, now: Time)
    ensures ParticipantsAfter(t, now, {}) == t.participants && PresenceAfter(t, now, {}) == t.presence
    ensures DepartedIn(t, now, {}) == {}
  {
    hide Max, Departs;
  }

  lemma StillLive(t: Tables, now: Time, p: Id)
    requires Deadlines(t, p, now) != {}
    ensures p in t.participants && t.participants[p].departedAt.None?
  {
  }

  class Store {
    var participants: map<Id, Participant>
    var sessions: map<Id, Session>
    var presence: map<Id, seq<Generation>>

    constructor ()
      ensures Contents() == Tables(map[], map[], map[])
    {
      participants, sessions, presence := map[], map[], map[];
    }

    function Contents(): Tables
      reads this
    {
      Tables(participants, sessions, presence)
    }

    /** The due sessions in ascending order of their deadlines. */
    method FindDue(now: Time) returns (due: seq<Id>)
      ensures Elements(due) == DueIds(Contents(), now) && Distinct(due) && SortedByDeadline(sessions, due)
    {
      var rest := DueIds(Contents(), now);
      due := [];
      while rest != {}
        invariant Elements(due) + rest == DueIds(Contents(), now) && Elements(due) !! rest
        invariant Distinct(due) && SortedByDeadline(sessions, due)
        invariant forall i, k | 0 <= i < |due| && k in rest :: RejoinDeadline(sessions, due[i]) <= RejoinDeadline(sessions, k)
      {
        EarliestExists(sessions, rest);
        var k :| k in rest && Earliest(sessions, rest, k);
        assert Elements(due + [k]) == Elements(due) + {k};
        due := due + [k];
        rest := rest - {k};
      }
    }

    /** Expires the due sessions one by one, and departs the participants that this leaves without an open one. */
    method ExpireDueSessions(now: Time) returns (departed: nat)
      modifies this
      ensures Contents() == ExpireDue(old(Contents()), now)
      ensures departed == DepartedCount(old(Contents()), now)
    {
      ghost var t := Contents();
      var due := FindDue(now);
      var deadlines := ExpireSessions(now, due);
      AllExpired(t, now, due);
      departed := DepartParticipants(t, now, due, deadlines);
    }

    method ExpireSessions(now: Time, due: seq<Id>) returns (deadlines: map<Id, Time>)
      requires Elements(due) == DueIds(Contents(), now) && Distinct(due)
      modifies this`sessions
      ensures sessions == SessionsAfter(old(sessions), Elements(due))
      ensures LastDeadlines(old(Contents()), due, deadlines)
    {
      ghost var t := Contents();
      deadlines := map[];
      var i := 0;
      while i < |due|
        invariant 0 <= i <= |due|
        invariant sessions == SessionsAfter(t.sessions, Elements(due[..i]))
        invariant LastDeadlines(t, due[..i], deadlines)
      {
        var k := due[i];
        assert k in Elements(due);
        assert k !in Elements(due[..i]);
        var session := sessions[k];
        assert due[..i + 1] == due[..i] + [k];
        assert Elements(due[..i + 1]) == Elements(due[..i]) + {k};
        ExtendDeadlines(t, due[..i], k, deadlines);
        sessions := sessions[k := session.(status := SessionDeparted, departedAt := session.rejoinUntil)];
        deadlines := deadlines[session.participant := session.rejoinUntil.value];
        i := i + 1;
      }
      assert due[..i] == due;
    }

    method DepartParticipants(ghost t: Tables, now: Time, ghost due: seq<Id>, deadlines: map<Id, Time>) returns (departed: nat)
      requires Elements(due) == DueIds(t, now) && SortedByDeadline(t.sessions, due) && LastDeadlines(t, due, deadlines)
      requires participants == t.participants && presence == t.presence && sessions == ExpiredSessions(t, now)
      modifies this`participants, this`presence
      ensures Contents() == ExpireDue(t, now) && departed == DepartedCount(t, now)
    {
      hide Max, Departs, Deadlines, ParticipantsAfter, PresenceAfter, DepartedIn, HasOpenSession, LastDeadlines, DueIds, ExpireDue,
           DepartedPresence, SortedByDeadline, ExpiredSessions, DepartedCount;
      departed := 0;
      var rest := deadlines.Keys;
      NothingDone(t, now);
      assert deadlines.Keys - rest == {};
      while rest != {}
        invariant rest <= deadlines.Keys
        invariant participants == ParticipantsAfter(t, now, deadlines.Keys - rest)
        invariant presence == PresenceAfter(t, now, deadlines.Keys - rest)
        invariant departed == |DepartedIn(t, now, deadlines.Keys - rest)|
      {
        var p :| p in rest;
        LastIsLargest(t, now, due, deadlines, p);
        StillLive(t, now, p);
        OneMore(t, now, deadlines.Keys - rest, p);
        assert deadlines.Keys - (rest - {p}) == (deadlines.Keys - rest) + {p};
        rest := rest - {p};
        SameOpenSessions(t, Contents(), now, p);
        if !HasOpenSession(Contents(), p) {
          participants := participants[p := participants[p].(departedAt := Some(deadlines[p]))];
          if p in presence {
            presence := presence[p := DepartedPresence(presence[p], deadlines[p])];
          }
          departed := departed + 1;
        }
      }
      forall p | Deadlines(t, p, now) != {} ensures p in deadlines.Keys { LastIsLargest(t, now, due, deadlines, p); }
      assert deadlines.Keys - rest == deadlines.Keys;
      NoDeadlineNoDeparture(t, now, deadlines.Keys);
    }

    // ---------- connections ----------

    method ActivateSession(session: Id, now: Time)
      requires PeopleOk(Contents()) && session in sessions && !sessions[session].status.SessionDeparted?
      modifies this`sessions
      ensures Contents() == Activate(old(Contents()), session, now)
    {
      hide PeopleOk, Activate;
      ghost var t := Contents();
      var p := sessions[session].participant;
      var siblings := set k | k in sessions && sessions[k].participant == p && k != session && !sessions[k].status.SessionDeparted?;
      sessions := DepartAll(sessions, siblings, now);
      if sessions[session].status.SessionDisconnected? {
        sessions := sessions[session := sessions[session].(status := SessionActive, rejoinUntil := None, departedAt := None)];
      }
      ActiveRowIsClean(t, session);
      ActivatedRows(t, session, now);
    }

    method FindCurrent(p: Id) returns (current: Option<Generation>)
      ensures current == Current(Contents(), p)
    {
      current := None;
      if p in presence {
        var i := |presence[p]|;
        assert presence[p][..i] == presence[p];
        while i > 0
          invariant 0 <= i <= |presence[p]|
          invariant OpenIndex(presence[p]) == OpenIndex(presence[p][..i])
        {
          i := i - 1;
          assert presence[p][..i + 1][..i] == presence[p][..i];
          if presence[p][i].endedAt.None? { return Some(presence[p][i]); }
        }
      }
    }

    method UpdateCurrent(p: Id, g: Generation)
      requires Current(Contents(), p).Some?
      modifies this`presence
      ensures Contents() == WithCurrent(old(Contents()), p, g)
    {
      presence := presence[p := presence[p][OpenIndex(presence[p]) := g]];
    }

    /** A socket of the session connects; the result is the generation it belongs to. */
    method RegisterConnection(p: Id, session: Id, now: Time) returns (number: Option<nat>, announced: Option<Generation>)
      requires PeopleOk(Contents())
      modifies this
      ensures PeopleOk(Contents())
      ensures var c := Register(old(Contents()), p, session, now);
              Contents() == c.tables && number == c.number && announced == c.announced
    {
      hide PeopleOk, ExpireDue, Activate, OpenIndex;
      ghost var t0 := Contents();
      C.RegisterKeeps(t0, p, session, now);
      ExpireKeeps(t0, now);
      var departed := ExpireDueSessions(now);
      if !MayConnect(Contents(), p, session) { return None, None; }
      ActivateSession(session, now);
      var current := FindCurrent(p);
      if current.None? || current.value.status.Gone? { return None, None; }
      if current.value.status.Connected? {
        UpdateCurrent(p, current.value.(connectionCount := current.value.connectionCount + 1));
        return Some(current.value.number), None;
      }
      UpdateCurrent(p, current.value.(endedAt := Some(now)));
      var next := ConnectedGeneration(current.value.number + 1, now);
      presence := presence[p := presence[p] + [next]];
      return Some(next.number), Some(next);
    }

    /** A socket that belongs to generation `number` disconnects. */
    method UnregisterConnection(p: Id, session: Id, number: nat, chosen: Id, now: Time, rejoinMs: nat, graceMs: nat)
        returns (announced: Option<Generation>)
      requires PeopleOk(Contents())
      modifies this
      ensures PeopleOk(Contents())
      ensures var c := Unregister(old(Contents()), p, session, number, chosen, now, rejoinMs, graceMs);
              Contents() == c.tables && announced == c.announced
    {
      ghost var t0 := Contents();
      C.UnregisterKeeps(t0, p, session, number, chosen, now, rejoinMs, graceMs);
      if session !in sessions || sessions[session].participant != p { return None; }
      var current := FindCurrent(p);
      if current.None? || !current.value.status.Connected? || current.value.number != number { return None; }
      if current.value.connectionCount > 1 {
        UpdateCurrent(p, current.value.(connectionCount := current.value.connectionCount - 1));
        return None;
      }
      var departed := ExpireDueSessions(now);
      DisconnectSession(p, chosen, now, rejoinMs);
      CurrentOutlivesExpiry(t0, p, chosen, now, rejoinMs);
      var grace := GraceGeneration(current.value, now, graceMs);
      UpdateCurrent(p, grace);
      return Some(grace);
    }

    method DisconnectSession(p: Id, chosen: Id, now: Time, rejoinMs: nat)
      modifies this`sessions
      ensures Contents() == Disconnect(old(Contents()), p, chosen, now, rejoinMs)
    {
      if chosen in sessions && sessions[chosen].participant == p && sessions[chosen].status.SessionActive? && Live(Contents(), p) {
        sessions := sessions[chosen := sessions[chosen].(status := SessionDisconnected,
                                                         rejoinUntil := Some(now + rejoinMs), departedAt := None)];
      }
    }

    /** The grace period of a lease has run out, if the lease still describes the current generation. */
    method ExpirePresenceGrace(lease: Lease, now: Time) returns (announced: Option<Generation>)
      requires PeopleOk(Contents())
      modifies this`presence
      ensures PeopleOk(Contents())
      ensures match ExpireGrace(old(Contents()), lease, now)
              case Expired(tables, absent) => Contents() == tables && announced == Some(absent)
              case _ => Contents() == old(Contents()) && announced.None?
    {
      C.GraceKeeps(Contents(), lease, now);
      var current := FindCurrent(lease.participant);
      if current.None? || current.value.number != lease.number || !current.value.status.Grace?
        || current.value.connectionCount != 0 || !Live(Contents(), lease.participant) { return None; }
      if current.value.graceEndsAt != Some(lease.graceEndsAt) { return None; }
      if now < lease.graceEndsAt { return None; }
      var absent := AbsentGeneration(current.value, now);
      UpdateCurrent(lease.participant, absent);
      return Some(absent);
    }

    method OverrideAbsence(p: Id, number: nat, now: Time) returns (ok: bool)
      requires PeopleOk(Contents())
      modifies this
      ensures var u := ExpireDue(old(Contents()), now);
              && ok == Overridable(u, p, number)
              && Contents() == if ok then Override(u, p, now) else u
      ensures PeopleOk(Contents())
    {
      ghost var t0 := Contents();
      ExpireKeeps(t0, now);
      var departed := ExpireDueSessions(now);
      ok := Overridable(Contents(), p, number);
      if ok {
        C.OverrideKeeps(Contents(), p, number, now);
        var current := FindCurrent(p);
        UpdateCurrent(p, current.value.(overridden := true, changedAt := now));
      }
    }

    // ---------- joining and returning ----------

    /** Everybody who has not departed plays in the next round. */
    method EnrollEveryone()
      modifies this`participants
      ensures Contents() == C.AllPlay(old(Contents()))
    {
      participants := map p | p in participants ::
        if participants[p].departedAt.None? then participants[p].(eligibility := Playing) else participants[p];
    }

    method JoinWithSession(p: Id, session: Id, username: nat, eligibility: Eligibility, issuedAt: Time, maxPlayers: nat, now: Time)
        returns (joined: bool)
      requires PeopleOk(Contents()) && p !in participants && session !in sessions
      modifies this
      ensures PeopleOk(Contents())
      ensures var r := Join(old(Contents()), p, session, username, eligibility, issuedAt, maxPlayers, now);
              && joined == r.Joined?
              && Contents() == if r.Joined? then r.tables else r.after
    {
      hide PeopleOk, ExpireDue;
      ghost var t0 := Contents();
      C.JoinKeeps(t0, p, session, username, eligibility, issuedAt, maxPlayers, now);
      var departed := ExpireDueSessions(now);
      if exists q | q in participants :: participants[q].username == username { return false; }
      if |LiveIds(Contents())| >= maxPlayers { return false; }
      participants := participants[p := Participant(username, Player, eligibility, issuedAt, None)];
      presence := presence[p := [AbsentFromJoin(issuedAt)]];
      sessions := sessions[session := Session(p, SessionActive, None, None)];
      return true;
    }

    method RejoinWithSession(session: Id, now: Time) returns (returned: bool)
      requires PeopleOk(Contents())
      modifies this
      ensures Contents() == Rejoin(old(Contents()), session, now) && PeopleOk(Contents())
      ensures var u := ExpireDue(old(Contents()), now);
              returned == (session in u.sessions && MayConnect(u, u.sessions[session].participant, session))
    {
      ghost var t0 := Contents();
      C.RejoinKeeps(t0, session, now);
      ExpireKeeps(t0, now);
      var departed := ExpireDueSessions(now);
      returned := session in sessions && MayConnect(Contents(), sessions[session].participant, session);
      if returned { ActivateSession(session, now); }
    }
  }

  lemma SameOpenSessions(t: Tables, u: Tables, now: Time, p: Id)
    requires u.sessions == ExpiredSessions(t, now)
    ensures Departs(t, p, now) <==> p in t.participants && Deadlines(t, p, now) != {} && !HasOpenSession(u, p)
  {
    assert HasOpenSession(u, p) <==> HasOpenSession(t.(sessions := ExpiredSessions(t, now)), p);
  }

  lemma ActivatedRows(t: Tables, session: Id, now: Time)
    requires session in t.sessions && !t.sessions[session].status.SessionDeparted?
    requires t.sessions[session].status.SessionActive? ==> t.sessions[session].rejoinUntil.None? && t.sessions[session].departedAt.None?
    ensures var p := t.sessions[session].participant;
            var siblings := set k | k in t.sessions && t.sessions[k].participant == p && k != session && !t.sessions[k].status.SessionDeparted?;
            var departed := DepartAll(t.sessions, siblings, now);
            var active := t.sessions[session].(status := SessionActive, rejoinUntil := None, departedAt := None);
            && session in departed && departed[session] == t.sessions[session]
            && Activate(t, session, now)
               == t.(sessions := if t.sessions[session].status.SessionDisconnected? then departed[session := active] else departed)
  {
  }

  function DepartAll(sessions: map<Id, Session>, ids: set<Id>, now: Time): map<Id, Session> {
    map k | k in sessions :: if k in ids then sessions[k].(status := SessionDeparted, departedAt := Some(now)) else sessions[k]
  }

  lemma ActiveRowIsClean(t: Tables, session: Id)
    requires PeopleOk(t) && session in t.sessions
    ensures t.sessions[session].status.SessionActive? ==> t.sessions[session].rejoinUntil.None? && t.sessions[session].departedAt.None?
  {
    assert SessionShape(t.sessions[session]);
  }

  /** Expiry leaves the generation of a connected participant alone. */
  lemma CurrentOutlivesExpiry(t: Tables, p: Id, chosen: Id, now: Time, rejoinMs: nat)
    requires PeopleOk(t) && Current(t, p).Some? && Current(t, p).value.status.Connected?
    ensures Current(Disconnect(ExpireDue(t, now), p, chosen, now, rejoinMs), p).Some?
  {
    hide ExpireDue, HasActiveSession, HasOpenSession, GenerationShape;
    if p !in t.participants {
      NoCurrentOutside(t, p);
    } else {
      CurrentIsNewest(t, p);
      C.LastSocketLeaves(t, p, now);
    }
  }
}
