/** Connections, disconnections and grace periods: the presence steps, and what every run of them keeps. */
module Presence {

  import opened Common
  import opened People

  // ---------- steps ----------

  /** The session becomes active and its open siblings depart. */
  function Activate(t: Tables, session: Id, now: Time): Tables
    requires session in t.sessions
  {
    var p := t.sessions[session].participant;
    t.(sessions := map k | k in t.sessions ::
        if k == session then t.sessions[k].(status := SessionActive, rejoinUntil := None, departedAt := None)
        else if t.sessions[k].participant == p && !t.sessions[k].status.SessionDeparted?
        then t.sessions[k].(status := SessionDeparted, departedAt := Some(now))
        else t.sessions[k])
  }

  predicate MayConnect(t: Tables, p: Id, session: Id) {
    session in t.sessions && t.sessions[session].participant == p && OpenSession(t.sessions[session]) && Live(t, p)
  }

  function ConnectedGeneration(number: nat, now: Time): Generation {
    Generation(number, Connected, 1, now, None, None, None, false, None)
  }

  /** `number` is the generation handed to the socket; `announced` is the generation of a published event. */
  datatype Change = Change(tables: Tables, number: Option<nat>, announced: Option<Generation>)

  /** A socket of the session connects. */
  ghost function Register(t0: Tables, p: Id, session: Id, now: Time): Change {
    var t1 := ExpireDue(t0, now);
    if !MayConnect(t1, p, session) then Change(t1, None, None) else
    var t := Activate(t1, session, now);
    var current := Current(t, p);
    if current.None? || current.value.status.Gone? then Change(t, None, None) else
    var (u, number) := CountIn(t, p, now);
    Change(u, Some(number), if current.value.status.Connected? then None else Some(ConnectedGeneration(number, now)))
  }

  /** One more socket on the current generation, or the next generation with its first socket. */
  function CountIn(t: Tables, p: Id, now: Time): (Tables, nat)
    requires Current(t, p).Some?
  {
    var g := Current(t, p).value;
    if g.status.Connected? then (WithCurrent(t, p, g.(connectionCount := g.connectionCount + 1)), g.number)
    else
      var ended := WithCurrent(t, p, g.(endedAt := Some(now)));
      (ended.(presence := ended.presence[p := ended.presence[p] + [ConnectedGeneration(g.number + 1, now)]]), g.number + 1)
  }

  function GraceGeneration(g: Generation, now: Time, graceMs: nat): Generation {
    g.(status := Grace, connectionCount := 0, changedAt := now, graceEndsAt := Some(now + graceMs),
       absentSince := None, departedAt := None, overridden := false)
  }

  /** `chosen` is the row that the unordered query for an active session returns. */
  function Disconnect(t: Tables, p: Id, chosen: Id, now: Time, rejoinMs: nat): Tables {
    if chosen in t.sessions && t.sessions[chosen].participant == p && t.sessions[chosen].status.SessionActive? && Live(t, p)
    then t.(sessions := t.sessions[chosen := t.sessions[chosen].(status := SessionDisconnected,
              rejoinUntil := Some(now + rejoinMs), departedAt := None)])
    else t
  }

  /** A socket that was given generation `number` disconnects. */
  ghost function Unregister(t: Tables, p: Id, session: Id, number: nat, chosen: Id, now: Time, rejoinMs: nat, graceMs: nat): Change {
    var current := Current(t, p);
    if session !in t.sessions || t.sessions[session].participant != p then Change(t, None, None)
    else if current.None? || !current.value.status.Connected? || current.value.number != number then Change(t, None, None)
    else if current.value.connectionCount > 1 then
      Change(WithCurrent(t, p, current.value.(connectionCount := current.value.connectionCount - 1)), None, None)
    else
      var u := Disconnect(ExpireDue(t, now), p, chosen, now, rejoinMs);
      var grace := GraceGeneration(current.value, now, graceMs);
      if Current(u, p).None? then Change(u, None, None)  // never taken: expiry ends no generation
      else Change(WithCurrent(u, p, grace), None, Some(grace))
  }

  datatype Lease = Lease(participant: Id, number: nat, graceEndsAt: Time)

  /** The lease still describes the current generation. */
  predicate LeaseHolds(t: Tables, l: Lease) {
    var c := Current(t, l.participant);
    && c.Some? && c.value.number == l.number && c.value.status.Grace? && c.value.connectionCount == 0
    && c.value.graceEndsAt == Some(l.graceEndsAt)
    && Live(t, l.participant)
  }

  datatype GraceResult = Expired(tables: Tables, announced: Generation) | Stale | TooEarly

  function AbsentGeneration(g: Generation, now: Time): Generation {
    g.(status := Absent, changedAt := now, graceEndsAt := None, absentSince := Some(now), overridden := false)
  }

  function ExpireGrace(t: Tables, l: Lease, now: Time): GraceResult {
    if !LeaseHolds(t, l) then Stale
    else if now < l.graceEndsAt then TooEarly
    else
      var absent := AbsentGeneration(Current(t, l.participant).value, now);
      Expired(WithCurrent(t, l.participant, absent), absent)
  }

  predicate Overridable(t: Tables, p: Id, number: nat) {
    var c := Current(t, p);
    && c.Some? && c.value.number == number && c.value.status.Absent? && !c.value.overridden
    && Live(t, p) && t.participants[p].role.Player?
  }

  function Override(t: Tables, p: Id, now: Time): Tables
    requires Current(t, p).Some?
  {
    WithCurrent(t, p, Current(t, p).value.(overridden := true, changedAt := now))
  }

  function AbsentFromJoin(issuedAt: Time): Generation {
    Generation(1, Absent, 0, issuedAt, None, Some(issuedAt), None, false, None)
  }

  function AddParticipant(t: Tables, p: Id, row: Participant, session: Id): Tables {
    Tables(t.participants[p := row],
           t.sessions[session := Session(p, SessionActive, None, None)],
           t.presence[p := [AbsentFromJoin(row.joinedAt)]])
  }

  datatype JoinResult = Joined(tables: Tables) | UsernameTaken(after: Tables) | Full(after: Tables)

  function LiveIds(t: Tables): set<Id> {
    set p | p in t.participants && t.participants[p].departedAt.None?
  }

  ghost function Join(t0: Tables, p: Id, session: Id, username: nat, eligibility: Eligibility, issuedAt: Time,
                      maxPlayers: nat, now: Time): JoinResult {
    var t := ExpireDue(t0, now);
    if exists q | q in t.participants :: t.participants[q].username == username then UsernameTaken(t)
    else if |LiveIds(t)| >= maxPlayers then Full(t)
    else Joined(AddParticipant(t, p, Participant(username, Player, eligibility, issuedAt, None), session))
  }

  /** The session cookie is presented again. */
  ghost function Rejoin(t0: Tables, session: Id, now: Time): Tables {
    var t := ExpireDue(t0, now);
    if session in t.sessions && MayConnect(t, t.sessions[session].participant, session) then Activate(t, session, now) else t
  }

  /** A further session for a live participant. */
  ghost function AddSession(t0: Tables, p: Id, session: Id, now: Time): Tables {
    var t := ExpireDue(t0, now);
    if Live(t, p) then t.(sessions := t.sessions[session := Session(p, SessionActive, None, None)]) else t
  }

  // ---------- the invariant ----------

  /** The columns that the status of a generation fills in. */
  predicate GenerationShape(g: Generation) {
    && (g.status.Connected? <==> g.connectionCount > 0)
    && (g.status.Grace? <==> g.graceEndsAt.Some?)
    && (g.status.Absent? <==> g.absentSince.Some?)
    && (g.status.Gone? <==> g.departedAt.Some?)
  }

  /** Generations are numbered from one, and exactly the newest is open. */
  predicate GenerationsOk(gens: seq<Generation>) {
    && gens != []
    && (forall i | 0 <= i < |gens| :: gens[i].number == i + 1)
    && (forall i | 0 <= i < |gens| :: gens[i].endedAt.None? <==> i == |gens| - 1)
    && GenerationShape(gens[|gens| - 1])
  }

  predicate SessionShape(s: Session) {
    && (s.status.SessionDisconnected? <==> s.rejoinUntil.Some? && !s.status.SessionDeparted?)
    && (s.status.SessionDeparted? <==> s.departedAt.Some?)
  }

  predicate ParticipantOk(t: Tables, p: Id)
    requires p in t.participants
  {
    && p in t.presence
    && GenerationsOk(t.presence[p])
    && (Live(t, p) <==> HasOpenSession(t, p))
    && (Live(t, p) <==> !Newest(t, p).status.Gone?)
    && (Newest(t, p).status.Connected? ==> HasActiveSession(t, p))
  }

  function Newest(t: Tables, p: Id): Generation
    requires p in t.presence && t.presence[p] != []
  {
    t.presence[p][|t.presence[p]| - 1]
  }

  predicate PeopleOk(t: Tables) {
    && t.presence.Keys == t.participants.Keys
    && (forall p | p in t.participants :: ParticipantOk(t, p))
    && (forall k | k in t.sessions :: t.sessions[k].participant in t.participants && SessionShape(t.sessions[k]))
  }

  // ---------- every step keeps the invariant ----------

  lemma OpenIndexIsLast(gens: seq<Generation>)
    requires GenerationsOk(gens)
    ensures OpenIndex(gens) == |gens| - 1
  {
  }

  /** The open generation exists, is unique and is the highest. */
  lemma CurrentIsNewest(t: Tables, p: Id)
    requires PeopleOk(t) && p in t.participants
    ensures Current(t, p) == Some(Newest(t, p))
    ensures Newest(t, p).number == |t.presence[p]|
    ensures forall i | 0 <= i < |t.presence[p]| ::
              t.presence[p][i].endedAt.None? <==> t.presence[p][i].number == Newest(t, p).number
  {
    hide HasOpenSession, HasActiveSession;
    assert ParticipantOk(t, p);
    OpenIndexIsLast(t.presence[p]);
  }

  lemma NoCurrentOutside(t: Tables, p: Id)
    requires PeopleOk(t) && p !in t.participants
    ensures Current(t, p).None?
  {
  }

  lemma ExpireKeeps(t: Tables, now: Time)
    requires PeopleOk(t)
    ensures PeopleOk(ExpireDue(t, now))
  {
    var u := ExpireDue(t, now);
    forall p | p in u.participants ensures ParticipantOk(u, p) {
      assert ParticipantOk(t, p);
      ExpireKeepsParticipant(t, now, p);
    }
    ExpireKeepsSessions(t, now);
  }

  lemma ExpireKeepsSessions(t: Tables, now: Time)
    requires PeopleOk(t)
    ensures var u := ExpireDue(t, now);
            && u.presence.Keys == u.participants.Keys
            && forall k | k in u.sessions :: u.sessions[k].participant in u.participants && SessionShape(u.sessions[k])
  {
    hide ParticipantOk, Max, Departs;
  }

  lemma ExpireKeepsParticipant(t: Tables, now: Time, p: Id)
    requires p in t.participants && p in t.presence && ParticipantOk(t, p)
    ensures ParticipantOk(ExpireDue(t, now), p)
  {
    hide Max;
    var u := ExpireDue(t, now);
    ExpiryDeparts(t, now, p);
    ActiveSurvives(t, now, p);
    OpenOrDue(t, now, p);
    if Departs(t, p, now) {
      DepartedPresenceOk(t.presence[p], Max(Deadlines(t, p, now)));
    }
  }

  /** Expiry touches no active session. */
  lemma ActiveSurvives(t: Tables, now: Time, p: Id)
    ensures HasActiveSession(t, p) ==> HasActiveSession(ExpireDue(t, now), p) && HasOpenSession(ExpireDue(t, now), p)
  {
    hide Departs, Max;
    if HasActiveSession(t, p) {
      var k :| k in t.sessions && t.sessions[k].participant == p && t.sessions[k].status.SessionActive?;
      assert ExpireDue(t, now).sessions[k] == t.sessions[k];
    }
  }

  /** What was open either stays open or was due. */
  lemma OpenOrDue(t: Tables, now: Time, p: Id)
    ensures HasOpenSession(ExpireDue(t, now), p) ==> HasOpenSession(t, p)
    ensures Live(t, p) && HasOpenSession(t, p) ==> HasOpenSession(ExpireDue(t, now), p) || Deadlines(t, p, now) != {}
  {
    hide Departs, Max;
    var u := ExpireDue(t, now);
    if HasOpenSession(u, p) {
      var k :| k in u.sessions && u.sessions[k].participant == p && OpenSession(u.sessions[k]);
      assert u.sessions[k] == t.sessions[k];
    }
    if Live(t, p) && HasOpenSession(t, p) {
      var k :| k in t.sessions && t.sessions[k].participant == p && OpenSession(t.sessions[k]);
      if Due(t, k, now) {
        DueListed(t, now, k);
      } else {
        assert u.sessions[k] == t.sessions[k];
      }
    }
  }

  lemma DepartedPresenceOk(gens: seq<Generation>, at: Time)
    requires GenerationsOk(gens)
    ensures GenerationsOk(DepartedPresence(gens, at))
    ensures DepartedPresence(gens, at) == gens[|gens| - 1 := DepartedGeneration(gens[|gens| - 1], at)]
  {
  }

  /** Sessions of other participants do not matter to a participant. */
  ghost predicate SameSessionsFor(t: Tables, u: Tables, p: Id) {
    forall k :: (k in t.sessions && t.sessions[k].participant == p) || (k in u.sessions && u.sessions[k].participant == p)
                ==> k in t.sessions && k in u.sessions && t.sessions[k] == u.sessions[k]
  }

  lemma ParticipantFrame(t: Tables, u: Tables, p: Id)
    requires p in t.participants && p in u.participants && ParticipantOk(t, p)
    requires p in u.presence && t.presence[p] == u.presence[p]
    requires t.participants[p].departedAt == u.participants[p].departedAt
    requires SameSessionsFor(t, u, p)
    ensures ParticipantOk(u, p)
  {
    hide GenerationsOk;
    assert GenerationsOk(t.presence[p]) && t.presence[p] != [] by { OpenNonempty(t, p); }
    assert HasOpenSession(t, p) <==> HasOpenSession(u, p);
    assert HasActiveSession(t, p) <==> HasActiveSession(u, p);
  }

  lemma OpenNonempty(t: Tables, p: Id)
    requires p in t.participants && ParticipantOk(t, p)
    ensures t.presence[p] != []
  {
  }

  /** Nobody but `p` is touched. */
  ghost predicate OnlyTouches(t: Tables, u: Tables, p: Id) {
    && u.presence.Keys == u.participants.Keys
    && (forall q | q in u.participants && q != p ::
          && q in t.participants && q in t.presence && u.presence[q] == t.presence[q]
          && u.participants[q].departedAt == t.participants[q].departedAt && SameSessionsFor(t, u, q))
    && (forall k | k in u.sessions :: u.sessions[k].participant in u.participants && SessionShape(u.sessions[k]))
  }

  lemma OneTouched(t: Tables, u: Tables, p: Id)
    requires PeopleOk(t) && OnlyTouches(t, u, p) && (p in u.participants ==> ParticipantOk(u, p))
    ensures PeopleOk(u)
  {
    hide GenerationsOk, HasOpenSession, HasActiveSession, SameSessionsFor, SessionShape, ParticipantOk;
    forall q | q in u.participants && q != p ensures ParticipantOk(u, q) {
      assert ParticipantOk(t, q);
      ParticipantFrame(t, u, q);
    }
  }

  /** Rewriting the current generation without departing or connecting anybody. */
  lemma WithCurrentKeeps(t: Tables, p: Id, g: Generation)
    requires PeopleOk(t) && p in t.participants && Live(t, p)
    requires g.number == Newest(t, p).number && g.endedAt.None? && GenerationShape(g) && !g.status.Gone?
    requires g.status.Connected? ==> HasActiveSession(t, p)
    ensures Current(t, p).Some? && PeopleOk(WithCurrent(t, p, g))
  {
    hide HasOpenSession, HasActiveSession, SessionShape;
    CurrentIsNewest(t, p);
    OpenIndexIsLast(t.presence[p]);
    var u := WithCurrent(t, p, g);
    assert ParticipantOk(t, p);
    ReplaceNewestOk(t.presence[p], g);
    assert u.presence[p] == t.presence[p][|t.presence[p]| - 1 := g];
    SessionsAlone(t, u, p);
    OneTouched(t, u, p);
  }

  /** What depends on the sessions alone. */
  lemma SessionsAlone(t: Tables, u: Tables, p: Id)
    requires u.sessions == t.sessions
    ensures (HasOpenSession(t, p) <==> HasOpenSession(u, p)) && (HasActiveSession(t, p) <==> HasActiveSession(u, p))
    ensures forall q :: SameSessionsFor(t, u, q)
  {
  }

  lemma ReplaceNewestOk(gens: seq<Generation>, g: Generation)
    requires GenerationsOk(gens) && g.number == |gens| && g.endedAt.None? && GenerationShape(g)
    ensures GenerationsOk(gens[|gens| - 1 := g])
  {
  }

  lemma AppendGenerationOk(gens: seq<Generation>, now: Time)
    requires GenerationsOk(gens)
    ensures var last := gens[|gens| - 1];
            GenerationsOk(gens[|gens| - 1 := last.(endedAt := Some(now))] + [ConnectedGeneration(last.number + 1, now)])
  {
  }

  /** Only the sessions of the participant change, and the activated one is open and active. */
  lemma ActivateFrame(t: Tables, session: Id, now: Time)
    requires PeopleOk(t) && session in t.sessions
    ensures var p := t.sessions[session].participant;
            var u := Activate(t, session, now);
            && u.participants == t.participants && u.presence == t.presence
            && HasActiveSession(u, p) && HasOpenSession(u, p)
            && (forall q | q != p :: SameSessionsFor(t, u, q))
            && (forall k | k in u.sessions :: u.sessions[k].participant in u.participants && SessionShape(u.sessions[k]))
  {
    hide ParticipantOk;
    var p := t.sessions[session].participant;
    var u := Activate(t, session, now);
    assert u.sessions[session].status.SessionActive? && u.sessions[session].participant == p;
  }

  lemma ActivateKeeps(t: Tables, session: Id, now: Time)
    requires PeopleOk(t) && session in t.sessions
    requires MayConnect(t, t.sessions[session].participant, session)
    ensures PeopleOk(Activate(t, session, now))
    ensures HasActiveSession(Activate(t, session, now), t.sessions[session].participant)
  {
    hide Activate, GenerationsOk, HasActiveSession, HasOpenSession, SameSessionsFor, SessionShape;
    var p := t.sessions[session].participant;
    var u := Activate(t, session, now);
    ActivateFrame(t, session, now);
    forall q | q in u.participants ensures ParticipantOk(u, q) {
      assert ParticipantOk(t, q);
      if q != p {
        ParticipantFrame(t, u, q);
      }
    }
  }
}
