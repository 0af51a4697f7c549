/** Sockets and presence together: accounting, grace and staleness over every run. */
module Connections {

  import opened Common
  import opened People
  import opened Presence

  /** A registered socket that has not been released, with the generation it was given. */
  datatype Socket = Socket(participant: Id, session: Id, number: nat)

  datatype World = World(tables: Tables, sockets: map<Id, Socket>)

  /** One transaction. Ids that are not fresh violate a primary key and change nothing. */
  datatype Op =
    | Expiry(now: Time)
    | Connect(socket: Id, participant: Id, session: Id, now: Time)
    | Release(socket: Id, chosen: Id, now: Time, rejoinMs: nat, graceMs: nat)
    | GraceElapses(lease: Lease, now: Time)
    | OverrideAbsence(participant: Id, number: nat, now: Time)
    | Arrive(participant: Id, session: Id, username: nat, eligibility: Eligibility, issuedAt: Time, maxPlayers: nat, now: Time)
    | Return(session: Id, now: Time)
    | Another(participant: Id, session: Id, now: Time)
    | Enroll  // part of creating a round: every live participant plays

  ghost function Do(w: World, op: Op): World {
    var t := w.tables;
    match op
    case Expiry(now) => w.(tables := ExpireDue(t, now))
    case Connect(socket, p, session, now) =>
      if socket in w.sockets then w else
      var c := Register(t, p, session, now);
      World(c.tables, if c.number.Some? then w.sockets[socket := Socket(p, session, c.number.value)] else w.sockets)
    case Release(socket, chosen, now, rejoinMs, graceMs) =>
      if socket !in w.sockets then w else
      var s := w.sockets[socket];
      World(Unregister(t, s.participant, s.session, s.number, chosen, now, rejoinMs, graceMs).tables, w.sockets - {socket})
    case GraceElapses(lease, now) =>
      var r := ExpireGrace(t, lease, now);
      if r.Expired? then w.(tables := r.tables) else w
    case OverrideAbsence(p, number, now) =>
      var u := ExpireDue(t, now);
      w.(tables := if Overridable(u, p, number) then Override(u, p, now) else u)
    case Arrive(p, session, username, eligibility, issuedAt, maxPlayers, now) =>
      if p in t.participants || session in t.sessions then w else
      var r := Join(t, p, session, username, eligibility, issuedAt, maxPlayers, now);
      w.(tables := if r.Joined? then r.tables else r.after)
    case Return(session, now) => w.(tables := Rejoin(t, session, now))
    case Another(p, session, now) => if session in t.sessions then w else w.(tables := AddSession(t, p, session, now))
    case Enroll => w.(tables := AllPlay(t))
  }

  function AllPlay(t: Tables): Tables {
    t.(participants := map p | p in t.participants ::
         if t.participants[p].departedAt.None? then t.participants[p].(eligibility := Playing) else t.participants[p])
  }

  ghost function Run(w: World, ops: seq<Op>): World {
    if ops == [] then w else Do(Run(w, ops[..|ops| - 1]), ops[|ops| - 1])
  }

  // ---------- the tables ----------

  lemma RegisterKeeps(t: Tables, p: Id, session: Id, now: Time)
    requires PeopleOk(t)
    ensures PeopleOk(Register(t, p, session, now).tables)
  {
    hide PeopleOk, ExpireDue, Activate, CountIn;
    var t1 := ExpireDue(t, now);
    ExpireKeeps(t, now);
    if MayConnect(t1, p, session) {
      ActivateKeeps(t1, session, now);
      ConnectedOrNew(t1, p, session, now);
    }
  }

  predicate ReadyToConnect(t1: Tables, p: Id, session: Id) {
    PeopleOk(t1) && MayConnect(t1, p, session)
  }

  /** Connecting counts one more socket on the current generation or opens the next one with a single socket. */
  lemma ConnectedOrNew(t1: Tables, p: Id, session: Id, now: Time)
    requires ReadyToConnect(t1, p, session)
    ensures var t := Activate(t1, session, now);
            && PeopleOk(t) && p in t.participants && Current(t, p) == Some(Newest(t1, p)) && !Newest(t1, p).status.Gone?
    ensures PeopleOk(CountIn(Activate(t1, session, now), p, now).0)
  {
    hide CountIn, HasOpenSession, GenerationShape;
    var t := Activate(t1, session, now);
    ActivateKeeps(t1, session, now);
    CurrentIsNewest(t, p);
    assert ParticipantOk(t, p) && ParticipantOk(t1, p);
    CountInKeeps(t, p, now);
  }

  lemma CountInKeeps(t: Tables, p: Id, now: Time)
    requires PeopleOk(t) && p in t.participants && Live(t, p) && HasActiveSession(t, p)
    ensures Current(t, p).Some? && PeopleOk(CountIn(t, p, now).0)
  {
    hide HasOpenSession, HasActiveSession;
    CurrentIsNewest(t, p);
    assert ParticipantOk(t, p);
    var g := Newest(t, p);
    if g.status.Connected? {
      WithCurrentKeeps(t, p, g.(connectionCount := g.connectionCount + 1));
    } else {
      NewGenerationKeeps(t, p, now);
    }
  }

  /** The newest generation ends and the next one begins with a single socket. */
  function Succeeded(gens: seq<Generation>, now: Time): seq<Generation>
    requires gens != []
  {
    var last := gens[|gens| - 1];
    gens[|gens| - 1 := last.(endedAt := Some(now))] + [ConnectedGeneration(last.number + 1, now)]
  }

  lemma NewGenerationKeeps(t: Tables, p: Id, now: Time)
    requires PeopleOk(t) && p in t.participants && Live(t, p) && HasActiveSession(t, p)
    ensures Current(t, p).Some?
    ensures var g := Newest(t, p);
            var ended := WithCurrent(t, p, g.(endedAt := Some(now)));
            PeopleOk(ended.(presence := ended.presence[p := ended.presence[p] + [ConnectedGeneration(g.number + 1, now)]]))
  {
    hide PeopleOk, HasActiveSession, Succeeded, Live;
    NewGenerationRows(t, p, now);
    SucceededKeeps(t, p, now);
  }

  lemma NewGenerationRows(t: Tables, p: Id, now: Time)
    requires PeopleOk(t) && p in t.participants
    ensures p in t.presence && t.presence[p] != [] && Current(t, p) == Some(Newest(t, p))
    ensures var g := Newest(t, p);
            var ended := WithCurrent(t, p, g.(endedAt := Some(now)));
            ended.(presence := ended.presence[p := ended.presence[p] + [ConnectedGeneration(g.number + 1, now)]])
            == t.(presence := t.presence[p := Succeeded(t.presence[p], now)])
  {
    hide HasOpenSession, HasActiveSession, SessionShape, GenerationShape;
    CurrentIsNewest(t, p);
    assert ParticipantOk(t, p);
    OpenIndexIsLast(t.presence[p]);
  }

  lemma SucceededKeeps(t: Tables, p: Id, now: Time)
    requires PeopleOk(t) && p in t.participants && Live(t, p) && HasActiveSession(t, p) && p in t.presence && t.presence[p] != []
    ensures PeopleOk(t.(presence := t.presence[p := Succeeded(t.presence[p], now)]))
  {
    hide HasOpenSession, HasActiveSession, SessionShape, PeopleOk, SameSessionsFor;
    var u := t.(presence := t.presence[p := Succeeded(t.presence[p], now)]);
    SucceededOk(t, p, now);
    SessionsAlone(t, u, p);
    PresenceTouched(t, u, p);
    OneTouched(t, u, p);
  }

  lemma SucceededOk(t: Tables, p: Id, now: Time)
    requires PeopleOk(t) && p in t.participants && Live(t, p) && HasActiveSession(t, p) && p in t.presence && t.presence[p] != []
    ensures ParticipantOk(t.(presence := t.presence[p := Succeeded(t.presence[p], now)]), p)
  {
    hide HasOpenSession, HasActiveSession, SessionShape;
    assert ParticipantOk(t, p);
    AppendGenerationOk(t.presence[p], now);
    SessionsAlone(t, t.(presence := t.presence[p := Succeeded(t.presence[p], now)]), p);
  }

  lemma PresenceTouched(t: Tables, u: Tables, p: Id)
    requires PeopleOk(t) && p in t.participants && p in u.presence && u == t.(presence := t.presence[p := u.presence[p]])
    ensures OnlyTouches(t, u, p)
  {
    hide ParticipantOk;
    SessionsAlone(t, u, p);
  }

  lemma DisconnectKeeps(t: Tables, p: Id, chosen: Id, now: Time, rejoinMs: nat, g: Generation)
    requires PeopleOk(t) && p in t.participants && Live(t, p)
    requires g.number == Newest(t, p).number && g.endedAt.None? && GenerationShape(g) && g.status.Grace?
    ensures var u := Disconnect(t, p, chosen, now, rejoinMs);
            Current(u, p).Some? && PeopleOk(WithCurrent(u, p, g))
  {
    var u := Disconnect(t, p, chosen, now, rejoinMs);
    WithCurrentKeeps(t, p, g);
    CurrentIsNewest(t, p);
    OpenIndexIsLast(t.presence[p]);
    var v := WithCurrent(t, p, g);
    assert WithCurrent(u, p, g) == Disconnect(v, p, chosen, now, rejoinMs);
    assert Newest(v, p) == g;
    hide WithCurrent, Disconnect, Newest, GenerationsOk;
    DisconnectIdleKeeps(v, p, chosen, now, rejoinMs);
  }

  lemma DisconnectIdleKeeps(t: Tables, p: Id, chosen: Id, now: Time, rejoinMs: nat)
    requires PeopleOk(t) && p in t.participants && p in t.presence && t.presence[p] != []
    requires !Newest(t, p).status.Connected?
    ensures PeopleOk(Disconnect(t, p, chosen, now, rejoinMs))
  {
    var u := Disconnect(t, p, chosen, now, rejoinMs);
    DisconnectFrame(t, p, chosen, now, rejoinMs);
    OpenAfterDisconnect(t, p, chosen, now, rejoinMs);
    hide Disconnect, GenerationsOk, HasOpenSession, HasActiveSession, SessionShape, SameSessionsFor;
    forall q | q in u.participants ensures ParticipantOk(u, q) {
      assert ParticipantOk(t, q);
      if q != p {
        ParticipantFrame(t, u, q);
      }
    }
  }

  lemma DisconnectFrame(t: Tables, p: Id, chosen: Id, now: Time, rejoinMs: nat)
    requires PeopleOk(t)
    ensures var u := Disconnect(t, p, chosen, now, rejoinMs);
            && u.participants == t.participants && u.presence == t.presence
            && (forall q | q != p :: SameSessionsFor(t, u, q))
            && (forall k | k in u.sessions :: u.sessions[k].participant in u.participants && SessionShape(u.sessions[k]))
  {
    hide ParticipantOk;
  }

  lemma OpenAfterDisconnect(t: Tables, p: Id, chosen: Id, now: Time, rejoinMs: nat)
    ensures HasOpenSession(Disconnect(t, p, chosen, now, rejoinMs), p) <==> HasOpenSession(t, p)
  {
    var u := Disconnect(t, p, chosen, now, rejoinMs);
    forall k | k in t.sessions ensures OpenSession(u.sessions[k]) <==> OpenSession(t.sessions[k]) {}
    if HasOpenSession(t, p) {
      var k :| k in t.sessions && t.sessions[k].participant == p && OpenSession(t.sessions[k]);
      assert OpenSession(u.sessions[k]);
    }
  }

  lemma UnregisterKeeps(t: Tables, p: Id, session: Id, number: nat, chosen: Id, now: Time, rejoinMs: nat, graceMs: nat)
    requires PeopleOk(t)
    ensures PeopleOk(Unregister(t, p, session, number, chosen, now, rejoinMs, graceMs).tables)
  {
    hide PeopleOk, ExpireDue, Newest, Current, GraceGeneration, WithCurrent, Disconnect;
    if p !in t.participants {
      NoCurrentOutside(t, p);
    } else {
      CurrentIsNewest(t, p);
      if Current(t, p).value.status.Connected? {
        ConnectedLeaves(t, p, chosen, now, rejoinMs, graceMs);
      }
    }
  }

  lemma ConnectedLeaves(t: Tables, p: Id, chosen: Id, now: Time, rejoinMs: nat, graceMs: nat)
    requires PeopleOk(t) && p in t.participants && Newest(t, p).status.Connected?
    ensures var g := Newest(t, p);
            var u := Disconnect(ExpireDue(t, now), p, chosen, now, rejoinMs);
            && Current(t, p) == Some(g)
            && (g.connectionCount > 1 ==> PeopleOk(WithCurrent(t, p, g.(connectionCount := g.connectionCount - 1))))
            && Current(u, p).Some?
            && PeopleOk(WithCurrent(u, p, GraceGeneration(g, now, graceMs)))
  {
    hide PeopleOk, ExpireDue, Current, Disconnect, WithCurrent, Newest, HasActiveSession;
    LastSocketLeaves(t, p, now);
    CurrentIsNewest(t, p);
    var g := Newest(t, p);
    if g.connectionCount > 1 {
      CountDownKeeps(t, p);
    }
    DisconnectKeeps(ExpireDue(t, now), p, chosen, now, rejoinMs, GraceGeneration(g, now, graceMs));
  }

  lemma CountDownKeeps(t: Tables, p: Id)
    requires PeopleOk(t) && p in t.participants
    requires Newest(t, p).status.Connected? && Newest(t, p).connectionCount > 1
    ensures var g := Newest(t, p);
            Current(t, p) == Some(g) && PeopleOk(WithCurrent(t, p, g.(connectionCount := g.connectionCount - 1)))
  {
    CurrentIsNewest(t, p);
    assert ParticipantOk(t, p);
    hide GenerationsOk, HasOpenSession, HasActiveSession;
    var g := Newest(t, p);
    WithCurrentKeeps(t, p, g.(connectionCount := g.connectionCount - 1));
  }

  /** A connected participant has an active session, so expiry leaves the participant and the generation alone. */
  lemma LastSocketLeaves(t: Tables, p: Id, now: Time)
    requires PeopleOk(t) && p in t.participants && Newest(t, p).status.Connected?
    ensures var u := ExpireDue(t, now);
            && PeopleOk(u) && p in u.participants && Live(u, p) && p in t.presence && p in u.presence
            && u.presence[p] == t.presence[p] && u.presence[p] != []
            && Newest(u, p) == Newest(t, p) && Newest(t, p).endedAt.None? && GenerationShape(Newest(t, p))
  {
    ExpireKeeps(t, now);
    ActiveSurvives(t, now, p);
    ExpiryDeparts(t, now, p);
    assert ParticipantOk(t, p);
  }

  lemma GraceKeeps(t: Tables, l: Lease, now: Time)
    requires PeopleOk(t)
    ensures var r := ExpireGrace(t, l, now); r.Expired? ==> PeopleOk(r.tables)
  {
    if LeaseHolds(t, l) && now >= l.graceEndsAt {
      CurrentIsNewest(t, l.participant);
      assert ParticipantOk(t, l.participant);
      hide ParticipantOk, GenerationsOk;
      WithCurrentKeeps(t, l.participant, AbsentGeneration(Current(t, l.participant).value, now));
    }
  }

  lemma OverrideKeeps(t: Tables, p: Id, number: nat, now: Time)
    requires PeopleOk(t) && Overridable(t, p, number)
    ensures PeopleOk(Override(t, p, now))
  {
    CurrentIsNewest(t, p);
    assert ParticipantOk(t, p);
    hide ParticipantOk, GenerationsOk;
    WithCurrentKeeps(t, p, Current(t, p).value.(overridden := true, changedAt := now));
  }

  lemma AddedFrame(t: Tables, p: Id, row: Participant, session: Id)
    requires PeopleOk(t) && p !in t.participants && session !in t.sessions && row.departedAt.None?
    ensures var u := AddParticipant(t, p, row, session);
            && u.participants == t.participants[p := row] && u.presence.Keys == u.participants.Keys
            && (forall q | q in t.presence :: q != p && u.presence[q] == t.presence[q])
            && (forall q | q != p :: SameSessionsFor(t, u, q))
            && (forall k | k in u.sessions :: u.sessions[k].participant in u.participants && SessionShape(u.sessions[k]))
  {
    hide ParticipantOk;
  }

  lemma AddedParticipantOk(t: Tables, p: Id, row: Participant, session: Id)
    requires row.departedAt.None?
    ensures ParticipantOk(AddParticipant(t, p, row, session), p)
  {
    var u := AddParticipant(t, p, row, session);
    assert u.sessions[session].participant == p;
  }

  lemma AddParticipantKeeps(t: Tables, p: Id, row: Participant, session: Id)
    requires PeopleOk(t) && p !in t.participants && session !in t.sessions && row.departedAt.None?
    ensures PeopleOk(AddParticipant(t, p, row, session))
  {
    hide AddParticipant, GenerationsOk, HasOpenSession, HasActiveSession, SameSessionsFor, SessionShape, ParticipantOk;
    var u := AddParticipant(t, p, row, session);
    AddedFrame(t, p, row, session);
    AddedParticipantOk(t, p, row, session);
    forall q | q in u.participants && q != p ensures ParticipantOk(u, q) {
      assert ParticipantOk(t, q);
      ParticipantFrame(t, u, q);
    }
  }

  lemma JoinKeeps(t: Tables, p: Id, session: Id, username: nat, eligibility: Eligibility, issuedAt: Time, maxPlayers: nat, now: Time)
    requires PeopleOk(t) && p !in t.participants && session !in t.sessions
    ensures var r := Join(t, p, session, username, eligibility, issuedAt, maxPlayers, now);
            PeopleOk(if r.Joined? then r.tables else r.after)
  {
    ExpireKeeps(t, now);
    var u := ExpireDue(t, now);
    assert p !in u.participants && session !in u.sessions;
    hide PeopleOk, ExpireDue;
    AddParticipantKeeps(u, p, Participant(username, Player, eligibility, issuedAt, None), session);
  }

  lemma RejoinKeeps(t: Tables, session: Id, now: Time)
    requires PeopleOk(t)
    ensures PeopleOk(Rejoin(t, session, now))
  {
    hide PeopleOk, Activate;
    ExpireKeeps(t, now);
    var u := ExpireDue(t, now);
    hide ExpireDue;
    if session in u.sessions && MayConnect(u, u.sessions[session].participant, session) {
      ActivateKeeps(u, session, now);
    }
  }

  lemma AddSessionKeeps(t: Tables, p: Id, session: Id, now: Time)
    requires PeopleOk(t) && session !in t.sessions
    ensures PeopleOk(AddSession(t, p, session, now))
  {
    ExpireKeeps(t, now);
    var u := ExpireDue(t, now);
    assert session !in u.sessions;
    hide ExpireDue;
    if Live(u, p) {
      AnotherSessionKeeps(u, p, session);
    }
  }

  lemma AnotherSessionKeeps(u: Tables, p: Id, session: Id)
    requires PeopleOk(u) && Live(u, p) && session !in u.sessions
    ensures PeopleOk(u.(sessions := u.sessions[session := Session(p, SessionActive, None, None)]))
  {
    hide GenerationsOk;
    var v := u.(sessions := u.sessions[session := Session(p, SessionActive, None, None)]);
    assert v.sessions[session].participant == p && v.sessions[session].status.SessionActive?;
    assert ParticipantOk(u, p);
    OneTouched(u, v, p);
  }

  lemma AllPlayKeeps(t: Tables)
    requires PeopleOk(t)
    ensures PeopleOk(AllPlay(t))
  {
    hide GenerationsOk, GenerationShape;
    var u := AllPlay(t);
    forall p | p in u.participants ensures ParticipantOk(u, p) {
      assert ParticipantOk(t, p);
      ParticipantFrame(t, u, p);
    }
  }

  lemma OpKeepsTables(w: World, op: Op)
    requires PeopleOk(w.tables)
    ensures PeopleOk(Do(w, op).tables)
  {
    hide PeopleOk, ExpireDue, Register, Unregister, ExpireGrace, Join, Rejoin, AddSession, Override;
    var t := w.tables;
    match op
    case Expiry(now) => ExpireKeeps(t, now);
    case Connect(socket, p, session, now) => RegisterKeeps(t, p, session, now);
    case Release(socket, chosen, now, rejoinMs, graceMs) =>
      if socket in w.sockets {
        var s := w.sockets[socket];
        UnregisterKeeps(t, s.participant, s.session, s.number, chosen, now, rejoinMs, graceMs);
      }
    case GraceElapses(lease, now) => GraceKeeps(t, lease, now);
    case OverrideAbsence(p, number, now) =>
      ExpireKeeps(t, now);
      if Overridable(ExpireDue(t, now), p, number) {
        OverrideKeeps(ExpireDue(t, now), p, number, now);
      }
    case Arrive(p, session, username, eligibility, issuedAt, maxPlayers, now) =>
      if p !in t.participants && session !in t.sessions {
        JoinKeeps(t, p, session, username, eligibility, issuedAt, maxPlayers, now);
      }
    case Return(session, now) => RejoinKeeps(t, session, now);
    case Another(p, session, now) =>
      if session !in t.sessions {
        AddSessionKeeps(t, p, session, now);
      }
    case Enroll => AllPlayKeeps(t);
  }
}
