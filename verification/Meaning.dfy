/** What connecting and disconnecting leave behind, told from the tables before and after. */
module Meaning {

  import opened Common
  import opened People
  import opened Presence
  import opened Connections
  import A = Accounting

  /** The session is the participant's only open one. */
  predicate OnlyOpen(t: Tables, p: Id, session: Id) {
    && session in t.sessions && t.sessions[session].participant == p && t.sessions[session].status.SessionActive?
    && forall k | k in t.sessions && k != session && t.sessions[k].participant == p :: t.sessions[k].status.SessionDeparted?
  }

  lemma ActivatedAlone(t: Tables, p: Id, session: Id, now: Time)
    requires MayConnect(t, p, session)
    ensures OnlyOpen(Activate(t, session, now), p, session)
    ensures Activate(t, session, now).participants == t.participants && Activate(t, session, now).presence == t.presence
  {
  }

  lemma CountedIn(t: Tables, p: Id, now: Time)
    requires PeopleOk(t) && p in t.participants
    ensures Current(t, p).Some?
    ensures var g := Newest(t, p);
            var (u, number) := CountIn(t, p, now);
            && u.participants == t.participants && u.sessions == t.sessions && p in u.presence
            && u.presence[p] == (if g.status.Connected? then Replaced(t.presence[p], g.(connectionCount := g.connectionCount + 1))
                                 else Replaced(t.presence[p], g.(endedAt := Some(now))) + [ConnectedGeneration(g.number + 1, now)])
            && number == if g.status.Connected? then g.number else g.number + 1
  {
    hide HasOpenSession, HasActiveSession, GenerationShape;
    CurrentIsNewest(t, p);
    assert ParticipantOk(t, p);
    OpenIndexIsLast(t.presence[p]);
  }

  function Replaced(gens: seq<Generation>, g: Generation): seq<Generation>
    requires gens != []
  {
    gens[|gens| - 1 := g]
  }

  /** Who may connect after expiry did not depart in it. */
  lemma ConnectingSurvives(t: Tables, p: Id, session: Id, now: Time)
    requires PeopleOk(t) && MayConnect(ExpireDue(t, now), p, session)
    ensures p in t.participants && p in t.presence && t.presence[p] != [] && ExpireDue(t, now).presence[p] == t.presence[p]
  {
    hide Max;
    ExpiryDeparts(t, now, p);
    assert ParticipantOk(t, p);
  }

  /**
   * A connected socket belongs to the participant's only open session; it is one more on a connected generation, or the
   * first of the next one, which is announced and before which the previous generation ends.
   */
  lemma ConnectMeaning(t: Tables, p: Id, session: Id, now: Time)
    requires PeopleOk(t) && Register(t, p, session, now).number.Some?
    ensures p in t.participants && p in t.presence && t.presence[p] != []
    ensures var c := Register(t, p, session, now);
            var g := Newest(t, p);
            && OnlyOpen(c.tables, p, session) && Live(c.tables, p) && p in c.tables.presence
            && (g.status.Connected? ==>
                  && c.number == Some(g.number) && c.announced.None?
                  && c.tables.presence[p] == Replaced(t.presence[p], g.(connectionCount := g.connectionCount + 1)))
            && (!g.status.Connected? ==>
                  && c.number == Some(g.number + 1) && c.announced == Some(ConnectedGeneration(g.number + 1, now))
                  && c.tables.presence[p]
                     == Replaced(t.presence[p], g.(endedAt := Some(now))) + [ConnectedGeneration(g.number + 1, now)])
  {
    hide PeopleOk, ExpireDue, Activate, CountIn, Current, Replaced, ConnectedGeneration;
    var t1 := ExpireDue(t, now);
    ExpireKeeps(t, now);
    ConnectingSurvives(t, p, session, now);
    ActivatedAlone(t1, p, session, now);
    var u := Activate(t1, session, now);
    ActivateKeeps(t1, session, now);
    CountedIn(u, p, now);
    CurrentHere(u, p);
  }

  lemma CurrentHere(t: Tables, p: Id)
    requires PeopleOk(t) && p in t.participants
    ensures p in t.presence && t.presence[p] != [] && Current(t, p) == Some(Newest(t, p))
  {
    CurrentIsNewest(t, p);
    assert ParticipantOk(t, p);
  }

  /** Only the sessions of the participant and what was due change when the last socket goes; the chosen one may be resumed in time. */
  lemma LastReleaseMeaning(w: World, socket: Id, chosen: Id, now: Time, rejoinMs: nat, graceMs: nat)
    requires A.Accounted(w) && socket in w.sockets
    requires A.SocketsOf(w.sockets, w.sockets[socket].participant) == {socket}
    ensures var p := w.sockets[socket].participant;
            var u := Do(w, Release(socket, chosen, now, rejoinMs, graceMs)).tables;
            var expired := ExpireDue(w.tables, now);
            && u.sessions.Keys == expired.sessions.Keys && u.participants == expired.participants
            && (forall k | k in u.sessions && k != chosen :: u.sessions[k] == expired.sessions[k])
            && (chosen in w.tables.sessions && w.tables.sessions[chosen].participant == p
                && w.tables.sessions[chosen].status.SessionActive? ==>
                  chosen in u.sessions
                  && u.sessions[chosen] == Session(p, SessionDisconnected, Some(now + rejoinMs), None))
  {
    hide PeopleOk, ExpireDue, A.SocketOk, A.CountOk, A.Accounted, Current, WithCurrent, GraceGeneration;
    var p := w.sockets[socket].participant;
    A.AccountedPeople(w);
    A.SocketCounts(w, socket);
    A.ReleaseMeaning(w, socket, chosen, now, rejoinMs, graceMs);
    LastLeavesSessions(w.tables, p, w.sockets[socket].session, w.sockets[socket].number, chosen, now, rejoinMs, graceMs);
  }

  lemma LastLeavesSessions(t: Tables, p: Id, session: Id, number: nat, chosen: Id, now: Time, rejoinMs: nat, graceMs: nat)
    requires PeopleOk(t) && p in t.participants && Unregister(t, p, session, number, chosen, now, rejoinMs, graceMs).announced.Some?
    ensures var u := Unregister(t, p, session, number, chosen, now, rejoinMs, graceMs).tables;
            var expired := ExpireDue(t, now);
            && u.sessions == Disconnect(expired, p, chosen, now, rejoinMs).sessions && u.participants == expired.participants
            && Live(expired, p)
            && (chosen in t.sessions && t.sessions[chosen].status.SessionActive? ==>
                  chosen in expired.sessions && expired.sessions[chosen] == t.sessions[chosen])
  {
    hide PeopleOk, Current, GraceGeneration, Departs, Max;
    ConnectedStays(t, p, now);
  }

  lemma ConnectedStays(t: Tables, p: Id, now: Time)
    requires PeopleOk(t) && p in t.participants
    ensures Current(t, p).Some? && Current(t, p).value.status.Connected? ==> Live(ExpireDue(t, now), p)
  {
    hide PeopleOk, ExpireDue, Current;
    CurrentHere(t, p);
    if Newest(t, p).status.Connected? { LastSocketLeaves(t, p, now); }
  }

  /** A session that returns is the participant's only open one afterwards, and nothing else happens beyond expiry. */
  lemma ReturnMeaning(t: Tables, session: Id, now: Time)
    requires PeopleOk(t) && session in t.sessions
    ensures var p := t.sessions[session].participant;
            var u := Rejoin(t, session, now);
            var expired := ExpireDue(t, now);
            && u.participants == expired.participants && u.presence == expired.presence
            && (Live(expired, p) && session in expired.sessions && OpenSession(expired.sessions[session]) <==>
                  OnlyOpen(u, p, session) && Live(u, p))
            && (!(Live(expired, p) && OpenSession(expired.sessions[session])) ==> u == expired)
  {
    hide PeopleOk, Activate, Departs, Max, Deadlines;
    ExpireKeeps(t, now);
    var expired := ExpireDue(t, now);
    assert session in expired.sessions && expired.sessions[session].participant == t.sessions[session].participant;
    if MayConnect(expired, t.sessions[session].participant, session) {
      ActivatedAlone(expired, t.sessions[session].participant, session, now);
    }
  }

  // ---------- who may connect, join and stay ----------

  /** Expiry ends exactly the disconnected sessions of the present that were not resumed in time, at their deadline. */
  lemma SessionExpires(t: Tables, now: Time, k: Id)
    requires k in t.sessions
    ensures var s := t.sessions[k];
            k in ExpireDue(t, now).sessions
            && ExpireDue(t, now).sessions[k] ==
                 if s.status.SessionDisconnected? && s.rejoinUntil.Some? && s.rejoinUntil.value <= now && Live(t, s.participant)
                 then Session(s.participant, SessionDeparted, s.rejoinUntil, s.rejoinUntil)
                 else s
  {
    hide Departs, Max;
  }

  /** The session is open: its participant may come back with it. */
  predicate MayReturn(t: Tables, p: Id, session: Id) {
    && session in t.sessions && t.sessions[session].participant == p && !t.sessions[session].status.SessionDeparted?
    && p in t.participants && t.participants[p].departedAt.None?
  }

  /**
   * A new socket is registered if and only if its session is open after expiry and its participant has not departed. Then
   * the session is the participant's only open one, and the socket has the participant's connected generation.
   */
  lemma ConnectsIffOpen(w: World, socket: Id, p: Id, session: Id, now: Time)
    requires A.Accounted(w) && socket !in w.sockets
    ensures var v := Do(w, Connect(socket, p, session, now));
            var t := ExpireDue(w.tables, now);
            && (socket in v.sockets <==> MayReturn(t, p, session))
            && (socket !in v.sockets ==> v == World(t, w.sockets))
            && (socket in v.sockets ==>
                  && OnlyOpen(v.tables, p, session) && v.tables.participants == t.participants
                  && p in v.tables.presence && v.tables.presence[p] != [] && Newest(v.tables, p).status.Connected?
                  && v.sockets == w.sockets[socket := Socket(p, session, Newest(v.tables, p).number)])
  {
    hide A.Accounted, PeopleOk, ExpireDue, Activate, CountIn;
    A.AccountedPeople(w);
    ExpireKeeps(w.tables, now);
    var t := ExpireDue(w.tables, now);
    MayReturnMeans(t, p, session);
    if MayConnect(t, p, session) {
      ConnectedOrNew(t, p, session, now);
      ActivatedAlone(t, p, session, now);
      CurrentHere(t, p);
      CountedIn(Activate(t, session, now), p, now);
    }
  }

  lemma MayReturnMeans(t: Tables, p: Id, session: Id)
    ensures MayConnect(t, p, session) <==> MayReturn(t, p, session)
  {
  }

  /** A session that is active or may still be resumed connects and is active then; one whose deadline has passed does not. */
  lemma ReconnectsInTime(w: World, socket: Id, p: Id, session: Id, now: Time)
    requires A.Accounted(w) && socket !in w.sockets
    requires session in w.tables.sessions && w.tables.sessions[session].participant == p
    ensures var s := w.tables.sessions[session];
            var v := Do(w, Connect(socket, p, session, now));
            && (s.status.SessionActive? || (s.status.SessionDisconnected? && s.rejoinUntil.Some? && now < s.rejoinUntil.value) ==>
                  socket in v.sockets && session in v.tables.sessions && v.tables.sessions[session].status.SessionActive?)
            && (s.status.SessionDeparted? || (s.status.SessionDisconnected? && s.rejoinUntil.Some? && s.rejoinUntil.value <= now) ==>
                  socket !in v.sockets)
  {
    hide A.Accounted, PeopleOk, ExpireDue;
    A.AccountedPeople(w);
    ExpireKeeps(w.tables, now);
    SessionExpires(w.tables, now, session);
    OpenIsLive(w.tables, session);
    OpenIsLive(ExpireDue(w.tables, now), session);
    ConnectsIffOpen(w, socket, p, session, now);
  }

  lemma OpenIsLive(t: Tables, session: Id)
    requires PeopleOk(t) && session in t.sessions
    ensures t.sessions[session].participant in t.participants
    ensures !t.sessions[session].status.SessionDeparted? ==> Live(t, t.sessions[session].participant)
  {
    hide GenerationsOk;
    var p := t.sessions[session].participant;
    assert ParticipantOk(t, p);
    if !t.sessions[session].status.SessionDeparted? { assert OpenSession(t.sessions[session]); }
  }

  function PresentIds(t: Tables): set<Id> {
    set p | p in t.participants && t.participants[p].departedAt.None?
  }

  /** Somebody new comes in exactly when the name was never used and after expiry there is room, absent until the first connection. */
  lemma JoinMeaning(w: World, p: Id, session: Id, username: nat, eligibility: Eligibility, issuedAt: Time, maxPlayers: nat, now: Time)
    requires p !in w.tables.participants && session !in w.tables.sessions
    ensures var v := Do(w, Arrive(p, session, username, eligibility, issuedAt, maxPlayers, now));
            var t := ExpireDue(w.tables, now);
            && v.sockets == w.sockets
            && if (forall q | q in t.participants :: t.participants[q].username != username) && |PresentIds(t)| < maxPlayers then
                 v.tables == Tables(t.participants[p := Participant(username, Player, eligibility, issuedAt, None)],
                                    t.sessions[session := Session(p, SessionActive, None, None)],
                                    t.presence[p := [Generation(1, Absent, 0, issuedAt, None, Some(issuedAt), None, false, None)]])
               else v.tables == t
  {
    hide ExpireDue;
    assert LiveIds(ExpireDue(w.tables, now)) == PresentIds(ExpireDue(w.tables, now));
  }
}
