/** Connection counts equal registered sockets, and presence only moves forward. */
module Accounting {

  import opened Common
  import opened People
  import opened Presence
  import opened Connections

  function SocketsOf(sockets: map<Id, Socket>, p: Id): set<Id> {
    set s | s in sockets && sockets[s].participant == p
  }

  /** Every unreleased socket belongs to the current connected generation of its participant. */
  predicate SocketOk(t: Tables, s: Socket) {
    && s.participant in t.participants && s.participant in t.presence && t.presence[s.participant] != []
    && s.session in t.sessions && t.sessions[s.session].participant == s.participant
    && Newest(t, s.participant).status.Connected? && s.number == Newest(t, s.participant).number
  }

  predicate CountOk(w: World, p: Id)
    requires p in w.tables.presence && w.tables.presence[p] != []
  {
    Newest(w.tables, p).status.Connected? ==> Newest(w.tables, p).connectionCount == |SocketsOf(w.sockets, p)|
  }

  predicate Accounted(w: World) {
    && PeopleOk(w.tables)
    && (forall s | s in w.sockets :: SocketOk(w.tables, w.sockets[s]))
    && (forall p | p in w.tables.participants :: p in w.tables.presence && w.tables.presence[p] != [] && CountOk(w, p))
  }

  // ---------- presence only moves forward ----------

  function Rank(s: PresenceStatus): nat {
    match s
    case Connected => 0
    case Grace => 1
    case Absent => 2
    case Gone => 3
  }

  /** The order of generation number and status; a grace period keeps its deadline. */
  predicate NotBefore(g: Generation, h: Generation) {
    || h.number > g.number
    || (&& h.number == g.number && Rank(h.status) >= Rank(g.status)
        && (g.status.Grace? && h.status.Grace? ==> h.graceEndsAt == g.graceEndsAt))
  }

  /** What every transaction leaves behind for a participant it found. */
  predicate Onward(t: Tables, u: Tables, p: Id) {
    && p in t.participants && p in u.participants
    && p in t.presence && t.presence[p] != [] && p in u.presence && u.presence[p] != []
    && NotBefore(Newest(t, p), Newest(u, p))
    && (t.participants[p].departedAt.Some? ==> u.participants[p] == t.participants[p])
  }

  predicate SessionsKept(t: Tables, u: Tables) {
    forall k | k in t.sessions :: k in u.sessions && u.sessions[k].participant == t.sessions[k].participant
  }

  /** Nothing happened to the connections: connected generations are untouched and nobody else became connected. */
  predicate Calm(t: Tables, u: Tables) {
    && SessionsKept(t, u)
    && (forall p | p in t.participants ::
          && Onward(t, u, p)
          && (Newest(t, p).status.Connected? ==> u.presence[p] == t.presence[p])
          && (!Newest(t, p).status.Connected? ==> !Newest(u, p).status.Connected?))
    && (forall p | p in u.participants && p !in t.participants ::
          p in u.presence && u.presence[p] != [] && !Newest(u, p).status.Connected?)
  }

  lemma CalmKeeps(w: World, u: Tables)
    requires Accounted(w) && PeopleOk(u) && Calm(w.tables, u)
    ensures Accounted(World(u, w.sockets))
  {
    hide PeopleOk, NotBefore;
    var v := World(u, w.sockets);
    forall s | s in v.sockets ensures SocketOk(u, v.sockets[s]) {
      assert SocketOk(w.tables, w.sockets[s]);
      assert Onward(w.tables, u, w.sockets[s].participant);
    }
    forall p | p in u.participants ensures p in u.presence && u.presence[p] != [] && CountOk(v, p) {
      if p in w.tables.participants {
        assert Onward(w.tables, u, p) && CountOk(w, p);
      }
    }
  }

  lemma CalmTransitive(t: Tables, u: Tables, v: Tables)
    requires Calm(t, u) && Calm(u, v)
    ensures Calm(t, v)
  {
    hide NotBefore;
    forall p | p in t.participants
      ensures Onward(t, v, p)
    {
      assert Onward(t, u, p) && Onward(u, v, p);
      NotBeforeTransitive(Newest(t, p), Newest(u, p), Newest(v, p));
    }
  }

  lemma NotBeforeTransitive(g: Generation, h: Generation, i: Generation)
    requires NotBefore(g, h) && NotBefore(h, i)
    ensures NotBefore(g, i)
  {
  }

  lemma ExpiryIsCalm(t: Tables, now: Time)
    requires PeopleOk(t)
    ensures Calm(t, ExpireDue(t, now)) && PeopleOk(ExpireDue(t, now))
  {
    hide PeopleOk, Departs, Max, DepartedPresence, Calm;
    ExpireKeeps(t, now);
    var u := ExpireDue(t, now);
    forall p | p in t.participants
      ensures p in t.presence && t.presence[p] != []
      ensures Onward(t, u, p) && (Newest(t, p).status.Connected? ==> u.presence[p] == t.presence[p])
      ensures !Newest(t, p).status.Connected? ==> !Newest(u, p).status.Connected?
    {
      ExpiryOnward(t, now, p);
    }
    CalmFrom(t, u);
  }

  lemma CalmFrom(t: Tables, u: Tables)
    requires t.participants.Keys == u.participants.Keys && SessionsKept(t, u)
    requires forall p | p in t.participants ::
      && Onward(t, u, p)
      && (Newest(t, p).status.Connected? ==> u.presence[p] == t.presence[p])
      && (!Newest(t, p).status.Connected? ==> !Newest(u, p).status.Connected?)
    ensures Calm(t, u)
  {
  }

  lemma ExpiryOnward(t: Tables, now: Time, p: Id)
    requires PeopleOk(t) && p in t.participants
    ensures var u := ExpireDue(t, now);
            && p in t.presence && t.presence[p] != [] && Onward(t, u, p)
            && (Newest(t, p).status.Connected? ==> u.presence[p] == t.presence[p])
            && (!Newest(t, p).status.Connected? ==> !Newest(u, p).status.Connected?)
  {
    hide Max, GenerationShape, Deadlines, HasOpenSession;
    assert ParticipantOk(t, p);
    ExpiryDeparts(t, now, p);
    if Newest(t, p).status.Connected? {
      LastSocketLeaves(t, p, now);
    }
    if Departs(t, p, now) {
      DepartedPresenceOk(t.presence[p], Max(Deadlines(t, p, now)));
    }
  }

  /** Rewriting the current generation of a disconnected participant. */
  lemma RewriteIsCalm(t: Tables, p: Id, g: Generation)
    requires PeopleOk(t) && p in t.participants && Live(t, p)
    requires !Newest(t, p).status.Connected? && !g.status.Connected? && NotBefore(Newest(t, p), g)
    ensures Current(t, p).Some? && Calm(t, WithCurrent(t, p, g))
  {
    hide GenerationShape, HasOpenSession, HasActiveSession, NotBefore, Calm;
    CurrentIsNewest(t, p);
    assert ParticipantOk(t, p);
    OpenIndexIsLast(t.presence[p]);
    var u := WithCurrent(t, p, g);
    assert u.presence[p] == t.presence[p][|t.presence[p]| - 1 := g];
    forall q | q in t.participants
      ensures Onward(t, u, q) && (Newest(t, q).status.Connected? ==> u.presence[q] == t.presence[q])
      ensures !Newest(t, q).status.Connected? ==> !Newest(u, q).status.Connected?
    {
      assert ParticipantOk(t, q);
      if q != p { SelfNotBefore(Newest(t, q)); }
    }
    CalmFrom(t, u);
  }

  lemma SelfNotBefore(g: Generation)
    ensures NotBefore(g, g)
  {
  }

  lemma SamePresenceIsCalm(t: Tables, u: Tables)
    requires PeopleOk(t) && u.participants == t.participants && u.presence == t.presence && SessionsKept(t, u)
    ensures Calm(t, u)
  {
    hide GenerationShape, HasOpenSession, HasActiveSession;
    forall p | p in t.participants ensures Onward(t, u, p) {
      assert ParticipantOk(t, p);
    }
  }

  lemma ArrivalIsCalm(t: Tables, p: Id, row: Participant, session: Id)
    requires PeopleOk(t) && p !in t.participants && session !in t.sessions
    ensures Calm(t, AddParticipant(t, p, row, session))
  {
    hide GenerationShape, HasOpenSession, HasActiveSession;
    forall q | q in t.participants ensures Onward(t, AddParticipant(t, p, row, session), q) {
      assert ParticipantOk(t, q);
    }
  }

  // ---------- connecting and releasing ----------

  lemma ConnectAccounted(w: World, socket: Id, p: Id, session: Id, now: Time)
    requires Accounted(w) && socket !in w.sockets
    ensures Accounted(Do(w, Connect(socket, p, session, now)))
    ensures forall q | q in w.tables.participants :: Onward(w.tables, Do(w, Connect(socket, p, session, now)).tables, q)
    ensures SessionsKept(w.tables, Do(w, Connect(socket, p, session, now)).tables)
  {
    hide PeopleOk, ExpireDue, Activate, Calm, Onward, SocketOk, CountOk, CountIn, Current;
    var t1 := ExpireDue(w.tables, now);
    ExpiryIsCalm(w.tables, now);
    CalmKeeps(w, t1);
    RegisterKeeps(w.tables, p, session, now);
    CalmGives(w.tables, t1);
    if MayConnect(t1, p, session) {
      ActivateIsCalm(t1, session, now);
      CalmKeeps(World(t1, w.sockets), Activate(t1, session, now));
      CalmTransitive(w.tables, t1, Activate(t1, session, now));
      ConnectedOrNew(t1, p, session, now);
      SocketJoins(World(Activate(t1, session, now), w.sockets), socket, p, session, now);
      CalmThen(w.tables, Activate(t1, session, now), Do(w, Connect(socket, p, session, now)).tables);
    }
  }

  lemma CalmGives(t: Tables, u: Tables)
    requires Calm(t, u)
    ensures SessionsKept(t, u)
    ensures forall p | p in t.participants :: Onward(t, u, p)
  {
  }

  lemma CalmThen(t: Tables, u: Tables, v: Tables)
    requires Calm(t, u) && SessionsKept(u, v)
    requires forall p | p in u.participants :: Onward(u, v, p)
    ensures SessionsKept(t, v)
    ensures forall p | p in t.participants :: Onward(t, v, p)
  {
    forall p | p in t.participants ensures Onward(t, v, p) {
      assert Onward(t, u, p) && Onward(u, v, p);
    }
  }

  lemma ActivateIsCalm(t: Tables, session: Id, now: Time)
    requires PeopleOk(t) && session in t.sessions && MayConnect(t, t.sessions[session].participant, session)
    ensures PeopleOk(Activate(t, session, now)) && Calm(t, Activate(t, session, now))
    ensures session in Activate(t, session, now).sessions
    ensures Activate(t, session, now).sessions[session].participant == t.sessions[session].participant
  {
    hide PeopleOk;
    ActivateKeeps(t, session, now);
    SamePresenceIsCalm(t, Activate(t, session, now));
  }

  predicate MayJoin(w: World, socket: Id, p: Id, session: Id) {
    && Accounted(w) && socket !in w.sockets && p in w.tables.participants
    && session in w.tables.sessions && w.tables.sessions[session].participant == p
    && Current(w.tables, p).Some? && !Current(w.tables, p).value.status.Gone?
  }

  lemma SocketJoins(w: World, socket: Id, p: Id, session: Id, now: Time)
    requires MayJoin(w, socket, p, session)
    ensures var (u, n) := CountIn(w.tables, p, now);
            && (PeopleOk(u) ==> Accounted(World(u, w.sockets[socket := Socket(p, session, n)])))
            && SessionsKept(w.tables, u)
            && forall q | q in w.tables.participants :: Onward(w.tables, u, q)
  {
    hide PeopleOk, CountIn, NotBefore, Current, SocketOk, CountOk;
    var t := w.tables;
    var (u, n) := CountIn(t, p, now);
    JoiningNewest(t, p, now);
    JoinedSocketsOk(w, socket, p, session, u, n);
    JoinedCountsOk(w, socket, p, session, u, n);
  }

  predicate JoinsAs(t: Tables, u: Tables, p: Id, n: nat) {
    && p in t.presence && t.presence[p] != [] && p in u.presence && u.presence[p] != []
    && Newest(u, p).status.Connected? && Newest(u, p).number == n
    && Newest(u, p).connectionCount == (if Newest(t, p).status.Connected? then Newest(t, p).connectionCount + 1 else 1)
    && (Newest(t, p).status.Connected? ==> n == Newest(t, p).number)
    && u.participants == t.participants && u.sessions == t.sessions
    && (forall q | q != p && q in t.presence :: q in u.presence && u.presence[q] == t.presence[q])
  }

  lemma JoinedSocketsOk(w: World, socket: Id, p: Id, session: Id, u: Tables, n: nat)
    requires MayJoin(w, socket, p, session) && JoinsAs(w.tables, u, p, n)
    ensures var sockets := w.sockets[socket := Socket(p, session, n)];
            forall s | s in sockets :: SocketOk(u, sockets[s])
  {
    hide PeopleOk, Current;
    var sockets := w.sockets[socket := Socket(p, session, n)];
    forall s | s in sockets ensures SocketOk(u, sockets[s]) {
      if s != socket {
        assert SocketOk(w.tables, w.sockets[s]);
      }
    }
  }

  lemma JoinedCountsOk(w: World, socket: Id, p: Id, session: Id, u: Tables, n: nat)
    requires MayJoin(w, socket, p, session) && JoinsAs(w.tables, u, p, n)
    ensures var v := World(u, w.sockets[socket := Socket(p, session, n)]);
            forall q | q in u.participants :: q in u.presence && u.presence[q] != [] && CountOk(v, q)
  {
    hide PeopleOk, Current, SocketOk;
    var sockets := w.sockets[socket := Socket(p, session, n)];
    assert SocketsOf(sockets, p) == SocketsOf(w.sockets, p) + {socket};
    if !Newest(w.tables, p).status.Connected? {
      NoSockets(w, p);
    }
    forall q | q in u.participants ensures q in u.presence && u.presence[q] != [] && CountOk(World(u, sockets), q) {
      assert CountOk(w, q);
      if q != p {
        assert SocketsOf(sockets, q) == SocketsOf(w.sockets, q);
      }
    }
  }

  lemma NoSockets(w: World, p: Id)
    requires Accounted(w) && p in w.tables.participants && !Newest(w.tables, p).status.Connected?
    ensures SocketsOf(w.sockets, p) == {}
  {
    forall s | s in w.sockets ensures w.sockets[s].participant != p {
      assert SocketOk(w.tables, w.sockets[s]);
    }
  }

  lemma JoiningNewest(t: Tables, p: Id, now: Time)
    requires PeopleOk(t) && p in t.participants && Current(t, p).Some?
    ensures p in t.presence && t.presence[p] != [] && Current(t, p) == Some(Newest(t, p))
    ensures var (u, n) := CountIn(t, p, now);
            && JoinsAs(t, u, p, n)
            && (forall q | q in t.participants :: Onward(t, u, q))
  {
    hide GenerationShape, HasOpenSession, HasActiveSession;
    CurrentIsNewest(t, p);
    assert ParticipantOk(t, p);
    OpenIndexIsLast(t.presence[p]);
    var (u, n) := CountIn(t, p, now);
    forall q | q in t.participants && q != p ensures Onward(t, u, q) {
      assert ParticipantOk(t, q);
    }
  }

  /** The tables after the last or another socket of `p` is released, given the generation `g` it leaves behind. */
  predicate LeavesAs(t: Tables, u: Tables, p: Id, g: Generation) {
    && Leaves(u, p, g)
    && (forall q | q in t.participants && q != p ::
          && Onward(t, u, q)
          && (Newest(t, q).status.Connected? ==> u.presence[q] == t.presence[q])
          && (!Newest(t, q).status.Connected? ==> !Newest(u, q).status.Connected?))
    && t.participants.Keys == u.participants.Keys
    && SessionsKept(t, u)
  }

  predicate Leaves(u: Tables, p: Id, g: Generation) {
    p in u.presence && u.presence[p] != [] && Newest(u, p) == g
  }

  lemma LeftSocketsOk(w: World, socket: Id, u: Tables, g: Generation)
    requires Accounted(w) && socket in w.sockets && LeavesAs(w.tables, u, w.sockets[socket].participant, g)
    requires g.status.Connected? ==> g.number == w.sockets[socket].number
    requires !g.status.Connected? ==> SocketsOf(w.sockets, w.sockets[socket].participant) == {socket}
    ensures forall s | s in w.sockets - {socket} :: SocketOk(u, w.sockets[s])
  {
    hide PeopleOk, CountOk, NotBefore;
    var p := w.sockets[socket].participant;
    assert SocketOk(w.tables, w.sockets[socket]);
    forall s | s in w.sockets && s != socket ensures SocketOk(u, w.sockets[s]) {
      assert SocketOk(w.tables, w.sockets[s]);
      if w.sockets[s].participant == p {
        assert s in SocketsOf(w.sockets, p);
      } else {
        assert Onward(w.tables, u, w.sockets[s].participant);
      }
    }
  }

  lemma LeftCountsOk(w: World, socket: Id, u: Tables, g: Generation)
    requires Accounted(w) && socket in w.sockets && LeavesAs(w.tables, u, w.sockets[socket].participant, g)
    requires g.status.Connected? ==> g.connectionCount + 1 == |SocketsOf(w.sockets, w.sockets[socket].participant)|
    ensures var v := World(u, w.sockets - {socket});
            forall q | q in u.participants :: q in u.presence && u.presence[q] != [] && CountOk(v, q)
  {
    hide PeopleOk, NotBefore, SocketOk;
    var p := w.sockets[socket].participant;
    var sockets := w.sockets - {socket};
    assert SocketsOf(sockets, p) == SocketsOf(w.sockets, p) - {socket};
    forall q | q in u.participants ensures q in u.presence && u.presence[q] != [] && CountOk(World(u, sockets), q) {
      assert CountOk(w, q);
      if q != p {
        assert SocketsOf(sockets, q) == SocketsOf(w.sockets, q);
        assert Onward(w.tables, u, q);
      }
    }
  }

  /** The socket that is released always counts: its generation is the current, connected one, and its count is the number of such sockets. */
  lemma SocketCounts(w: World, socket: Id)
    requires Accounted(w) && socket in w.sockets
    ensures var s := w.sockets[socket];
            var t := w.tables;
            && s.participant in t.participants && Live(t, s.participant)
            && s.session in t.sessions && t.sessions[s.session].participant == s.participant
            && Current(t, s.participant) == Some(Newest(t, s.participant))
            && Newest(t, s.participant).status.Connected?
            && Newest(t, s.participant).number == s.number
            && Newest(t, s.participant).connectionCount == |SocketsOf(w.sockets, s.participant)|
            && socket in SocketsOf(w.sockets, s.participant)
  {
    var s := w.sockets[socket];
    assert SocketOk(w.tables, s);
    assert CountOk(w, s.participant);
    CurrentIsNewest(w.tables, s.participant);
    assert ParticipantOk(w.tables, s.participant);
  }

  lemma SingleSocket(sockets: map<Id, Socket>, socket: Id, p: Id)
    requires socket in SocketsOf(sockets, p) && |SocketsOf(sockets, p)| == 1
    ensures SocketsOf(sockets, p) == {socket}
  {
    assert |SocketsOf(sockets, p) - {socket}| == 0;
  }

  ghost function Released(w: World, socket: Id, chosen: Id, now: Time, rejoinMs: nat, graceMs: nat): Change
    requires socket in w.sockets
  {
    var s := w.sockets[socket];
    Unregister(w.tables, s.participant, s.session, s.number, chosen, now, rejoinMs, graceMs)
  }

  /** Grace starts exactly when the last registered socket leaves; an earlier one only lowers the count. */
  lemma ReleaseMeaning(w: World, socket: Id, chosen: Id, now: Time, rejoinMs: nat, graceMs: nat)
    requires Accounted(w) && socket in w.sockets
    ensures var p := w.sockets[socket].participant;
            var c := Released(w, socket, chosen, now, rejoinMs, graceMs);
            && (SocketsOf(w.sockets, p) == {socket} <==> c.announced.Some?)
            && p in c.tables.presence && c.tables.presence[p] != []
            && (c.announced.Some? ==>
                  && c.announced.value == Newest(c.tables, p) && Newest(c.tables, p).status.Grace?
                  && Newest(c.tables, p).number == w.sockets[socket].number
                  && Newest(c.tables, p).graceEndsAt == Some(now + graceMs))
            && (c.announced.None? ==> Newest(c.tables, p) == Newest(w.tables, p).(connectionCount := Newest(w.tables, p).connectionCount - 1))
            && LeavesAs(w.tables, c.tables, p, Newest(c.tables, p))
  {
    hide PeopleOk, SocketOk, CountOk, Accounted, LeavesAs, Disconnect, ExpireDue, WithCurrent, Current;
    var p := w.sockets[socket].participant;
    SocketCounts(w, socket);
    if |SocketsOf(w.sockets, p)| == 1 {
      SingleSocket(w.sockets, socket, p);
      LastLeaves(w.tables, p, chosen, now, rejoinMs, graceMs) by { AccountedPeople(w); }
    } else {
      OneLeaves(w.tables, p) by { AccountedPeople(w); }
    }
  }

  /** The lease of the grace period that starts holds until somebody returns or it runs out; no other release leaves one. */
  lemma ReleaseLease(w: World, socket: Id, chosen: Id, now: Time, rejoinMs: nat, graceMs: nat)
    requires Accounted(w) && socket in w.sockets
    ensures var s := w.sockets[socket];
            var c := Released(w, socket, chosen, now, rejoinMs, graceMs);
            && (SocketsOf(w.sockets, s.participant) == {socket} <==> c.announced.Some?)
            && (c.announced.Some? ==>
                  c.announced.value.graceEndsAt == Some(now + graceMs)
                  && LeaseHolds(c.tables, Lease(s.participant, s.number, now + graceMs)))
            && (c.announced.None? ==>
                  Current(c.tables, s.participant).Some? && Current(c.tables, s.participant).value.status.Connected?
                  && Current(c.tables, s.participant).value.number == s.number)
  {
    hide SocketOk, CountOk, Released, LeavesAs, Accounted, PeopleOk;
    var p := w.sockets[socket].participant;
    ReleaseMeaning(w, socket, chosen, now, rejoinMs, graceMs);
    SocketCounts(w, socket);
    AccountedPeople(w);
    var c := Released(w, socket, chosen, now, rejoinMs, graceMs);
    assert PeopleOk(c.tables) && p in c.tables.participants by { ReleasedPeople(w, socket, chosen, now, rejoinMs, graceMs); }
    CurrentIsNewest(c.tables, p);
    NewestShape(c.tables, p);
  }

  lemma ReleasedPeople(w: World, socket: Id, chosen: Id, now: Time, rejoinMs: nat, graceMs: nat)
    requires PeopleOk(w.tables) && socket in w.sockets
    ensures var t := Released(w, socket, chosen, now, rejoinMs, graceMs).tables;
            PeopleOk(t) && t.participants.Keys == w.tables.participants.Keys
  {
    hide PeopleOk, OpenIndex, Departs;
    var s := w.sockets[socket];
    UnregisterKeeps(w.tables, s.participant, s.session, s.number, chosen, now, rejoinMs, graceMs);
  }

  lemma NewestShape(t: Tables, p: Id)
    requires PeopleOk(t) && p in t.participants
    ensures p in t.presence && t.presence[p] != [] && GenerationShape(Newest(t, p)) && (Live(t, p) <==> !Newest(t, p).status.Gone?)
  {
    hide HasOpenSession, HasActiveSession;
    assert ParticipantOk(t, p);
  }

  lemma AccountedPeople(w: World)
    requires Accounted(w)
    ensures PeopleOk(w.tables)
  {
  }

  lemma OneLeaves(t: Tables, p: Id)
    requires PeopleOk(t) && p in t.participants && Newest(t, p).status.Connected? && Newest(t, p).connectionCount > 1
    ensures Current(t, p).Some?
    ensures var g := Newest(t, p).(connectionCount := Newest(t, p).connectionCount - 1);
            LeavesAs(t, WithCurrent(t, p, g), p, g) && Leaves(WithCurrent(t, p, g), p, g)
  {
    hide PeopleOk, Onward, WithCurrent, Current;
    CurrentIsNewest(t, p);
    ConnectedHasRow(t, p);
    var g := Newest(t, p).(connectionCount := Newest(t, p).connectionCount - 1);
    var u := WithCurrent(t, p, g);
    WithCurrentNewest(t, t, p, g);
    forall q | q in t.participants && q != p ensures q in t.presence && t.presence[q] != [] && Onward(t, u, q) {
      UntouchedOnward(t, u, q);
    }
  }

  lemma UntouchedOnward(t: Tables, u: Tables, q: Id)
    requires PeopleOk(t) && q in t.participants && u.participants == t.participants
    requires q in u.presence && q in t.presence ==> u.presence[q] == t.presence[q]
    requires q in t.presence ==> q in u.presence
    ensures q in t.presence && t.presence[q] != [] && Onward(t, u, q)
  {
    hide HasOpenSession, HasActiveSession, GenerationShape;
    assert ParticipantOk(t, q);
  }

  lemma LastLeaves(t: Tables, p: Id, chosen: Id, now: Time, rejoinMs: nat, graceMs: nat)
    requires PeopleOk(t) && p in t.participants && Newest(t, p).status.Connected?
    ensures var u := Disconnect(ExpireDue(t, now), p, chosen, now, rejoinMs);
            var g := GraceGeneration(Newest(t, p), now, graceMs);
            Current(u, p).Some? && LeavesAs(t, WithCurrent(u, p, g), p, g) && Leaves(WithCurrent(u, p, g), p, g)
  {
    hide GenerationShape, HasOpenSession, HasActiveSession, ExpireDue, PeopleOk, Onward, Disconnect, OpenIndex, Calm;
    var u0 := ExpireDue(t, now);
    LastSocketLeaves(t, p, now);
    ExpiryIsCalm(t, now);
    CurrentIsNewest(u0, p);
    DisconnectKeepsPresence(u0, p, chosen, now, rejoinMs);
    var u := Disconnect(u0, p, chosen, now, rejoinMs);
    var g := GraceGeneration(Newest(t, p), now, graceMs);
    WithCurrentNewest(u0, u, p, g);
    CalmLeaves(t, u0, WithCurrent(u, p, g), p, g) by { SameKeys(t, now); }
  }

  lemma SameKeys(t: Tables, now: Time)
    ensures ExpireDue(t, now).participants.Keys == t.participants.Keys
  {
  }

  lemma DisconnectKeepsPresence(t: Tables, p: Id, chosen: Id, now: Time, rejoinMs: nat)
    ensures var u := Disconnect(t, p, chosen, now, rejoinMs);
            u.participants == t.participants && u.presence == t.presence && SessionsKept(t, u)
  {
  }

  lemma WithCurrentNewest(t: Tables, u: Tables, p: Id, g: Generation)
    requires PeopleOk(t) && p in t.participants && u.presence == t.presence
    ensures Current(u, p).Some?
    ensures var v := WithCurrent(u, p, g);
            && v.participants == u.participants && v.sessions == u.sessions
            && p in v.presence && v.presence[p] != [] && Newest(v, p) == g
            && (forall q | q != p && q in t.presence :: q in v.presence && v.presence[q] == t.presence[q])
  {
    CurrentIsNewest(t, p);
    assert ParticipantOk(t, p);
    OpenIndexIsLast(t.presence[p]);
  }

  lemma CalmLeaves(t: Tables, u0: Tables, v: Tables, p: Id, g: Generation)
    requires Calm(t, u0) && u0.participants.Keys == t.participants.Keys
    requires v.participants == u0.participants && SessionsKept(u0, v)
    requires p in v.presence && v.presence[p] != [] && Newest(v, p) == g
    requires forall q | q != p && q in u0.presence :: q in v.presence && v.presence[q] == u0.presence[q]
    ensures LeavesAs(t, v, p, g)
  {
    hide NotBefore;
    forall q | q in t.participants && q != p ensures Onward(t, v, q) {
      assert Onward(t, u0, q);
    }
  }

  lemma ReleaseAccounted(w: World, socket: Id, chosen: Id, now: Time, rejoinMs: nat, graceMs: nat)
    requires Accounted(w) && socket in w.sockets
    ensures var v := Do(w, Release(socket, chosen, now, rejoinMs, graceMs));
            && (PeopleOk(v.tables) ==> Accounted(v))
            && (forall q | q in w.tables.participants :: Onward(w.tables, v.tables, q))
            && SessionsKept(w.tables, v.tables)
  {
    hide PeopleOk, SocketOk, CountOk, Unregister, SocketsOf;
    var p := w.sockets[socket].participant;
    SocketCounts(w, socket);
    ReleaseMeaning(w, socket, chosen, now, rejoinMs, graceMs);
    var u := Released(w, socket, chosen, now, rejoinMs, graceMs).tables;
    LeftSocketsOk(w, socket, u, Newest(u, p));
    LeftCountsOk(w, socket, u, Newest(u, p));
    ReleaseOnward(w, socket, chosen, now, rejoinMs, graceMs);
  }

  lemma ReleaseOnward(w: World, socket: Id, chosen: Id, now: Time, rejoinMs: nat, graceMs: nat)
    requires Accounted(w) && socket in w.sockets
    ensures var p := w.sockets[socket].participant;
            Onward(w.tables, Released(w, socket, chosen, now, rejoinMs, graceMs).tables, p)
  {
    hide PeopleOk, SocketOk, CountOk, Unregister, SocketsOf, Accounted;
    var p := w.sockets[socket].participant;
    SocketCounts(w, socket);
    ReleaseMeaning(w, socket, chosen, now, rejoinMs, graceMs);
    AccountedPeople(w);
    ConnectedHasRow(w.tables, p);
  }

  lemma ConnectedHasRow(t: Tables, p: Id)
    requires PeopleOk(t) && p in t.participants
    ensures p in t.presence && t.presence[p] != []
  {
    assert ParticipantOk(t, p);
  }

  // ---------- every transaction and every run ----------

  /** The participants and sessions of `w` are still there, further on. */
  predicate Moved(t: Tables, u: Tables) {
    && SessionsKept(t, u)
    && (forall p | p in t.participants :: Onward(t, u, p))
  }

  lemma CalmMoves(t: Tables, u: Tables)
    requires Calm(t, u)
    ensures Moved(t, u)
  {
  }

  lemma CalmStep(w: World, u: Tables)
    requires Accounted(w) && PeopleOk(u) && Calm(w.tables, u)
    ensures Accounted(World(u, w.sockets)) && Moved(w.tables, u)
  {
    hide PeopleOk, Calm, SocketOk, CountOk;
    CalmKeeps(w, u);
    CalmMoves(w.tables, u);
  }

  lemma CalmAfterExpiry(w: World, now: Time, u: Tables)
    requires Accounted(w) && PeopleOk(u) && Calm(ExpireDue(w.tables, now), u)
    ensures Accounted(World(u, w.sockets)) && Moved(w.tables, u)
  {
    hide PeopleOk, Calm, SocketOk, CountOk, ExpireDue;
    ExpiryIsCalm(w.tables, now);
    CalmTransitive(w.tables, ExpireDue(w.tables, now), u);
    CalmStep(w, u);
  }

  lemma Unmoved(w: World)
    requires Accounted(w)
    ensures Moved(w.tables, w.tables)
  {
    SamePresenceIsCalm(w.tables, w.tables);
  }

  lemma GraceAccounted(w: World, l: Lease, now: Time)
    requires Accounted(w)
    ensures var v := Do(w, GraceElapses(l, now)); Accounted(v) && Moved(w.tables, v.tables)
  {
    hide PeopleOk, Calm, SocketOk, CountOk, Moved, WithCurrent, Accounted;
    Unmoved(w);
    AccountedPeople(w);
    if ExpireGrace(w.tables, l, now).Expired? {
      GraceKeeps(w.tables, l, now);
      if l.participant in w.tables.participants {
        CurrentIsNewest(w.tables, l.participant);
        RewriteIsCalm(w.tables, l.participant, AbsentGeneration(Current(w.tables, l.participant).value, now));
        CalmStep(w, ExpireGrace(w.tables, l, now).tables);
      }
    }
  }

  lemma OverrideAccounted(w: World, p: Id, number: nat, now: Time)
    requires Accounted(w)
    ensures var v := Do(w, OverrideAbsence(p, number, now)); Accounted(v) && Moved(w.tables, v.tables)
  {
    hide PeopleOk, Calm, SocketOk, CountOk, Moved, WithCurrent, Accounted, ExpireDue;
    AccountedPeople(w);
    ExpiryIsCalm(w.tables, now);
    var u := ExpireDue(w.tables, now);
    CalmStep(w, u);
    if Overridable(u, p, number) {
      OverrideKeeps(u, p, number, now);
      CurrentIsNewest(u, p);
      RewriteIsCalm(u, p, Current(u, p).value.(overridden := true, changedAt := now));
      CalmAfterExpiry(w, now, Override(u, p, now));
    }
  }

  lemma ArriveAccounted(w: World, op: Op)
    requires Accounted(w) && op.Arrive?
    ensures Accounted(Do(w, op)) && Moved(w.tables, Do(w, op).tables)
  {
    hide PeopleOk, Calm, SocketOk, CountOk, Moved, Accounted, AddParticipant, LiveIds;
    Unmoved(w);
    AccountedPeople(w);
    if op.participant !in w.tables.participants && op.session !in w.tables.sessions {
      var u := ExpireDue(w.tables, op.now);
      ExpiryIsCalm(w.tables, op.now);
      CalmStep(w, u);
      assert op.participant !in u.participants && op.session !in u.sessions;
      var row := Participant(op.username, Player, op.eligibility, op.issuedAt, None);
      ArrivalIsCalm(u, op.participant, row, op.session);
      AddParticipantKeeps(u, op.participant, row, op.session);
      CalmAfterExpiry(w, op.now, AddParticipant(u, op.participant, row, op.session));
    }
  }

  lemma ReturnAccounted(w: World, session: Id, now: Time)
    requires Accounted(w)
    ensures var v := Do(w, Return(session, now)); Accounted(v) && Moved(w.tables, v.tables)
  {
    hide PeopleOk, Calm, SocketOk, CountOk, Moved, Accounted, Activate, ExpireDue;
    AccountedPeople(w);
    ExpiryIsCalm(w.tables, now);
    var u := ExpireDue(w.tables, now);
    CalmStep(w, u);
    if session in u.sessions && MayConnect(u, u.sessions[session].participant, session) {
      ActivateIsCalm(u, session, now);
      CalmAfterExpiry(w, now, Activate(u, session, now));
    }
  }

  lemma AnotherAccounted(w: World, p: Id, session: Id, now: Time)
    requires Accounted(w)
    ensures var v := Do(w, Another(p, session, now)); Accounted(v) && Moved(w.tables, v.tables)
  {
    hide PeopleOk, Calm, SocketOk, CountOk, Moved, Accounted;
    Unmoved(w);
    AccountedPeople(w);
    ExpiryIsCalm(w.tables, now);
    var u := ExpireDue(w.tables, now);
    CalmStep(w, u);
    if session !in w.tables.sessions && Live(u, p) {
      assert session !in u.sessions;
      AnotherSessionKeeps(u, p, session);
      SamePresenceIsCalm(u, u.(sessions := u.sessions[session := Session(p, SessionActive, None, None)]));
      CalmAfterExpiry(w, now, u.(sessions := u.sessions[session := Session(p, SessionActive, None, None)]));
    }
  }

  lemma AllPlayIsCalm(t: Tables)
    requires PeopleOk(t)
    ensures Calm(t, AllPlay(t))
  {
    hide GenerationShape, HasOpenSession, HasActiveSession, GenerationsOk;
    forall p | p in t.participants ensures Onward(t, AllPlay(t), p) {
      assert ParticipantOk(t, p);
      ConnectedHasRow(t, p);
    }
  }

  /** Every transaction keeps the accounting and moves every participant forward. */
  lemma EveryOpAccounted(w: World, op: Op)
    requires Accounted(w)
    ensures Accounted(Do(w, op)) && Moved(w.tables, Do(w, op).tables)
  {
    hide PeopleOk, SocketOk, CountOk, Accounted, Onward, SessionsKept, ExpireDue;
    AccountedPeople(w);
    Unmoved(w);
    OpKeepsTables(w, op);
    match op
    case Expiry(now) =>
      ExpiryIsCalm(w.tables, now);
      CalmStep(w, ExpireDue(w.tables, now));
    case Connect(socket, p, session, now) =>
      if socket !in w.sockets { ConnectAccounted(w, socket, p, session, now); }
    case Release(socket, chosen, now, rejoinMs, graceMs) =>
      if socket in w.sockets { ReleaseAccounted(w, socket, chosen, now, rejoinMs, graceMs); }
    case GraceElapses(lease, now) => GraceAccounted(w, lease, now);
    case OverrideAbsence(p, number, now) => OverrideAccounted(w, p, number, now);
    case Arrive(_, _, _, _, _, _, _) => ArriveAccounted(w, op);
    case Return(session, now) => ReturnAccounted(w, session, now);
    case Another(p, session, now) => AnotherAccounted(w, p, session, now);
    case Enroll =>
      AllPlayIsCalm(w.tables);
      CalmStep(w, AllPlay(w.tables));
  }

  lemma MovedTransitive(t: Tables, u: Tables, v: Tables)
    requires Moved(t, u) && Moved(u, v)
    ensures Moved(t, v)
  {
    forall p | p in t.participants ensures Onward(t, v, p) {
      assert Onward(t, u, p) && Onward(u, v, p);
    }
  }

  /** In every run: the accounting holds throughout, (generation, status) only grows, and departures are permanent. */
  lemma {:induction false} EveryRunAccounted(w: World, ops: seq<Op>)
    requires Accounted(w)
    ensures Accounted(Run(w, ops)) && Moved(w.tables, Run(w, ops).tables)
  {
    hide Accounted, Moved, Do;
    Unmoved(w);
    if ops != [] {
      var v := Run(w, ops[..|ops| - 1]);
      EveryRunAccounted(w, ops[..|ops| - 1]);
      EveryOpAccounted(v, ops[|ops| - 1]);
      MovedTransitive(w.tables, v.tables, Do(v, ops[|ops| - 1]).tables);
    }
  }

  /** The participant has left the grace period that the lease describes behind. */
  predicate PastGrace(t: Tables, l: Lease) {
    && l.participant in t.participants && l.participant in t.presence && t.presence[l.participant] != []
    && var g := Newest(t, l.participant);
       g.number > l.number || (g.number == l.number && Rank(g.status) > Rank(Grace))
  }

  lemma {:induction false} RunInTwo(w: World, a: seq<Op>, b: seq<Op>)
    ensures Run(w, a + b) == Run(Run(w, a), b)
  {
    hide Do;
    if b == [] {
      assert a + b == a;
    } else {
      var n := |b| - 1;
      RunInTwo(w, a, b[..n]);
      assert (a + b)[..|a + b| - 1] == a + b[..n];
    }
  }

  /** Nobody is in the grace period of the lease any more: it is left behind or its participant departed. */
  predicate Over(t: Tables, l: Lease) {
    PastGrace(t, l) || (l.participant in t.participants && t.participants[l.participant].departedAt.Some?)
  }

  /** A lease that held and holds no longer has its grace period behind it. */
  lemma NoLongerHolds(t: Tables, u: Tables, l: Lease)
    requires PeopleOk(t) && PeopleOk(u) && Moved(t, u) && LeaseHolds(t, l) && !LeaseHolds(u, l)
    ensures Over(u, l)
  {
    hide HasOpenSession, HasActiveSession, SessionsKept;
    CurrentIsNewest(t, l.participant);
    assert Onward(t, u, l.participant);
    CurrentIsNewest(u, l.participant);
    assert ParticipantOk(u, l.participant);
  }

  lemma OverForever(t: Tables, u: Tables, l: Lease)
    requires PeopleOk(u) && Moved(t, u) && Over(t, l)
    ensures Over(u, l) && !LeaseHolds(u, l)
  {
    hide PeopleOk, SessionsKept;
    assert Onward(t, u, l.participant);
    CurrentIsNewest(u, l.participant);
  }

  /** In every run, a grace lease that held once and is stale now stays stale, and executing it at any time does nothing. */
  lemma StaleForever(w: World, l: Lease, a: seq<Op>, b: seq<Op>, now: Time)
    requires Accounted(w) && LeaseHolds(w.tables, l) && !LeaseHolds(Run(w, a).tables, l)
    ensures !LeaseHolds(Run(w, a + b).tables, l)
    ensures Do(Run(w, a + b), GraceElapses(l, now)) == Run(w, a + b)
  {
    hide PeopleOk, SocketOk, CountOk, Run, Moved, LeaseHolds;
    RunInTwo(w, a, b);
    EveryRunAccounted(w, a);
    EveryRunAccounted(Run(w, a), b);
    NoLongerHolds(w.tables, Run(w, a).tables, l);
    OverForever(Run(w, a).tables, Run(w, a + b).tables, l);
  }

  lemma ExecutedLeaseIsPast(w: World, l: Lease, now: Time)
    requires Accounted(w) && ExpireGrace(w.tables, l, now).Expired?
    ensures l.participant in w.tables.participants && PastGrace(ExpireGrace(w.tables, l, now).tables, l)
    ensures now >= l.graceEndsAt
  {
    hide SocketOk, CountOk, HasOpenSession, HasActiveSession, GenerationShape;
    if l.participant !in w.tables.participants {
      NoCurrentOutside(w.tables, l.participant);
    } else {
      CurrentIsNewest(w.tables, l.participant);
      assert ParticipantOk(w.tables, l.participant);
      OpenIndexIsLast(w.tables.presence[l.participant]);
    }
  }
}
