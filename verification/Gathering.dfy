/** Runs as the server makes them, and one in which 25 participants arrive and connect. */
module Gathering {

  import opened Common
  import opened Rows
  import opened Games
  import opened Lobby
  import opened LobbyInv
  import opened Transactions
  import P = People
  import Q = Presence
  import C = Connections

  // ---------- runs of the server ----------

  /** The server lets at most 25 in and deals pairwise different cards. */
  predicate Served(tx: Tx) {
    match tx
    case PresenceTx(op) => op.Arrive? ==> op.maxPlayers <= MAX_PLAYERS
    case CommandTx(_, _, _, env) => DifferentCards(env.deal.cards)
    case CallTx(_, _) => true
    case SettleTx(_, _) => true
  }

  predicate DifferentCards(cards: map<Id, Card>) {
    forall p, q | p in cards && q in cards && p != q :: cards[p].cells != cards[q].cells
  }

  ghost predicate RunTo(start: Db, o: Options, txs: seq<Tx>, states: seq<Db>, db: Db) {
    IsRun(start, o, txs, states) && states[|txs|] == db && forall i | 0 <= i < |txs| :: Served(txs[i])
  }

  ghost predicate Reached(start: Db, o: Options, db: Db) {
    exists txs, states :: RunTo(start, o, txs, states, db)
  }

  /** A lobby that was just created, with its host as participant and session 0. */
  function Founded(): Db {
    NewLobby(0, 0, 0, Setup(STANDARD_ONE_LINE, Manual), 0, 1)
  }

  ghost predicate At(db: Db, o: Options) {
    Reached(Founded(), o, db) && Inv(db, o)
  }

  predicate MayFound(o: Options) {
    ValidOptions(o) && Known(o.catalog, STANDARD_ONE_LINE)
  }

  lemma Foundation(o: Options)
    requires MayFound(o)
    ensures At(Founded(), o)
  {
    hide Inv;
    NewLobbyOk(0, 0, 0, Setup(STANDARD_ONE_LINE, Manual), 0, 1, o);
    assert RunTo(Founded(), o, [], [Founded()], Founded());
  }

  /** A run goes on by any transaction. */
  lemma GoesOn(db: Db, o: Options, tx: Tx)
    requires At(db, o) && TxOk(db, tx) && Served(tx)
    ensures Next(db, o, tx).Some? && At(Next(db, o, tx).value, o) && Next(db, o, tx).value.clock == TimeOfTx(tx, db.clock)
  {
    hide Inv, TxOk, Next, Served, Founded;
    TransactionOk(db, o, tx);
    var next := Next(db, o, tx).value;
    var txs, states :| RunTo(Founded(), o, txs, states, db);
    var longer, more := txs + [tx], states + [next];
    forall i | 0 <= i < |longer| ensures TxOk(more[i], longer[i]) && Next(more[i], o, longer[i]) == Some(more[i + 1]) && Served(longer[i]) {
      if i < |txs| { assert longer[i] == txs[i] && more[i] == states[i] && more[i + 1] == states[i + 1]; }
    }
    assert RunTo(Founded(), o, longer, more, next);
  }

  // ---------- arriving ----------

  function First(n: nat): (s: seq<Id>)
    ensures |s| == n && forall p: Id | p < n :: s[p] == p
  {
    seq(n, i requires 0 <= i < n => i)
  }

  /** The ids below `n`. */
  function Below(n: nat): (s: set<Id>)
    ensures forall p: Id :: p in s <==> p < n
  {
    var all := First(n);
    assert forall p: Id :: p in all <==> p < n by {
      forall p: Id | p < n ensures p in all { assert all[p] == p; }
    }
    set p | p in all
  }

  lemma {:induction false} BelowCount(n: nat)
    ensures |Below(n)| == n
  {
    if n > 0 {
      BelowCount(n - 1);
      assert Below(n) == Below(n - 1) + {n - 1};
    } else {
      assert Below(n) == {};
    }
  }

  function RoleOf(p: Id): P.Role {
    if p == 0 then P.Host else P.Player
  }

  function SessionOf(p: Id): P.Session {
    P.Session(p, P.SessionActive, None, None)
  }

  function Arrived(n: nat): P.Tables {
    P.Tables(map p | p in Below(n) :: P.Participant(p, RoleOf(p), P.Playing, 0, None),
             map p | p in Below(n) :: SessionOf(p),
             map p | p in Below(n) :: [Q.AbsentFromJoin(0)])
  }

  /** Where no session is disconnected, nothing is due. */
  lemma NothingDue(t: P.Tables, now: Time)
    requires forall k | k in t.sessions :: !t.sessions[k].status.SessionDisconnected?
    ensures P.ExpireDue(t, now) == t
  {
    hide P.Max;
    assert P.ExpiredSessions(t, now) == t.sessions;
    forall p ensures P.Deadlines(t, p, now) == {} {}
    var u := P.ExpireDue(t, now);
    assert u.participants == t.participants && u.presence == t.presence;
  }

  function Arrival(n: nat): C.Op {
    C.Arrive(n, n, n, P.Playing, 0, MAX_PLAYERS, 0)
  }

  function Hall(n: nat): Db {
    Founded().(world := C.World(Arrived(n), map[]))
  }

  lemma Arrives(n: nat)
    requires 1 <= n < MAX_PLAYERS
    ensures C.Do(C.World(Arrived(n), map[]), Arrival(n)) == C.World(Arrived(n + 1), map[])
  {
    hide P.ExpireDue, Arrived, Q.AddParticipant, Below, First;
    var t := Arrived(n);
    ArrivedRows(n);
    NothingDue(t, 0);
    BelowCount(n);
    assert Q.LiveIds(t) == Below(n);
    OneMore(n);
  }

  lemma ArrivedRows(n: nat)
    ensures Arrived(n).participants.Keys == Arrived(n).sessions.Keys == Arrived(n).presence.Keys == Below(n)
    ensures forall p | p in Arrived(n).participants :: Arrived(n).participants[p].username == p && Arrived(n).participants[p].departedAt.None?
    ensures forall k | k in Arrived(n).sessions :: Arrived(n).sessions[k] == SessionOf(k)
  {
    hide Below;
  }

  lemma OneMore(n: nat)
    requires 1 <= n
    ensures Q.AddParticipant(Arrived(n), n, P.Participant(n, P.Player, P.Playing, 0, None), n) == Arrived(n + 1)
  {
    hide Below, First;
    var t, u := Q.AddParticipant(Arrived(n), n, P.Participant(n, P.Player, P.Playing, 0, None), n), Arrived(n + 1);
    assert t.participants == u.participants;
    assert t.sessions == u.sessions;
    assert t.presence == u.presence;
  }

  lemma HallArrival(n: nat, o: Options)
    requires 1 <= n < MAX_PLAYERS
    ensures Next(Hall(n), o, PresenceTx(Arrival(n))) == Some(Hall(n + 1))
  {
    hide C.Do, Arrived;
    Arrives(n);
  }

  lemma {:induction false} Arrivals(o: Options, n: nat)
    requires MayFound(o) && 1 <= n <= MAX_PLAYERS
    ensures At(Hall(n), o)
  {
    hide At, Next, Arrived, MayFound;
    if n == 1 {
      FirstArrived();
      Foundation(o);
    } else {
      Arrivals(o, n - 1);
      HallArrival(n - 1, o);
      GoesOn(Hall(n - 1), o, PresenceTx(Arrival(n - 1)));
    }
  }

  lemma FirstArrived()
    ensures Hall(1) == Founded()
  {
    assert Arrived(1) == Founded().world.tables;
  }

  // ---------- connecting ----------

  function GenerationsOf(p: Id, n: nat): seq<P.Generation> {
    if p < n then [Q.AbsentFromJoin(0).(endedAt := Some(0)), Q.ConnectedGeneration(2, 0)] else [Q.AbsentFromJoin(0)]
  }

  /** All 25 have arrived and the first `n` have connected. */
  function Online(n: nat): P.Tables {
    Arrived(MAX_PLAYERS).(presence := map p | p in Below(MAX_PLAYERS) :: GenerationsOf(p, n))
  }

  function Sockets(n: nat): map<Id, C.Socket> {
    map p | p in Below(n) :: C.Socket(p, p, 2)
  }

  predicate Connecting(db: Db, n: nat) {
    && db.world == C.World(Online(n), Sockets(n)) && db.game.None? && db.results == map[] && db.clock == 0 && db.nextId == 1
    && db.pending == Some(Setup(STANDARD_ONE_LINE, Manual))
  }

  lemma Rejoins(n: nat)
    requires n < MAX_PLAYERS
    ensures P.ExpireDue(Online(n), 0) == Online(n) && Q.MayConnect(Online(n), n, n) && Q.Activate(Online(n), n, 0) == Online(n)
  {
    hide P.ExpireDue, Arrived, Below, First;
    ArrivedRows(MAX_PLAYERS);
    NothingDue(Online(n), 0);
    assert Q.Activate(Online(n), n, 0).sessions == Online(n).sessions;
  }

  lemma Counted(n: nat)
    requires n < MAX_PLAYERS
    ensures P.Current(Online(n), n) == Some(Q.AbsentFromJoin(0))
    ensures Q.CountIn(Online(n), n, 0) == (Online(n + 1), 2)
  {
    hide Arrived, Below, First;
    var t := Online(n);
    assert P.OpenIndex([Q.AbsentFromJoin(0)]) == 0;
    var ended := Q.AbsentFromJoin(0).(endedAt := Some(0));
    assert t.presence[n][0 := ended] + [Q.ConnectedGeneration(2, 0)] == GenerationsOf(n, n + 1);
    assert Q.CountIn(t, n, 0).0.presence == Online(n + 1).presence;
  }

  lemma Connects(n: nat)
    requires n < MAX_PLAYERS
    ensures C.Do(C.World(Online(n), Sockets(n)), C.Connect(n, n, n, 0)) == C.World(Online(n + 1), Sockets(n + 1))
    ensures Announced(C.World(Online(n), Sockets(n)), C.Connect(n, n, n, 0)).Some?
  {
    hide P.ExpireDue, Online, Q.Activate, Q.CountIn, Q.MayConnect;
    Rejoins(n);
    Counted(n);
    assert Sockets(n)[n := C.Socket(n, n, 2)] == Sockets(n + 1);
  }

  lemma ConnectsNext(db: Db, o: Options, n: nat)
    requires n < MAX_PLAYERS && Connecting(db, n)
    ensures Next(db, o, PresenceTx(C.Connect(n, n, n, 0))).Some?
    ensures Connecting(Next(db, o, PresenceTx(C.Connect(n, n, n, 0))).value, n + 1)
  {
    hide C.Do, Online, Sockets, Announced;
    Connects(n);
  }

  lemma {:induction false} Connections(o: Options, n: nat) returns (db: Db)
    requires MayFound(o) && n <= MAX_PLAYERS
    ensures At(db, o) && Connecting(db, n)
  {
    hide At, Next, Connecting, MayFound;
    if n == 0 {
      db := Hall(MAX_PLAYERS);
      Arrivals(o, MAX_PLAYERS);
      NobodyConnected();
    } else {
      var before := Connections(o, n - 1);
      var tx := PresenceTx(C.Connect(n - 1, n - 1, n - 1, 0));
      ConnectsNext(before, o, n - 1);
      ConnectIsServed(before, n - 1);
      GoesOn(before, o, tx);
      db := Next(before, o, tx).value;
    }
  }

  lemma ConnectIsServed(db: Db, n: nat)
    requires Connecting(db, n)
    ensures TxOk(db, PresenceTx(C.Connect(n, n, n, 0)))
  {
  }

  lemma NobodyConnected()
    ensures Connecting(Hall(MAX_PLAYERS), 0)
  {
    hide Below, First;
    assert Online(0).presence == Arrived(MAX_PLAYERS).presence;
  }
}
