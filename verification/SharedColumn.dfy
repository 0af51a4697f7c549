/** The round of that run: a deal of different cards that share the middle column, whose four balls are called. */
module SharedColumn {

  import opened Common
  import opened Patterns
  import opened Rows
  import opened Games
  import opened Lobby
  import opened LobbyWorld
  import opened Transactions
  import opened Gathering
  import Replays
  import P = People
  import C = Connections

  // ---------- the deal ----------

  const COLUMN_BALLS := 4
  const FIRST_BALL := 31

  /** Row `row` of a column: a rotation of the first column by the participant, of the second by every 15 of them. */
  function ValueAt(p: Id, column: nat, row: nat): nat
    requires p < MAX_PLAYERS && column < 5 && row < 5
  {
    var shift := if column == 0 then (if p < 15 then p else p - 15) else if column == 1 && p >= 15 then 1 else 0;
    var place := if column == 2 && row > 2 then row - 1 else shift + row;
    column * 15 + 1 + if place < 15 then place else place - 15
  }

  function CardOf(p: Id): Cells
    requires p < MAX_PLAYERS
  {
    seq(CELL_COUNT, i requires 0 <= i < CELL_COUNT => if i == FREE_CELL then 0 else ValueAt(p, i % 5, i / 5))
  }

  lemma CardRows(p: Id, i: nat, j: nat)
    requires p < MAX_PLAYERS && i < j < CELL_COUNT
    ensures i != FREE_CELL ==> i % 5 * 15 + 1 <= CardOf(p)[i] <= i % 5 * 15 + 15
    ensures j != FREE_CELL ==> j % 5 * 15 + 1 <= CardOf(p)[j] <= j % 5 * 15 + 15
    ensures CardOf(p)[i] != CardOf(p)[j]
  {
  }

  lemma CardIsValid(p: Id)
    requires p < MAX_PLAYERS
    ensures ValidCells(CardOf(p))
  {
    hide CardOf;
    assert CardOf(p)[FREE_CELL] == 0 by { FreeIsFree(p); }
    forall i, j | 0 <= i < j < CELL_COUNT ensures CardOf(p)[i] != CardOf(p)[j] { CardRows(p, i, j); }
    forall i | 0 <= i < CELL_COUNT && i != FREE_CELL ensures i % 5 * 15 + 1 <= CardOf(p)[i] <= i % 5 * 15 + 15 {
      if i == 0 { CardRows(p, 0, 1); } else { CardRows(p, 0, i); }
    }
  }

  lemma FreeIsFree(p: Id)
    requires p < MAX_PLAYERS
    ensures CardOf(p)[FREE_CELL] == 0
  {
  }

  lemma CardsDiffer(p: Id, q: Id)
    requires p < MAX_PLAYERS && q < MAX_PLAYERS && p != q
    ensures CardOf(p) != CardOf(q)
  {
    assert CardOf(p)[0] == ValueAt(p, 0, 0) && CardOf(q)[0] == ValueAt(q, 0, 0);
    assert CardOf(p)[1] == ValueAt(p, 1, 0) && CardOf(q)[1] == ValueAt(q, 1, 0);
  }

  /** The middle column first. */
  function Draw(): seq<nat> {
    seq(BALL_COUNT, i requires 0 <= i < BALL_COUNT => if i < 45 then FIRST_BALL + i else i - 44)
  }

  function CardId(p: Id): Id {
    p + 2
  }

  function TheDeal(): Deal {
    Deal(map p | p in Below(MAX_PLAYERS) :: Card(CardId(p), CardOf(p)), Draw(), MAX_PLAYERS + 2)
  }

  lemma DealHolds()
    ensures ValidDeal(TheDeal(), Below(MAX_PLAYERS), 1) && DifferentCards(TheDeal().cards)
  {
    hide ValidCells, CardOf, Below;
    DrawHolds();
    forall p | p in TheDeal().cards ensures ValidCells(TheDeal().cards[p].cells) { CardIsValid(p); }
    forall p, q | p in TheDeal().cards && q in TheDeal().cards && p != q
      ensures TheDeal().cards[p].cells != TheDeal().cards[q].cells
    {
      CardsDiffer(p, q);
    }
  }

  lemma DrawHolds()
    ensures DrawOk(Draw())
  {
  }

  // ---------- commands ----------

  /** Everybody still has the session and socket of the beginning. */
  predicate Seated(db: Db) {
    db.world == C.World(Online(MAX_PLAYERS), Sockets(MAX_PLAYERS))
  }

  predicate Unused(db: Db, id: Id) {
    forall k | k in db.results :: k.1 < id
  }

  function EnvAt(now: Time): Env {
    Env(now, TheDeal())
  }

  function Order(p: Id, id: Id, action: Action, now: Time): Tx {
    CommandTx(p, p, Command(id, action), EnvAt(now))
  }

  predicate Plain(p: Id, action: Action) {
    p < MAX_PLAYERS && !action.Configure? && !action.CreateRound? && (action.MarkBall? || p == 0)
  }

  lemma SeatedRows(db: Db, p: Id)
    requires Seated(db) && p < MAX_PLAYERS
    ensures Authenticated(db, p, p) && (p == 0 ==> Tables(db).participants[p].role.Host?)
  {
    hide Below;
  }

  lemma ResultsKept(db: Db, o: Options, p: Id, cmd: Command, now: Time)
    requires Plain(p, cmd.action) && db.clock == now
    ensures var m := Mutate(db, o, p, cmd, EnvAt(now)); !m.Fault? ==> m.db.results == db.results
  {
    hide MarkMutation, TheDeal;
    if cmd.action.MarkBall? {
      if db.game.Some? { Replays.MarkResults(db, o, p, cmd.action.ball, now); }
    } else {
      Replays.OtherResults(db, o, p, cmd, EnvAt(now));
    }
  }

  lemma CommitRows(db: Db, p: Id, cmd: Command, pending: Pending, now: Time)
    ensures var r := Commit(db, p, cmd, pending, now);
            && (r.Acknowledged? || r.Failed?)
            && (r.Acknowledged? ==>
                  r.db.game == db.game && r.db.world == db.world && r.db.results.Keys == db.results.Keys + {(p, cmd.id)})
  {
    hide ValidPayload, ResultRow;
  }

  /** A command that is not refused commits what it does. */
  lemma Commits(db: Db, o: Options, p: Id, id: Id, action: Action, now: Time)
    requires At(db, o) && Seated(db) && Unused(db, id) && Plain(p, action) && db.clock <= now
    requires DealFits(db, Command(id, action), EnvAt(now))
    requires !Mutate(db.(clock := now), o, p, Command(id, action), EnvAt(now)).Refused?
    ensures var m := Mutate(db.(clock := now), o, p, Command(id, action), EnvAt(now));
            var next := Next(db, o, Order(p, id, action, now));
            && m.Done? && next.Some? && At(next.value, o)
            && next.value.game == m.db.game && next.value.world == m.db.world && Unused(next.value, id + 1) && next.value.clock == now
  {
    hide At, TxOk, Next, DealFits, Mutate, Commit, Authenticated, TheDeal, Online, Sockets, Served;
    var here := db.(clock := now);
    var cmd := Command(id, action);
    OrderIsFine(db, o, p, id, action, now);
    GoesOn(db, o, Order(p, id, action, now));
    SeatedRows(here, p);
    ResultsKept(here, o, p, cmd, now);
    Executed(db, o, p, id, action, now);
    var m := Mutate(here, o, p, cmd, EnvAt(now));
    if m.Done? { CommitRows(m.db, p, cmd, m.pending, now); }
  }

  lemma OrderIsFine(db: Db, o: Options, p: Id, id: Id, action: Action, now: Time)
    requires Plain(p, action) && db.clock <= now && DealFits(db, Command(id, action), EnvAt(now))
    ensures TxOk(db, Order(p, id, action, now)) && Served(Order(p, id, action, now))
  {
    hide DealFits, TheDeal, DifferentCards;
    DealIsServed();
  }

  lemma Executed(db: Db, o: Options, p: Id, id: Id, action: Action, now: Time)
    requires Plain(p, action) && (p, id) !in db.results
    requires Authenticated(db.(clock := now), p, p) && (p == 0 ==> Tables(db).participants[p].role.Host?)
    ensures Next(db, o, Order(p, id, action, now))
            == AfterReply(match Mutate(db.(clock := now), o, p, Command(id, action), EnvAt(now))
                          case Fault => Failed
                          case Refused(after) => Rejected(after, InvalidCommand)
                          case Done(after, pending) => Commit(after, p, Command(id, action), pending, now))
  {
    hide Mutate, Commit, TheDeal, Replay;
  }

  lemma DealIsServed()
    ensures DifferentCards(TheDeal().cards)
  {
    hide TheDeal, ValidDeal, DifferentCards;
    DealHolds();
  }

  // ---------- start and calls ----------

  /** The round is on, and the first `n` balls were called. */
  predicate Calling(db: Db, n: nat) {
    && Seated(db) && db.game.Some?
    && var g := db.game.value;
       && Dealt(g) && g.round.stage.StageActive? && |g.calls| == n && g.marks == map[] && g.winners == map[]
  }

  predicate Dealt(g: Game) {
    && g.cards == TheDeal().cards && g.draw == Draw() && g.round.id == 1
    && g.round.initialPattern == g.round.currentPattern == STANDARD_ONE_LINE
  }

  lemma Playing(t: P.Tables)
    requires t == Online(MAX_PLAYERS)
    ensures PlayerIds(t) == Below(MAX_PLAYERS) && |PlayerIds(t)| == MAX_PLAYERS
    ensures forall k | k in t.sessions :: t.sessions[k] == SessionOf(k)
    ensures forall now :: P.ExpireDue(t, now) == t
  {
    hide Below, P.ExpireDue;
    BelowCount(MAX_PLAYERS);
    forall now ensures P.ExpireDue(t, now) == t { NothingDue(t, now); }
  }

  lemma Starts(o: Options) returns (db: Db)
    requires MayFound(o)
    ensures At(db, o) && Calling(db, 0) && Unused(db, 1) && db.clock == 1000
  {
    hide At, Connecting, Mutate, MayFound, TheDeal, DealFits, Seated, Calling;
    var before := Connections(o, MAX_PLAYERS);
    ConnectedRows(before);
    StartFits(before);
    StartDone(before, o);
    Commits(before, o, 0, 0, StartRound, 1000);
    db := Next(before, o, Order(0, 0, StartRound, 1000)).value;
    StartedRows(before, o, db);
  }

  lemma ConnectedRows(db: Db)
    requires Connecting(db, MAX_PLAYERS)
    ensures Seated(db) && Unused(db, 0) && db.clock == 0 && db.game.None?
  {
  }

  lemma StartFits(db: Db)
    requires Connecting(db, MAX_PLAYERS)
    ensures DealFits(db, Command(0, StartRound), EnvAt(1000))
  {
    hide TheDeal, ValidDeal, Online, Below, P.ExpireDue;
    DealHolds();
    Playing(Tables(db));
  }

  lemma StartDone(db: Db, o: Options)
    requires Connecting(db, MAX_PLAYERS) && MayFound(o)
    ensures var m := Mutate(db.(clock := 1000), o, 0, Command(0, StartRound), EnvAt(1000));
            !m.Refused? && (m.Done? ==>
              && m.db.world == db.world
              && m.db.game == Some(NewGame(1, Setup(STANDARD_ONE_LINE, Manual), TheDeal(),
                                           StartRow(WaitingRow(1, STANDARD_ONE_LINE, Manual, 1000), 1000))))
  {
    hide TheDeal, Online, Below, P.ExpireDue, Publish, PlayerIds, ValidOptions;
    Playing(Tables(db));
  }

  lemma StartedRows(before: Db, o: Options, db: Db)
    requires Connecting(before, MAX_PLAYERS) && MayFound(o)
    requires var m := Mutate(before.(clock := 1000), o, 0, Command(0, StartRound), EnvAt(1000));
             m.Done? && db.game == m.db.game && db.world == m.db.world
    ensures Calling(db, 0)
  {
    hide Mutate, TheDeal, Online, MayFound, Draw;
    StartDone(before, o);
    assert TheDeal().draw == Draw() by { DrawOfDeal(); }
  }

  lemma DrawOfDeal()
    ensures TheDeal().draw == Draw() && TheDeal().cards.Keys == Below(MAX_PLAYERS)
    ensures forall p: Id | p < MAX_PLAYERS :: p in TheDeal().cards && TheDeal().cards[p] == Card(CardId(p), CardOf(p))
  {
    hide Draw, CardOf, Below;
  }

  lemma NobodyBlocks(now: Time)
    ensures !HasBlockingPresence(Online(MAX_PLAYERS), now)
  {
    hide Below, Arrived;
    var t := Online(MAX_PLAYERS);
    forall p | p in t.participants ensures !Blocks(t, p, now) {
      assert t.presence[p] == GenerationsOf(p, MAX_PLAYERS) by { ArrivedRows(MAX_PLAYERS); }
      assert P.OpenIndex(t.presence[p]) == 1;
    }
  }

  lemma CallDone(db: Db, o: Options, n: nat)
    requires Calling(db, n) && n < COLUMN_BALLS
    ensures var m := Mutate(db.(clock := 2000), o, 0, Command(n + 1, CallNext), EnvAt(2000));
            m.Done? && Calling(m.db, n + 1)
  {
    hide HasBlockingPresence, Online, TheDeal;
    NobodyBlocks(2000);
  }

  lemma {:induction false} Calls(o: Options, n: nat) returns (db: Db)
    requires MayFound(o) && n <= COLUMN_BALLS
    ensures At(db, o) && Calling(db, n) && Unused(db, n + 1) && db.clock <= 2000
  {
    hide At, Calling, Mutate, MayFound, TheDeal, Seated;
    if n == 0 {
      db := Starts(o);
    } else {
      var before := Calls(o, n - 1);
      CallDone(before, o, n - 1);
      assert Seated(before) by { CallingIsSeated(before, n - 1); }
      Commits(before, o, 0, n, CallNext, 2000);
      db := Next(before, o, Order(0, n, CallNext, 2000)).value;
      SameCalling(Mutate(before.(clock := 2000), o, 0, Command(n, CallNext), EnvAt(2000)).db, db, n);
    }
  }

  lemma CallingIsSeated(db: Db, n: nat)
    requires Calling(db, n)
    ensures Seated(db)
  {
  }

  lemma SameCalling(db: Db, next: Db, n: nat)
    requires Calling(db, n) && next.game == db.game && next.world == db.world
    ensures Calling(next, n)
  {
  }
}
