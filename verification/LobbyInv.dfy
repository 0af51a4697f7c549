/** The invariant of the lobby tables. */
module LobbyInv {

  import opened Common
  import opened Patterns
  import opened Rows
  import opened Games
  import opened Marks
  import opened Lobby
  import M = RoundMachine
  import P = People
  import Q = Presence
  import C = Connections
  import A = Accounting

  // ---------- rows other than results ----------

  /** Events are numbered 1, 2, ... up to the last sequence. */
  predicate EventsOk(db: Db) {
    && |db.events| == db.lastSequence
    && forall i | 0 <= i < |db.events| :: db.events[i].sequence == i + 1
  }

  predicate Hosts(t: P.Tables, host: Id) {
    host in t.participants && forall p | p in t.participants :: t.participants[p].role.Host? <==> p == host
  }

  /** Exactly one participant is the host. */
  ghost predicate HostOk(t: P.Tables) {
    exists host :: Hosts(t, host)
  }

  /** The lobby is active exactly while its round is started and not ended. */
  predicate StatusOk(db: Db) {
    db.status.LobbyActive? <==>
      db.game.Some? && db.game.value.round.stage in {StageActive, StagePaused, StageWindow, StageResult}
  }

  /** Card holders play, everybody present who plays holds a card, and the host holds one. */
  predicate PlayersOk(t: P.Tables, cards: map<Id, Card>) {
    && (forall p | p in cards :: p in t.participants && t.participants[p].eligibility.Playing?)
    && (forall p | p in t.participants && t.participants[p].departedAt.None? && t.participants[p].eligibility.Playing? :: p in cards)
    && (forall p | p in t.participants && t.participants[p].role.Host? :: p in cards)
  }

  /** Before the first round everybody plays and the setup is complete. */
  predicate RoundlessOk(db: Db, o: Options) {
    && db.pending.Some? && ValidConfig(db.pending.value.config) && Known(o.catalog, db.pending.value.pattern)
    && forall p | p in Tables(db).participants :: Tables(db).participants[p].eligibility.Playing?
  }

  ghost predicate RowsOk(db: Db, o: Options) {
    && A.Accounted(db.world)
    && HostOk(Tables(db))
    && EventsOk(db)
    && StatusOk(db)
    && (db.game.None? ==> RoundlessOk(db, o))
    && (db.game.Some? ==> RoundRowsOk(db, o))
  }

  ghost predicate RoundRowsOk(db: Db, o: Options)
    requires db.game.Some?
  {
    && GameOk(db.game.value, o, db.nextId, db.clock)
    && WinnersComplete(db.game.value, o.catalog)
    && PlayersOk(Tables(db), db.game.value.cards)
  }

  // ---------- command results ----------

  predicate FormatOk(k: (Id, Id), r: Result, lastSequence: nat, clock: Time) {
    && r.body.intent.id == k.1
    && r.createdAt <= clock
    && r.format in {1, 3, 4}
    && (r.scope == ActiveLobby <==> r.sequence.Some?)
    && (r.sequence.Some? ==> r.sequence.value <= lastSequence)
    && (r.format == 3 <==> r.scope == ParticipantPrivate)
    && (r.format == 1 || r.roundId.None? ==>
          r.integrity.None? && r.body.progress.None? && r.body.events == [] && r.body.attribution.None?)
  }

  /** A stored mark agrees with the card, the mark and the calls that are still there. */
  predicate RecordOk(g: Game, k: (Id, Id), r: Result) {
    && r.roundId == Some(g.round.id)
    && r.integrity == Some(DigestOf(k, g.round.id, r))
    && r.body.intent.action.MarkBall?
    && r.body.progress.Some? && ProgressParses(r.body.progress.value)
    && k.0 in g.cards
    && EventsAgree(r, g.cards[k.0], k.1)
    && MarkStands(g, r, g.cards[k.0])
  }

  predicate EventsAgree(r: Result, card: Card, commandId: Id) {
    && r.body.progress.Some? && WellFormed(r.body.progress.value.pattern)
    && var required := RequiredBall(card.cells, r.body.progress.value);
       && required.Some?
       && (required.value.Some? ==> required.value.value in card.cells)
       && 1 <= |r.body.events| <= 2
       && r.body.events[0].MarkResult?
       && r.body.events[0].commandId == commandId && r.body.events[0].occurredAt == r.createdAt
       && r.body.events[0].cardId == card.id
       && r.body.intent.action.MarkBall? && r.body.events[0].ball == r.body.intent.action.ball
       && (|r.body.events| == 2 <==> r.body.progress.value.nearWin && required.value.Some?)
       && (|r.body.events| == 2 ==> r.body.events[1] == NearWin(r.createdAt, required.value.value))
  }

  predicate MarkStands(g: Game, r: Result, card: Card) {
    && r.body.events != [] && r.body.events[0].MarkResult? && r.body.progress.Some?
    && var e := r.body.events[0];
       && e.ball in card.cells
       && (card.id, e.ball) in g.marks && g.marks[(card.id, e.ball)] == Mark(e.markId, e.markedAt)
       && WithinState(r.body.progress.value, card.cells, CalledBalls(g.calls), MarkedBalls(g.marks, card.id))
  }

  predicate ResultOk(game: Option<Game>, k: (Id, Id), r: Result, lastSequence: nat, clock: Time) {
    && FormatOk(k, r, lastSequence, clock)
    && (r.roundId.Some? ==> game.Some? && game.value.round.id == r.roundId.value)
    && (r.roundId.Some? && r.format != 1 ==> RecordOk(game.value, k, r))
  }

  predicate ResultsOk(db: Db) {
    forall k | k in db.results :: ResultOk(db.game, k, db.results[k], db.lastSequence, db.clock)
  }

  // ---------- stored wins ----------

  predicate Attributed(results: map<(Id, Id), Result>, round: Id, k: (Id, Id)) {
    k in results && results[k].roundId == Some(round) && results[k].body.attribution.Some?
  }

  predicate SamePattern(r: Result, s: Result) {
    r.body.progress.Some? && s.body.progress.Some? && r.body.progress.value.pattern.id == s.body.progress.value.pattern.id
  }

  /** A stored win names the catalogue's pattern, which its card completes, and in a One Line stage it is the current one. */
  predicate ContextOk(g: Game, catalog: seq<Pattern>, k: (Id, Id), r: Result) {
    && r.body.progress.Some?
    && var p := r.body.progress.value.pattern;
       && FindPattern(catalog, p.id) == Some(p)
       && Completed(g, p, k.0)
       && (Known(catalog, g.round.currentPattern) && ModeOf(catalog, g.round.currentPattern) == OneLine ==>
             p.id == g.round.currentPattern)
  }

  /** Exactly one stored win is the one that made `p` a winner. */
  predicate BackedBy(g: Game, results: map<(Id, Id), Result>, catalog: seq<Pattern>, p: Id, k: (Id, Id)) {
    && p in g.winners
    && Attributed(results, g.round.id, k) && k.0 == p
    && Matches(results[k], g.winners[p])
    && (|| OnPattern(results[k], g.round.currentPattern)
        || (Known(catalog, g.round.currentPattern) && ModeOf(catalog, g.round.currentPattern) == Blackout)
        || Contexts(results, g.round.id, p) == {k})
  }

  ghost predicate Backed(g: Game, results: map<(Id, Id), Result>, catalog: seq<Pattern>, p: Id) {
    exists k :: BackedBy(g, results, catalog, p, k)
  }

  /** A participant has at most one stored win per pattern. */
  predicate DistinctWins(results: map<(Id, Id), Result>, round: Id) {
    forall k, l | Attributed(results, round, k) && Attributed(results, round, l) && k.0 == l.0
      && k in results && l in results && SamePattern(results[k], results[l]) :: k == l
  }

  ghost predicate WinsOk(g: Game, results: map<(Id, Id), Result>, catalog: seq<Pattern>) {
    && (forall k | k in results && Attributed(results, g.round.id, k) :: ContextOk(g, catalog, k, results[k]))
    && DistinctWins(results, g.round.id)
    && (forall p | p in g.winners :: Backed(g, results, catalog, p))
  }

  // ---------- the history of marks ----------

  /** The mark took the card from incomplete to complete, and the latest call is in a mask it completed. */
  predicate FirstCompletion(e: Entry) {
    && e.isNew
    && !Completes(e.pattern, View(e.cells, e.called), View(e.cells, e.prior))
    && Completes(e.pattern, View(e.cells, e.called), View(e.cells, e.prior + {e.ball}))
  }

  predicate OnLatestCall(e: Entry) {
    && e.latest.Some?
    && var i := IndexOf(e.cells, e.latest.value.ball);
       && 0 <= i < CELL_COUNT && i != FREE_CELL
       && exists m | m in e.pattern.masks ::
            Covers(m, View(e.cells, e.called), View(e.cells, e.prior + {e.ball})) && m[i]
  }

  predicate WinningEntry(g: Game, e: Entry) {
    e.round == g.round.id && e.pattern.id == g.round.currentPattern && FirstCompletion(e) && OnLatestCall(e)
  }

  function Achievers(g: Game, log: seq<Entry>): set<Id> {
    set e | e in log && WinningEntry(g, e) :: e.participant
  }

  predicate InWindow(g: Game, e: Entry) {
    && e.latest.Some? && g.round.trigger == Some(e.latest.value.id)
    && g.round.openedAt.Some? && g.round.closesAt.Some? && g.round.openedAt.value <= e.at < g.round.closesAt.value
  }

  /** Patterns of earlier marks precede the current one in the order of modes. */
  predicate EntryOk(g: Game, catalog: seq<Pattern>, e: Entry) {
    e.round == g.round.id && Known(catalog, g.round.currentPattern) ==>
      && FindPattern(catalog, e.pattern.id) == Some(e.pattern)
      && M.ModeRank(e.pattern.mode) <= M.ModeRank(ModeOf(catalog, g.round.currentPattern))
      && !g.round.stage.StageWaiting?
  }

  /** While the round can be won, the winners are exactly those with a winning mark of the current pattern, all of them inside the window. */
  predicate LogOk(g: Game, log: seq<Entry>, catalog: seq<Pattern>) {
    && (forall e | e in log :: EntryOk(g, catalog, e))
    && (g.round.stage in {StageActive, StagePaused, StageWindow} ==>
          && g.winners.Keys == Achievers(g, log)
          && forall e | e in log && WinningEntry(g, e) :: InWindow(g, e))
  }

  ghost predicate Inv(db: Db, o: Options) {
    && ValidOptions(o)
    && RowsOk(db, o)
    && ResultsOk(db)
    && (forall e | e in db.log :: e.round < db.nextId)
    && (db.game.Some? ==> WinsOk(db.game.value, db.results, o.catalog) && LogOk(db.game.value, db.log, o.catalog))
  }

  // ---------- the first state ----------

  /** The tables that creating a lobby with its host leaves. */
  function NewLobby(host: Id, session: Id, username: nat, setup: Setup, at: Time, nextId: Id): Db {
    Db(LobbyWaiting, Some(setup), 0, [],
       C.World(Q.AddParticipant(P.Tables(map[], map[], map[]), host,
                                P.Participant(username, P.Host, P.Playing, at, None), session), map[]),
       None, map[], [], nextId, at)
  }

  lemma NewLobbyOk(host: Id, session: Id, username: nat, setup: Setup, at: Time, nextId: Id, o: Options)
    requires ValidOptions(o) && ValidConfig(setup.config) && Known(o.catalog, setup.pattern)
    ensures Inv(NewLobby(host, session, username, setup, at, nextId), o)
  {
    var db := NewLobby(host, session, username, setup, at, nextId);
    var empty := P.Tables(map[], map[], map[]);
    C.AddParticipantKeeps(empty, host, P.Participant(username, P.Host, P.Playing, at, None), session);
    assert Q.Newest(Tables(db), host).status.Absent?;
    assert Hosts(Tables(db), host);
  }

  /** The clock moves on. */
  lemma Tick(db: Db, o: Options, now: Time)
    requires Inv(db, o) && db.clock <= now
    ensures Inv(db.(clock := now), o)
  {
    hide A.Accounted, HostOk, WinnersComplete, PlayersOk, WinsOk, LogOk, RecordOk, GameOk;
    if db.game.Some? {
      LaterClock(db.game.value, o, db.nextId, db.clock, db.nextId, now);
    }
  }
}
