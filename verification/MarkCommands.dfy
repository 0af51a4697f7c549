/** What marking a ball does, from the reply alone. */
module MarkCommands {

  import opened Common
  import opened Patterns
  import opened Rows
  import opened Games
  import opened Marks
  import opened Lobby
  import opened LobbyInv
  import opened Transactions
  import opened Commands
  import LobbyMarks
  import LW = LobbyWorld

  /** The ball was called and is on the participant's card, and the round is open for marks. */
  predicate MayMark(g: Game, p: Id, ball: nat, now: Time) {
    && g.round.stage in {StageActive, StagePaused, StageWindow}
    && (g.round.stage.StageWindow? ==> g.round.closesAt.Some? && now < g.round.closesAt.value)
    && p in g.cards && ball in g.cards[p].cells && exists c | c in g.calls :: c.ball == ball
  }

  function CurrentPattern(g: Game, o: Options): Option<Pattern> {
    FindPattern(o.catalog, g.round.currentPattern)
  }

  /** The mark is the first to complete the pattern on the card, through a mask with the latest call's cell. */
  predicate Wins(g: Game, pattern: Pattern, p: Id, ball: nat)
    requires p in g.cards
  {
    var card := g.cards[p];
    && (card.id, ball) !in g.marks && !Completed(g, pattern, p) && g.calls != []
    && var cell := IndexOf(card.cells, g.calls[|g.calls| - 1].ball);
       && 0 <= cell && cell != FREE_CELL
       && exists m | m in pattern.masks ::
            Covers(m, View(card.cells, CalledBalls(g.calls)), View(card.cells, MarkedBalls(g.marks, card.id) + {ball})) && m[cell]
  }

  function MarkOf(g: Game, p: Id, ball: nat, now: Time, id: Id): Mark
    requires p in g.cards
  {
    if (g.cards[p].id, ball) in g.marks then g.marks[(g.cards[p].id, ball)] else Mark(id, now)
  }

  /** The round after the mark: the mark stands, and a first winner opens the window. */
  function MarkedGame(g: Game, o: Options, pattern: Pattern, p: Id, ball: nat, now: Time, id: Id): Game
    requires p in g.cards
  {
    var card := g.cards[p];
    var marked := g.(marks := g.marks[(card.id, ball) := MarkOf(g, p, ball, now, id)]);
    if !Wins(g, pattern, p, ball) then marked else
    var call := g.calls[|g.calls| - 1].id;
    var won := marked.(winners := g.winners[p := Winner(card.id, call, now)]);
    if g.round.stage.StageWindow? then won
    else won.(round := g.round.(stage := StageWindow, pausedAt := None, pauseReason := None, nextCallAt := None,
                                trigger := Some(call), openedAt := Some(now), closesAt := Some(now + o.windowMs)))
  }

  predicate Opens(g: Game, pattern: Pattern, p: Id, ball: nat)
    requires p in g.cards
  {
    Wins(g, pattern, p, ball) && !g.round.stage.StageWindow?
  }

  /** Only the opening of the window is published. */
  predicate PublishesMark(db: Db, o: Options, r: Reply, pattern: Pattern, p: Id, cmd: Command, ball: nat, now: Time)
    requires db.game.Some? && p in db.game.value.cards
  {
    var g := db.game.value;
    && r.Acknowledged? && !r.replay && r.occurredAt == now
    && r.db.game == Some(MarkedGame(g, o, pattern, p, ball, now, db.nextId))
    && r.db.world == db.world && r.db.status == db.status && r.db.pending == db.pending
    && r.db.nextId == db.nextId + 1 && r.db.clock == now
    && (p, cmd.id) in r.db.results && r.db.results == db.results[(p, cmd.id) := r.db.results[(p, cmd.id)]]
    && if Opens(g, pattern, p, ball) then
         && r.scope.ActiveLobby? && r.sequence == Some(db.lastSequence + 1) && r.db.lastSequence == db.lastSequence + 1
         && r.db.events == db.events + [Event(db.lastSequence + 1, Some(g.round.id),
                                              WindowPayload(g.calls[|g.calls| - 1].id, now, now + o.windowMs), now)]
       else r.scope.ParticipantPrivate? && r.sequence.None? && r.db.lastSequence == db.lastSequence && r.db.events == db.events
  }

  /** The reply tells of the mark, and where switched on of the one ball that is left to mark. */
  predicate TellsOfMark(g: Game, o: Options, events: seq<PrivateEvent>, pattern: Pattern, p: Id, ball: nat, now: Time, id: Id, commandId: Id)
    requires p in g.cards && WellFormed(pattern)
  {
    var card := g.cards[p];
    var mark := MarkOf(g, p, ball, now, id);
    var near := CalculateProgress(pattern, View(card.cells, CalledBalls(g.calls)),
                                  View(card.cells, MarkedBalls(g.marks, card.id) + {ball})).nearWinCell;
    && (near.Some? ==> near.value < CELL_COUNT)
    && events == [MarkResult(commandId, now, mark.id, card.id, ball, mark.markedAt)]
                 + if o.nearWin && near.Some? then [NearWin(now, card.cells[near.value])] else []
  }

  /** A new mark of somebody with an active session. */
  ghost predicate Asked(db: Db, o: Options, p: Id, session: Id, cmd: Command, env: Env) {
    && Inv(db, o) && db.clock <= env.now && SignedIn(db, p, session) && (p, cmd.id) !in db.results && cmd.action.MarkBall?
  }

  lemma AllowedIsMayMark(g: Game, p: Id, ball: nat, now: Time)
    ensures MarkAllowed(g, p, ball, now) <==> MayMark(g, p, ball, now)
  {
  }

  lemma WinsIsAttributed(g: Game, pattern: Pattern, p: Id, ball: nat)
    requires p in g.cards && WellFormed(pattern)
    ensures AttributionOf(g, pattern, p, ball).Some? <==> Wins(g, pattern, p, ball)
    ensures AttributionOf(g, pattern, p, ball).Some? ==> g.calls != [] && AttributionOf(g, pattern, p, ball).value == g.calls[|g.calls| - 1].id
  {
    hide AttributionOf, Completed, Covers, View, CalledBalls, MarkedBalls, IndexOf;
    AttributionMeaning(g, pattern, p, ball);
  }

  lemma EffectGame(g: Game, o: Options, limit: Id, p: Id, ball: nat, now: Time)
    requires MarkReady(g, o, limit, now, now) && MarkAllowed(g, p, ball, now)
    ensures CurrentPattern(g, o).Some? && WellFormed(CurrentPattern(g, o).value) && p in g.cards
    ensures var pattern := CurrentPattern(g, o).value;
            var c := MarkCard(g, o, p, ball, now, limit);
            && c.Marked? && c.game == MarkedGame(g, o, pattern, p, ball, now, limit) && c.opens == Opens(g, pattern, p, ball)
            && (c.opens ==> c.receipt.attribution == Some(g.calls[|g.calls| - 1].id))
            && c.receipt.mark == MarkOf(g, p, ball, now, limit) && c.receipt.cardId == g.cards[p].id && c.receipt.ball == ball
            && c.receipt.progress == SnapOf(g, pattern, p, ball, o)
            && RequiredBall(g.cards[p].cells, c.receipt.progress) == Some(c.receipt.requiredBall)
  {
    hide GameOk, WinnersComplete, AttributionOf, Wins, MarkCard, SnapOf, RequiredBall, ValidOptions;
    MarkCommits(g, o, limit, now, p, ball, now, limit);
    WinsIsAttributed(g, CurrentPattern(g, o).value, p, ball);
  }

  /** Marking does exactly this, and is refused exactly where the ball may not be marked. */
  lemma MarkMeaning(db: Db, o: Options, p: Id, session: Id, cmd: Command, env: Env)
    requires Asked(db, o, p, session, cmd, env)
    ensures var r := Execute(db, o, p, session, cmd, env);
            if db.game.Some? && MayMark(db.game.value, p, cmd.action.ball, env.now) then
              && CurrentPattern(db.game.value, o).Some? && WellFormed(CurrentPattern(db.game.value, o).value)
              && PublishesMark(db, o, r, CurrentPattern(db.game.value, o).value, p, cmd, cmd.action.ball, env.now)
              && TellsOfMark(db.game.value, o, r.events, CurrentPattern(db.game.value, o).value, p, cmd.action.ball, env.now, db.nextId, cmd.id)
            else r == Refusal(db, env.now)
  {
    hide Inv, Execute, MayMark, PublishesMark, TellsOfMark, MarkAllowed, SignedIn, MarkReady, MarkCard, MarkedGame, MarkOf, SnapOf, RequiredBall, Opens;
    var here := db.(clock := env.now);
    Tick(db, o, env.now);
    TransactionOk(db, o, CommandTx(p, session, cmd, env)) by { PlainMark(db, cmd, env); }
    if db.game.Some? {
      AllowedIsMayMark(db.game.value, p, cmd.action.ball, env.now);
      LobbyMarks.ReadyToMark(here, o);
    }
    if db.game.Some? && MayMark(db.game.value, p, cmd.action.ball, env.now) {
      EffectGame(db.game.value, o, db.nextId, p, cmd.action.ball, env.now);
      assert Described(db, o, p, cmd.action.ball, env.now, MarkCard(db.game.value, o, p, cmd.action.ball, env.now, db.nextId));
      MarkExecuted(db, o, p, session, cmd, env);
    } else {
      MarkRefusedHere(db, o, p, session, cmd, env);
    }
  }

  lemma PlainMark(db: Db, cmd: Command, env: Env)
    requires cmd.action.MarkBall?
    ensures LW.DealFits(db, cmd, env)
  {
  }

  lemma MarkRefusedHere(db: Db, o: Options, p: Id, session: Id, cmd: Command, env: Env)
    requires SignedIn(db, p, session) && (p, cmd.id) !in db.results && cmd.action.MarkBall?
    requires db.game.Some? ==> !MarkAllowed(db.game.value, p, cmd.action.ball, env.now)
    ensures Execute(db, o, p, session, cmd, env) == Refusal(db, env.now)
  {
    hide Commit, Replay, MarkAllowed;
  }

  /** The mark that the code commits is the one described. */
  predicate Described(db: Db, o: Options, p: Id, ball: nat, now: Time, c: MarkChange) {
    && db.game.Some? && c.Marked? && p in db.game.value.cards && CurrentPattern(db.game.value, o).Some?
    && WellFormed(CurrentPattern(db.game.value, o).value)
    && var g := db.game.value;
       var pattern := CurrentPattern(g, o).value;
       && c.game == MarkedGame(g, o, pattern, p, ball, now, db.nextId) && c.opens == Opens(g, pattern, p, ball)
       && (c.opens ==> c.receipt.attribution == Some(g.calls[|g.calls| - 1].id))
       && c.receipt.mark == MarkOf(g, p, ball, now, db.nextId) && c.receipt.cardId == g.cards[p].id && c.receipt.ball == ball
       && c.receipt.progress == SnapOf(g, pattern, p, ball, o)
       && RequiredBall(g.cards[p].cells, c.receipt.progress) == Some(c.receipt.requiredBall)
  }

  function PendingMark(g: Game, o: Options, c: MarkChange, now: Time): Pending
    requires c.Marked? && (c.opens ==> c.receipt.attribution.Some?)
  {
    if c.opens then Public(Some(g.round.id), WindowPayload(c.receipt.attribution.value, now, now + o.windowMs), Some(c.receipt))
    else Private(g.round.id, c.receipt)
  }

  lemma MarkMutates(db: Db, o: Options, p: Id, cmd: Command, env: Env)
    requires cmd.action.MarkBall? && db.game.Some?
    requires var c := MarkCard(db.game.value, o, p, cmd.action.ball, env.now, db.nextId);
             && c.Marked? && p in db.game.value.cards && Known(o.catalog, db.game.value.round.currentPattern)
             && (c.opens ==> c.receipt.attribution.Some?)
    ensures var g := db.game.value;
            var c := MarkCard(g, o, p, cmd.action.ball, env.now, db.nextId);
            var here := db.(clock := env.now);
            Mutate(here, o, p, cmd, env)
            == Done(here.(game := Some(c.game), nextId := db.nextId + 1, log := db.log + [EntryOf(g, o, p, cmd.action.ball, env.now)]),
                    PendingMark(g, o, c, env.now))
  {
    hide MarkCard, EntryOf, Known;
  }

  lemma MarkCommitted(db: Db, o: Options, mid: Db, p: Id, cmd: Command, now: Time, c: MarkChange)
    requires cmd.action.MarkBall? && Described(db, o, p, cmd.action.ball, now, c)
    requires mid == db.(clock := now, game := Some(c.game), nextId := db.nextId + 1, log := mid.log)
    requires !Commit(mid, p, cmd, PendingMark(db.game.value, o, c, now), now).Failed?
    ensures var pattern := CurrentPattern(db.game.value, o).value;
            var r := Commit(mid, p, cmd, PendingMark(db.game.value, o, c, now), now);
            && PublishesMark(db, o, r, pattern, p, cmd, cmd.action.ball, now)
            && TellsOfMark(db.game.value, o, r.events, pattern, p, cmd.action.ball, now, db.nextId, cmd.id)
  {
    hide MarkedGame, Wins, MarkOf, CalculateProgress, ValidPayload, DigestOf, CalledBalls, MarkedBalls, View;
  }

  lemma MarkExecuted(db: Db, o: Options, p: Id, session: Id, cmd: Command, env: Env)
    requires SignedIn(db, p, session) && (p, cmd.id) !in db.results && cmd.action.MarkBall? && db.game.Some?
    requires !Execute(db, o, p, session, cmd, env).Failed?
    requires Described(db, o, p, cmd.action.ball, env.now, MarkCard(db.game.value, o, p, cmd.action.ball, env.now, db.nextId))
    ensures var pattern := CurrentPattern(db.game.value, o).value;
            var r := Execute(db, o, p, session, cmd, env);
            && PublishesMark(db, o, r, pattern, p, cmd, cmd.action.ball, env.now)
            && TellsOfMark(db.game.value, o, r.events, pattern, p, cmd.action.ball, env.now, db.nextId, cmd.id)
  {
    hide MarkCard, Mutate, Commit, PublishesMark, TellsOfMark, Replay, MarkedGame, MarkOf, SnapOf, RequiredBall, Opens, PendingMark;
    var c := MarkCard(db.game.value, o, p, cmd.action.ball, env.now, db.nextId);
    MarkMutates(db, o, p, cmd, env);
    MarkCommitted(db, o, Mutate(db.(clock := env.now), o, p, cmd, env).db, p, cmd, env.now, c);
  }
}
