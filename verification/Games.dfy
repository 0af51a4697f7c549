/** The round commands on the rows of one round, and the invariant every one of them keeps. */
module Games {

  import opened Common
  import opened Patterns
  import opened Rows
  import M = RoundMachine

  datatype Options = Options(catalog: seq<Pattern>, nearWin: bool, windowMs: nat)

  predicate ValidOptions(o: Options) {
    ValidCatalog(o.catalog) && o.windowMs >= 1
  }

  // ---------- steps ----------

  datatype CallChange = Called(game: Game, call: Call) | Exhausted | CallFault

  /** Commits the next draw position as a call. */
  function CommitCall(g: Game, now: Time, id: Id): CallChange {
    var n := |g.calls|;
    if n > BALL_COUNT then CallFault
    else if n == BALL_COUNT then Exhausted
    else if n >= |g.draw| then CallFault else
    var call := Call(id, n + 1, g.draw[n], now);
    var next := if n + 1 == |g.draw| then None else NextAutomaticCall(g.round.config, now);
    Called(g.(calls := g.calls + [call], round := g.round.(nextCallAt := next)), call)
  }

  datatype Snap = Snap(pattern: Pattern, called: CellSet, marked: CellSet, nearWin: bool)

  /** What one committed mark leaves for the private events and for winner attribution. */
  datatype Receipt = Receipt(
    cardId: Id,
    ball: nat,
    mark: Mark,
    progress: Snap,
    requiredBall: Option<nat>,
    attribution: Option<Id>)

  datatype MarkChange = Marked(game: Game, receipt: Receipt, opens: bool) | MarkRefused | MarkFault

  predicate MarkAllowed(g: Game, participant: Id, ball: nat, now: Time) {
    && (g.round.stage.StageActive? || g.round.stage.StagePaused? || g.round.stage.StageWindow?)
    && (g.round.stage.StageWindow? ==> g.round.closesAt.Some? && now < g.round.closesAt.value)
    && participant in g.cards
    && ball in g.cards[participant].cells
    && ball in CalledBalls(g.calls)
  }

  function KeyOf(g: Game, participant: Id, ball: nat): (Id, nat)
    requires participant in g.cards
  {
    (g.cards[participant].id, ball)
  }

  /** The call that this mark wins on, if it completes the pattern for the first time through the latest call. */
  function AttributionOf(g: Game, pattern: Pattern, participant: Id, ball: nat): Option<Id>
    requires participant in g.cards && WellFormed(pattern)
  {
    var card := g.cards[participant];
    var prior := MarkedBalls(g.marks, card.id);
    var called := View(card.cells, CalledBalls(g.calls));
    var marked := View(card.cells, prior + {ball});
    var latest := LatestCall(g.calls);
    if && KeyOf(g, participant, ball) !in g.marks
       && !CalculateProgress(pattern, called, View(card.cells, prior)).complete
       && CalculateProgress(pattern, called, marked).complete
       && latest.Some?
       && Attributable(pattern, called, marked, View(card.cells, prior), IndexOf(card.cells, latest.value.ball))
    then Some(latest.value.id) else None
  }

  function SnapOf(g: Game, pattern: Pattern, participant: Id, ball: nat, o: Options): Snap
    requires participant in g.cards
  {
    var card := g.cards[participant];
    Snap(pattern, View(card.cells, CalledBalls(g.calls)),
         View(card.cells, MarkedBalls(g.marks, card.id) + {ball}), o.nearWin)
  }

  /** None where the canonical near-win cell is the free cell, which throws. */
  function RequiredBall(cells: Cells, snap: Snap): Option<Option<nat>>
    requires WellFormed(snap.pattern)
  {
    var near := CalculateProgress(snap.pattern, snap.called, snap.marked).nearWinCell;
    if near.None? then Some(None)
    else if near.value >= CELL_COUNT || cells[near.value] == 0 then None
    else Some(Some(cells[near.value]))
  }

  function MarkCard(g: Game, o: Options, participant: Id, ball: nat, now: Time, id: Id): MarkChange {
    if !MarkAllowed(g, participant, ball, now) then MarkRefused else
    if !Known(o.catalog, g.round.currentPattern) then MarkFault else
    var pattern := FindPattern(o.catalog, g.round.currentPattern).value;
    if !WellFormed(pattern) then MarkFault else
    var card := g.cards[participant];
    var key := (card.id, ball);
    var mark := if key in g.marks then g.marks[key] else Mark(id, now);
    var snap := SnapOf(g, pattern, participant, ball, o);
    var required := RequiredBall(card.cells, snap);
    if required.None? then MarkFault else
    var won := AttributionOf(g, pattern, participant, ball);
    var marked := g.(marks := g.marks[key := mark]);
    if won.Some? && !g.round.stage.StageWindow? then
      var closesAt := now + o.windowMs;
      match Decide(g.round, o.catalog, M.OpenWindow(now, closesAt))
      case Threw => MarkFault
      case Declined => MarkFault  // never taken, and there the mark would outlive the refusal
      case Accepted =>
        if participant in g.winners then MarkFault else
        Marked(marked.(winners := g.winners[participant := Winner(card.id, won.value, now)],
                       round := WindowRow(g.round, won.value, now, closesAt)),
               Receipt(card.id, ball, mark, snap, required.value, won), true)
    else if won.Some? && g.round.trigger == won then
      if participant in g.winners then MarkFault else
      Marked(marked.(winners := g.winners[participant := Winner(card.id, won.value, now)]),
             Receipt(card.id, ball, mark, snap, required.value, won), false)
    else
      Marked(marked, Receipt(card.id, ball, mark, snap, required.value, None), false)
  }

  // ---------- the invariant ----------

  predicate DrawOk(draw: seq<nat>) {
    && |draw| == BALL_COUNT
    && (forall i | 0 <= i < BALL_COUNT :: 1 <= draw[i] <= BALL_COUNT)
    && (forall i, j | 0 <= i < j < BALL_COUNT :: draw[i] != draw[j])
  }

  predicate CardsOk(cards: map<Id, Card>, limit: Id) {
    && 1 <= |cards| <= MAX_PLAYERS
    && (forall p | p in cards :: ValidCells(cards[p].cells) && cards[p].id < limit)
    && (forall p, q | p in cards && q in cards && p != q :: cards[p].id != cards[q].id)
  }

  /** The calls are the first draw positions, in order. */
  predicate CallsOk(draw: seq<nat>, calls: seq<Call>, limit: Id, clock: Time) {
    && |calls| <= |draw|
    && (forall i | 0 <= i < |calls| ::
          && calls[i].ball == draw[i] && calls[i].position == i + 1
          && calls[i].id < limit && calls[i].calledAt <= clock)
    && (forall i, j | 0 <= i < j < |calls| :: calls[i].id != calls[j].id)
  }

  predicate HoldsBall(cards: map<Id, Card>, key: (Id, nat)) {
    exists p | p in cards :: cards[p].id == key.0 && key.1 in cards[p].cells
  }

  /** Every mark is a called ball on its own card. */
  predicate MarksOk(g: Game, limit: Id, clock: Time) {
    && (forall k | k in g.marks ::
          && k.1 != 0 && k.1 in CalledBalls(g.calls) && HoldsBall(g.cards, k)
          && g.marks[k].id < limit && g.marks[k].markedAt <= clock)
    && (forall k, l | k in g.marks && l in g.marks && k != l :: g.marks[k].id != g.marks[l].id)
  }

  predicate Past(t: Option<Time>, clock: Time) {
    t.Some? && t.value <= clock
  }

  predicate WindowSet(r: Round, clock: Time) {
    r.trigger.Some? && Past(r.openedAt, clock) && r.closesAt.Some? && r.openedAt.value < r.closesAt.value
  }

  predicate WindowUnset(r: Round) {
    r.trigger.None? && r.openedAt.None? && r.closesAt.None? && r.settledAt.None?
  }

  /** Which columns a stage fills in. */
  predicate StageShape(r: Round, clock: Time) {
    && r.createdAt <= clock
    && (r.stage.StageWaiting? <==> r.startedAt.None?)
    && (r.stage.StageWaiting? ==> r.activeAt.None? && r.nextCallAt.None?)
    && (!r.stage.StageWaiting? ==> Past(r.startedAt, clock) && Past(r.activeAt, clock))
    && (r.stage.StagePaused? ==> Past(r.pausedAt, clock) && r.pauseReason.Some?)
    && (r.stage in {StageWaiting, StageActive, StagePaused} ==> WindowUnset(r))
    && (r.stage in {StageWindow, StageResult} ==> WindowSet(r, clock))
    && (r.stage.StageResult? ==> Past(r.settledAt, clock) && r.closesAt.value <= r.settledAt.value)
    && (r.stage.StageEnded? ==> Past(r.endedAt, clock))
    && (r.stage.StageEnded? && r.trigger.Some? ==>
          WindowSet(r, clock) && Past(r.settledAt, clock) && r.closesAt.value <= r.settledAt.value)
  }

  /** A deadline is armed only in an active automatic round, a full interval after the activation. */
  predicate DeadlineOk(r: Round) {
    r.nextCallAt.Some? ==>
      && r.stage.StageActive? && r.config.Automatic?
      && (r.activeAt.Some? ==> r.nextCallAt.value >= r.activeAt.value + r.config.seconds * 1000)
  }

  predicate DeadlineAfterCalls(g: Game) {
    g.round.nextCallAt.Some? && g.round.config.Automatic? ==>
      forall i | 0 <= i < |g.calls| :: g.round.nextCallAt.value >= g.calls[i].calledAt + g.round.config.seconds * 1000
  }

  predicate RowOk(r: Round, catalog: seq<Pattern>, clock: Time) {
    && ValidConfig(r.config)
    && Known(catalog, r.initialPattern)
    && Known(catalog, r.currentPattern)
    && M.ModeReachable(ModeOf(catalog, r.initialPattern), ModeOf(catalog, r.currentPattern))
    && StageShape(r, clock)
    && DeadlineOk(r)
  }

  /** Winners exist exactly while a window or its result stands, and all won on the latest call. */
  predicate WinnersOk(g: Game) {
    && (g.winners == map[] <==> g.round.trigger.None?)
    && (g.round.trigger.Some? ==>
          LatestCall(g.calls).Some? && LatestCall(g.calls).value.id == g.round.trigger.value)
    && (forall p | p in g.winners ::
          && p in g.cards && g.winners[p].cardId == g.cards[p].id
          && Some(g.winners[p].trigger) == g.round.trigger)
  }

  predicate GameOk(g: Game, o: Options, limit: Id, clock: Time) {
    && DrawOk(g.draw)
    && CardsOk(g.cards, limit)
    && CallsOk(g.draw, g.calls, limit, clock)
    && MarksOk(g, limit, clock)
    && RowOk(g.round, o.catalog, clock)
    && WinnersOk(g)
    && DeadlineAfterCalls(g)
    && (g.round.stage.StageWaiting? ==> g.calls == [])
    && g.round.id < limit
  }

  // ---------- consequences ----------

  /** The row of a good round converts, and no transition at or after the clock throws. */
  lemma RowDecides(r: Round, catalog: seq<Pattern>, clock: Time, c: M.Command)
    requires RowOk(r, catalog, clock)
    requires c.at >= clock
    requires c.OpenWindow? ==> c.closesAt > c.at
    ensures ToDomain(r, catalog).Some?
    ensures Decide(r, catalog, c) != Threw
  {
  }

  lemma LaterClock(g: Game, o: Options, limit: Id, clock: Time, limit': Id, clock': Time)
    requires GameOk(g, o, limit, clock) && limit <= limit' && clock <= clock'
    ensures GameOk(g, o, limit', clock')
  {
  }

  /** A good round can be published, and what is published meets the cross-field rules. */
  lemma PublishesOk(g: Game, o: Options, limit: Id, clock: Time)
    requires GameOk(g, o, limit, clock)
    ensures Publish(g).Some? && ValidPublicRound(Publish(g).value)
  {
    WinnerCount(g);
  }

  /** The published stage shows what the machine's state says. */
  predicate ShowsState(p: PublicStage, s: M.State) {
    match s
    case Waiting(_, _, createdAt) => p == PublicWaiting(createdAt)
    case Active(_, _, _, startedAt, _) => p == PublicActive(startedAt)
    case Paused(_, _, _, startedAt, reason, pausedAt) => p == PublicPaused(startedAt, reason, pausedAt)
    case Window(_, _, _, startedAt, openedAt, closesAt) =>
      p.PublicWindow? && p.startedAt == startedAt && p.openedAt == openedAt && p.closesAt == closesAt
    case Result(_, _, _, startedAt, settledAt) => p.PublicResult? && p.startedAt == startedAt && p.result.settledAt == settledAt
    case Ended(_, _, _, startedAt, endedAt) => p.PublicEnded? && p.startedAt == startedAt && p.endedAt == endedAt
  }

  function ShownWinners(p: PublicStage): Option<WinnerResult> {
    if p.PublicResult? then Some(p.result) else if p.PublicEnded? then p.outcome else None
  }

  /** What is published is the machine's state, with all standing winners on the latest call. */
  lemma PublishesState(g: Game, o: Options, limit: Id, clock: Time)
    requires GameOk(g, o, limit, clock)
    ensures ToDomain(g.round, o.catalog).Some? && Publish(g).Some?
    ensures var p := Publish(g).value;
            && p.id == g.round.id && p.patternId == g.round.currentPattern && p.config == g.round.config
            && ShowsState(p.stage, ToDomain(g.round, o.catalog).value)
            && (ShownWinners(p.stage).Some? ==>
                  && ShownWinners(p.stage).value.winners == g.winners.Keys
                  && LatestCall(g.calls).Some? && ShownWinners(p.stage).value.trigger == LatestCall(g.calls).value.id)
            && (g.winners != map[] && (g.round.stage.StageResult? || g.round.stage.StageEnded?) ==> ShownWinners(p.stage).Some?)
  {
    hide DrawOk, CardsOk, CallsOk, MarksOk, DeadlineAfterCalls, ValidPublicRound, FindPattern, LatestCall;
    PublishesOk(g, o, limit, clock);
  }

  lemma WinnerCount(g: Game)
    requires WinnersOk(g) && |g.cards| <= MAX_PLAYERS
    ensures |g.winners| <= MAX_PLAYERS
    ensures g.round.trigger.Some? ==> 1 <= |g.winners|
  {
    assert g.winners.Keys <= g.cards.Keys;
    SubsetCount(g.winners.Keys, g.cards.Keys);
    if g.winners != map[] {
      var p :| p in g.winners;
      SubsetCount({p}, g.winners.Keys);
    }
  }

  // ---------- every step keeps the invariant and agrees with the machine ----------

  predicate Steps(r: Round, c: M.Command, r': Round, catalog: seq<Pattern>) {
    && ToDomain(r, catalog).Some?
    && ToDomain(r', catalog).Some?
    && M.Transition(ToDomain(r, catalog).value, c) == M.Next(ToDomain(r', catalog).value)
  }

  lemma StartStep(g: Game, o: Options, limit: Id, clock: Time, now: Time)
    requires GameOk(g, o, limit, clock) && clock <= now
    requires Decide(g.round, o.catalog, M.Start(now)).Accepted?
    ensures Steps(g.round, M.Start(now), StartRow(g.round, now), o.catalog)
    ensures GameOk(g.(round := StartRow(g.round, now)), o, limit, now)
  {
  }

  lemma PauseStep(g: Game, o: Options, limit: Id, clock: Time, reason: M.PauseReason, now: Time)
    requires GameOk(g, o, limit, clock) && clock <= now
    requires Decide(g.round, o.catalog, M.Pause(reason, now)).Accepted?
    ensures Steps(g.round, M.Pause(reason, now), PauseRow(g.round, reason, now), o.catalog)
    ensures GameOk(g.(round := PauseRow(g.round, reason, now)), o, limit, now)
  {
  }

  /** The absence of the host also overwrites an existing pause, a step that the machine does not have. */
  lemma PromoteStep(g: Game, o: Options, limit: Id, clock: Time, now: Time)
    requires GameOk(g, o, limit, clock) && clock <= now
    requires g.round.stage.StagePaused?
    ensures M.Transition(ToDomain(g.round, o.catalog).value, M.Pause(M.HostAbsent, now)) == M.NotAllowed
    ensures GameOk(g.(round := PauseRow(g.round, M.HostAbsent, now)), o, limit, now)
  {
  }

  lemma ResumeStep(g: Game, o: Options, limit: Id, clock: Time, now: Time)
    requires GameOk(g, o, limit, clock) && clock <= now
    requires Decide(g.round, o.catalog, M.Resume(now)).Accepted?
    ensures Steps(g.round, M.Resume(now), ResumeRow(g.round, now), o.catalog)
    ensures GameOk(g.(round := ResumeRow(g.round, now)), o, limit, now)
  {
  }

  lemma SettleStep(g: Game, o: Options, limit: Id, clock: Time, now: Time)
    requires GameOk(g, o, limit, clock) && clock <= now
    requires Decide(g.round, o.catalog, M.Settle(now)).Accepted?
    ensures Steps(g.round, M.Settle(now), SettleRow(g.round, now), o.catalog)
    ensures GameOk(g.(round := SettleRow(g.round, now)), o, limit, now)
  {
  }

  lemma EndStep(g: Game, o: Options, limit: Id, clock: Time, now: Time)
    requires GameOk(g, o, limit, clock) && clock <= now
    requires Decide(g.round, o.catalog, M.End(now)).Accepted?
    ensures Steps(g.round, M.End(now), EndRow(g.round, now), o.catalog)
    ensures GameOk(g.(round := EndRow(g.round, now)), o, limit, now)
  {
  }

  lemma ConfigureStep(g: Game, o: Options, limit: Id, clock: Time, pattern: Id, config: CallConfig, now: Time)
    requires GameOk(g, o, limit, clock) && clock <= now
    requires g.round.stage.StageWaiting? && Known(o.catalog, pattern) && ValidConfig(config)
    ensures GameOk(g.(round := g.round.(initialPattern := pattern, currentPattern := pattern, config := config)),
                   o, limit, now)
  {
  }

  /** A continuation that carries nobody is the machine's step; one that carries a winner stays in the result stage. */
  lemma ContinueRowStep(r: Round, catalog: seq<Pattern>, clock: Time, pattern: Id, carries: bool, drawn: bool, now: Time)
    requires RowOk(r, catalog, clock) && clock <= now
    requires Known(catalog, pattern)
    requires Decide(r, catalog, M.Continue(ModeOf(catalog, pattern), now)).Accepted?
    ensures var r' := ContinueRow(r, pattern, carries, drawn, now);
            && (!carries ==> Steps(r, M.Continue(ModeOf(catalog, pattern), now), r', catalog))
            && RowOk(r', catalog, now)
  {
  }

  function Keep(winners: map<Id, Winner>, carried: set<Id>): map<Id, Winner> {
    map p | p in winners && p in carried :: winners[p]
  }

  lemma ContinueStep(g: Game, o: Options, limit: Id, clock: Time, pattern: Id, carried: set<Id>, now: Time)
    requires GameOk(g, o, limit, clock) && clock <= now
    requires carried <= g.winners.Keys
    requires Known(o.catalog, pattern)
    requires Decide(g.round, o.catalog, M.Continue(ModeOf(o.catalog, pattern), now)).Accepted?
    ensures GameOk(g.(winners := Keep(g.winners, carried),
                      round := ContinueRow(g.round, pattern, carried != {}, |g.calls| >= |g.draw|, now)), o, limit, now)
  {
    var r' := ContinueRow(g.round, pattern, carried != {}, |g.calls| >= |g.draw|, now);
    ContinueRowStep(g.round, o.catalog, clock, pattern, carried != {}, |g.calls| >= |g.draw|, now);
    var g' := g.(winners := Keep(g.winners, carried), round := r');
    assert g'.winners.Keys == carried;
    assert g'.winners == map[] <==> carried == {};
    assert WinnersOk(g');
    assert MarksOk(g', limit, now);
    assert DeadlineAfterCalls(g');
  }

  lemma CallsExtend(g: Game, limit: Id, clock: Time, id: Id, now: Time)
    requires DrawOk(g.draw) && CallsOk(g.draw, g.calls, limit, clock) && clock <= now && limit <= id && |g.calls| < BALL_COUNT
    ensures CallsOk(g.draw, g.calls + [Call(id, |g.calls| + 1, g.draw[|g.calls|], now)], id + 1, now)
  {
  }

  lemma MarksUnderCalls(g: Game, limit: Id, clock: Time, call: Call, round: Round, limit': Id, now: Time)
    requires MarksOk(g, limit, clock) && clock <= now && limit <= limit'
    ensures MarksOk(g.(calls := g.calls + [call], round := round), limit', now)
  {
    hide HoldsBall;
    forall x | x in g.calls ensures x in g.calls + [call] {}
    assert CalledBalls(g.calls) <= CalledBalls(g.calls + [call]);
  }

  lemma CallStep(g: Game, o: Options, limit: Id, clock: Time, id: Id, now: Time)
    requires GameOk(g, o, limit, clock) && clock <= now && limit <= id
    requires g.round.stage.StageActive?
    ensures var c := CommitCall(g, now, id);
            && (c.Exhausted? <==> |g.calls| == BALL_COUNT)
            && !c.CallFault?
            && (c.Called? ==> GameOk(c.game, o, id + 1, now))
  {
    hide MarksOk, ValidCells, DrawOk, CallsOk;
    CallCount(g.draw, g.calls, limit, clock);
    if |g.calls| < BALL_COUNT {
      CallsExtend(g, limit, clock, id, now);
      var c := CommitCall(g, now, id);
      MarksUnderCalls(g, limit, clock, c.call, c.game.round, id + 1, now);
    }
  }

  lemma CallCount(draw: seq<nat>, calls: seq<Call>, limit: Id, clock: Time)
    requires DrawOk(draw) && CallsOk(draw, calls, limit, clock)
    ensures |draw| == BALL_COUNT && |calls| <= BALL_COUNT && forall i | 0 <= i < |calls| :: calls[i].calledAt <= clock
  {
  }
}
