/** The rows of one round, and the single-row updates that the round commands make. */
module Rows {

  import opened Common
  import opened Patterns
  import M = RoundMachine

  // ---------- rows ----------

  datatype CallConfig = Manual | Automatic(seconds: nat)

  predicate ValidConfig(c: CallConfig) {
    c.Automatic? ==> c.seconds in {5, 10, 30, 60, 120}
  }

  datatype Stage = StageWaiting | StageActive | StagePaused | StageWindow | StageResult | StageEnded

  datatype Round = Round(
    id: Id,
    initialPattern: Id,
    currentPattern: Id,
    stage: Stage,
    config: CallConfig,
    createdAt: Time,
    startedAt: Option<Time>,
    activeAt: Option<Time>,
    pausedAt: Option<Time>,
    pauseReason: Option<M.PauseReason>,
    nextCallAt: Option<Time>,
    trigger: Option<Id>,
    openedAt: Option<Time>,
    closesAt: Option<Time>,
    settledAt: Option<Time>,
    endedAt: Option<Time>)

  /** 25 card cells in row-major order; 0 stands for the free cell. */
  type Cells = s: seq<nat> | |s| == CELL_COUNT witness seq(CELL_COUNT, _ => 0)

  datatype Card = Card(id: Id, cells: Cells)
  datatype Call = Call(id: Id, position: nat, ball: nat, calledAt: Time)
  datatype Mark = Mark(id: Id, markedAt: Time)
  datatype Winner = Winner(cardId: Id, trigger: Id, confirmedAt: Time)

  /** A round with everything that cascades with it. Cards and winners are keyed by participant, marks by card and ball. */
  datatype Game = Game(
    round: Round,
    draw: seq<nat>,
    cards: map<Id, Card>,
    calls: seq<Call>,
    marks: map<(Id, nat), Mark>,
    winners: map<Id, Winner>)

  const BALL_COUNT := 75
  const MAX_PLAYERS := 25

  // ---------- patterns by id ----------

  const STANDARD_ONE_LINE: Id := 0
  const STANDARD_TWO_LINES: Id := 1
  const STANDARD_BLACKOUT: Id := 2

  function FindPattern(catalog: seq<Pattern>, id: Id): (r: Option<Pattern>)
    ensures r.Some? ==> r.value in catalog && r.value.id == id
    ensures r.None? <==> forall p | p in catalog :: p.id != id
  {
    if catalog == [] then None
    else if catalog[0].id == id then Some(catalog[0])
    else FindPattern(catalog[1..], id)
  }

  predicate ValidCatalog(catalog: seq<Pattern>) {
    && (forall p | p in catalog :: WellFormed(p))
    && (exists p | p in catalog :: p.id == STANDARD_ONE_LINE)
    && (forall p | p in catalog :: p.id == STANDARD_ONE_LINE ==> p.mode == OneLine)
  }

  predicate Known(catalog: seq<Pattern>, id: Id) {
    FindPattern(catalog, id).Some?
  }

  function ModeOf(catalog: seq<Pattern>, id: Id): Mode
    requires Known(catalog, id)
  {
    FindPattern(catalog, id).value.mode
  }

  function NextContinuationPattern(initialPattern: Id, currentPattern: Id): Option<Id> {
    if initialPattern != STANDARD_ONE_LINE then None
    else if currentPattern == STANDARD_ONE_LINE then Some(STANDARD_TWO_LINES)
    else if currentPattern == STANDARD_TWO_LINES then Some(STANDARD_BLACKOUT)
    else None
  }

  // ---------- the row as a machine state ----------

  /** None where the conversion throws. */
  function ToDomain(r: Round, catalog: seq<Pattern>): Option<M.State> {
    if !Known(catalog, r.initialPattern) || !Known(catalog, r.currentPattern) then None else
    var first, mode := ModeOf(catalog, r.initialPattern), ModeOf(catalog, r.currentPattern);
    match r.stage
    case StageWaiting => Some(M.Waiting(first, mode, r.createdAt))
    case StageActive =>
      if r.startedAt.None? || r.activeAt.None? then None
      else Some(M.Active(first, mode, r.createdAt, r.startedAt.value, r.activeAt.value))
    case StagePaused =>
      if r.startedAt.None? || r.pausedAt.None? then None
      else Some(M.Paused(first, mode, r.createdAt, r.startedAt.value,
                         if r.pauseReason.Some? then r.pauseReason.value else M.HostCommand, r.pausedAt.value))
    case StageWindow =>
      if r.startedAt.None? || r.openedAt.None? || r.closesAt.None? then None
      else Some(M.Window(first, mode, r.createdAt, r.startedAt.value, r.openedAt.value, r.closesAt.value))
    case StageResult =>
      if r.startedAt.None? || r.settledAt.None? then None
      else Some(M.Result(first, mode, r.createdAt, r.startedAt.value, r.settledAt.value))
    case StageEnded =>
      if r.startedAt.None? || r.endedAt.None? then None
      else Some(M.Ended(first, mode, r.createdAt, r.startedAt.value, r.endedAt.value))
  }

  datatype Verdict = Accepted | Declined | Threw

  function Decide(r: Round, catalog: seq<Pattern>, c: M.Command): Verdict {
    var s := ToDomain(r, catalog);
    if s.None? then Threw else
    match M.Transition(s.value, c)
    case Next(_) => Accepted
    case BadTime => Threw
    case _ => Declined
  }

  // ---------- row updates ----------

  function NextAutomaticCall(config: CallConfig, now: Time): Option<Time> {
    if config.Automatic? then Some(now + config.seconds * 1000) else None
  }

  function WaitingRow(id: Id, pattern: Id, config: CallConfig, now: Time): Round {
    Round(id, pattern, pattern, StageWaiting, config, now, None, None, None, None, None, None, None, None, None, None)
  }

  function StartRow(r: Round, now: Time): Round {
    r.(stage := StageActive, startedAt := Some(now), activeAt := Some(now), pausedAt := None, pauseReason := None,
       nextCallAt := NextAutomaticCall(r.config, now))
  }

  function PauseRow(r: Round, reason: M.PauseReason, now: Time): Round {
    r.(stage := StagePaused, pausedAt := Some(now), pauseReason := Some(reason), nextCallAt := None)
  }

  function ResumeRow(r: Round, now: Time): Round {
    r.(stage := StageActive, activeAt := Some(now), pausedAt := None, pauseReason := None,
       nextCallAt := NextAutomaticCall(r.config, now))
  }

  function WindowRow(r: Round, trigger: Id, now: Time, closesAt: Time): Round {
    r.(stage := StageWindow, pausedAt := None, pauseReason := None, nextCallAt := None,
       trigger := Some(trigger), openedAt := Some(now), closesAt := Some(closesAt))
  }

  function SettleRow(r: Round, now: Time): Round {
    r.(stage := StageResult, settledAt := Some(now), nextCallAt := None)
  }

  function ContinueRow(r: Round, pattern: Id, carries: bool, drawn: bool, now: Time): Round {
    r.(currentPattern := pattern, stage := if carries then StageResult else StageActive, activeAt := Some(now),
       pausedAt := None, pauseReason := None,
       nextCallAt := if carries || drawn then None else NextAutomaticCall(r.config, now),
       trigger := if carries then r.trigger else None,
       openedAt := if carries then r.openedAt else None,
       closesAt := if carries then r.closesAt else None,
       settledAt := if carries then Some(now) else None)
  }

  function EndRow(r: Round, now: Time): Round {
    r.(stage := StageEnded, endedAt := Some(now), nextCallAt := None)
  }

  // ---------- the published round ----------

  datatype WinnerResult = WinnerResult(trigger: Id, openedAt: Time, closesAt: Time, settledAt: Time, winners: set<Id>)

  datatype PublicStage =
    | PublicWaiting(createdAt: Time)
    | PublicActive(startedAt: Time)
    | PublicPaused(startedAt: Time, reason: M.PauseReason, pausedAt: Time)
    | PublicWindow(startedAt: Time, trigger: Id, openedAt: Time, closesAt: Time)
    | PublicResult(startedAt: Time, continuation: Option<Id>, result: WinnerResult)
    | PublicEnded(startedAt: Time, endedAt: Time, outcome: Option<WinnerResult>)

  datatype PublicRound = PublicRound(id: Id, patternId: Id, config: CallConfig, stage: PublicStage)

  /** The cross-field rules of a co-winner result. */
  predicate ValidResult(w: WinnerResult) {
    w.openedAt < w.closesAt <= w.settledAt && 1 <= |w.winners| <= MAX_PLAYERS
  }

  /** The cross-field rules of a published round. */
  predicate ValidPublicRound(p: PublicRound) {
    && ValidConfig(p.config)
    && (p.stage.PublicWindow? ==> p.stage.openedAt < p.stage.closesAt)
    && (p.stage.PublicResult? ==> ValidResult(p.stage.result))
    && (p.stage.PublicEnded? && p.stage.outcome.Some? ==> ValidResult(p.stage.outcome.value))
  }

  /** None where a required column is missing. */
  function ResultOf(g: Game): Option<WinnerResult> {
    var r := g.round;
    if r.trigger.None? || r.openedAt.None? || r.closesAt.None? || r.settledAt.None? then None
    else Some(WinnerResult(r.trigger.value, r.openedAt.value, r.closesAt.value, r.settledAt.value, g.winners.Keys))
  }

  function StageOf(g: Game): Option<PublicStage> {
    var r := g.round;
    if r.startedAt.None? then (if r.stage.StageWaiting? then Some(PublicWaiting(r.createdAt)) else None) else
    var started := r.startedAt.value;
    match r.stage
    case StageWaiting => Some(PublicWaiting(r.createdAt))
    case StageActive => Some(PublicActive(started))
    case StagePaused =>
      if r.pausedAt.None? then None
      else Some(PublicPaused(started, if r.pauseReason.Some? then r.pauseReason.value else M.HostCommand, r.pausedAt.value))
    case StageWindow =>
      if r.trigger.None? || r.openedAt.None? || r.closesAt.None? then None
      else Some(PublicWindow(started, r.trigger.value, r.openedAt.value, r.closesAt.value))
    case StageResult =>
      if ResultOf(g).None? then None
      else Some(PublicResult(started, NextContinuationPattern(r.initialPattern, r.currentPattern), ResultOf(g).value))
    case StageEnded =>
      if r.endedAt.None? then None
      else if g.winners == map[] then Some(PublicEnded(started, r.endedAt.value, None))
      else if ResultOf(g).None? then None
      else Some(PublicEnded(started, r.endedAt.value, Some(ResultOf(g).value)))
  }

  /** The round as events and snapshots show it; None where a required column is missing or a cross-field rule fails. */
  function Publish(g: Game): Option<PublicRound> {
    var stage := StageOf(g);
    if stage.None? then None else
    var p := PublicRound(g.round.id, g.round.currentPattern, g.round.config, stage.value);
    if ValidPublicRound(p) then Some(p) else None
  }

  // ---------- calls, marks and cards ----------

  function CalledBalls(calls: seq<Call>): set<nat> {
    set c | c in calls :: c.ball
  }

  function MarkedBalls(marks: map<(Id, nat), Mark>, card: Id): set<nat> {
    set k | k in marks && k.0 == card :: k.1
  }

  function View(cells: Cells, balls: set<nat>): CellSet {
    seq(CELL_COUNT, i requires 0 <= i < CELL_COUNT => cells[i] == 0 || cells[i] in balls)
  }

  /** The first index of `ball`, or -1. */
  function IndexOf(cells: seq<nat>, ball: nat): (r: int)
    ensures -1 <= r < |cells|
    ensures r >= 0 ==> cells[r] == ball
    ensures r == -1 <==> ball !in cells
  {
    if cells == [] then -1
    else if cells[0] == ball then 0
    else var rest := IndexOf(cells[1..], ball); if rest < 0 then -1 else rest + 1
  }

  /** A shuffled-column card: column c holds distinct values of c*15+1 .. c*15+15, and only the centre is free. */
  predicate ValidCells(cells: Cells) {
    && cells[FREE_CELL] == 0
    && (forall i | 0 <= i < CELL_COUNT && i != FREE_CELL :: i % 5 * 15 + 1 <= cells[i] <= i % 5 * 15 + 15)
    && (forall i, j | 0 <= i < j < CELL_COUNT :: cells[i] != cells[j])
  }

  function LatestCall(calls: seq<Call>): Option<Call> {
    if calls == [] then None else Some(calls[|calls| - 1])
  }
}
