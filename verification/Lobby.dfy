/** The durable tables of one lobby, and every transaction on them as a function from tables to tables. */
module Lobby {

  import opened Common
  import opened Patterns
  import opened Rows
  import opened Games
  import M = RoundMachine
  import P = People
  import Q = Presence
  import C = Connections

  // ---------- tables ----------

  datatype Setup = Setup(pattern: Id, config: CallConfig)

  datatype Action =
    | Configure(setup: Setup)
    | CreateRound
    | StartRound
    | PauseRound
    | ResumeRound
    | CallNext
    | ContinueRound(pattern: Id)
    | EndRound
    | MarkBall(ball: nat)
    | OverrideAbsence(participant: Id, number: nat)

  datatype Command = Command(id: Id, action: Action)

  datatype Scope = ActiveLobby | ParticipantPrivate

  datatype PrivateEvent =
    | MarkResult(commandId: Id, occurredAt: Time, markId: Id, cardId: Id, ball: nat, markedAt: Time)
    | NearWin(occurredAt: Time, requiredBall: nat)

  /** The stored JSON of a command result. */
  datatype Body = Body(intent: Command, progress: Option<Snap>, events: seq<PrivateEvent>, attribution: Option<Id>)

  /** SHA-256 over the canonical printing of these columns, taken as injective. */
  datatype Digest = Sha256(
    participant: Id, commandId: Id, roundId: Id, body: Body, createdAt: Time, scope: Scope, sequence: Option<nat>, format: nat)

  datatype Result = Result(
    roundId: Option<Id>,
    scope: Scope,
    sequence: Option<nat>,
    format: nat,
    integrity: Option<Digest>,
    body: Body,
    createdAt: Time)

  datatype Payload =
    | StagePayload(round: PublicRound)
    | EndPayload(round: PublicRound)
    | CallPayload(call: Call)
    | WindowPayload(trigger: Id, openedAt: Time, closesAt: Time)
    | ResultPayload(result: WinnerResult)
    | PresencePayload(participant: Id, generation: P.Generation)
    | ConfigurationPayload(setup: Setup)

  datatype Event = Event(sequence: nat, roundId: Option<Id>, payload: Payload, createdAt: Time)

  datatype LobbyStatus = LobbyWaiting | LobbyActive

  /** History of committed marks; no transaction reads it. */
  datatype Entry = Entry(
    round: Id, pattern: Pattern, participant: Id, cells: Cells, ball: nat, at: Time, isNew: bool,
    called: set<nat>, prior: set<nat>, latest: Option<Call>)

  datatype Db = Db(
    status: LobbyStatus,
    pending: Option<Setup>,
    lastSequence: nat,
    events: seq<Event>,
    world: C.World,
    game: Option<Game>,
    results: map<(Id, Id), Result>,
    log: seq<Entry>,
    nextId: Id,
    clock: Time)

  function Tables(db: Db): P.Tables {
    db.world.tables
  }

  // ---------- environment ----------

  /** What card generation, the draw order and the id source supply to a new round. */
  datatype Deal = Deal(cards: map<Id, Card>, draw: seq<nat>, limit: Id)

  predicate ValidDeal(d: Deal, players: set<Id>, nextId: Id) {
    && DrawOk(d.draw)
    && d.cards.Keys == players
    && nextId < d.limit
    && (forall p | p in d.cards :: ValidCells(d.cards[p].cells) && nextId < d.cards[p].id < d.limit)
    && (forall p, q | p in d.cards && q in d.cards && p != q :: d.cards[p].id != d.cards[q].id)
  }

  /** The transaction time and, for a new round, the deal. */
  datatype Env = Env(now: Time, deal: Deal)

  // ---------- blocking presence ----------

  predicate Blocks(t: P.Tables, p: Id, now: Time) {
    var g := P.Current(t, p);
    && P.Live(t, p)
    && (t.participants[p].role.Host? || t.participants[p].eligibility.Playing?)
    && g.Some?
    && (|| (g.value.status.Absent? && !g.value.overridden)
        || (g.value.status.Grace? && g.value.graceEndsAt.Some? && g.value.graceEndsAt.value <= now))
  }

  predicate HasBlockingPresence(t: P.Tables, now: Time) {
    exists p | p in t.participants :: Blocks(t, p, now)
  }

  // ---------- command results ----------

  function DigestOf(key: (Id, Id), roundId: Id, r: Result): Digest {
    Sha256(key.0, key.1, roundId, r.body, r.createdAt, r.scope, r.sequence, r.format)
  }

  /** The result keeps its intent but loses everything that refers to the deleted round. */
  function Strip(r: Result): Result {
    r.(roundId := None, integrity := None, body := Body(r.body.intent, None, [], None))
  }

  function StripRound(results: map<(Id, Id), Result>, round: Id): map<(Id, Id), Result> {
    map k | k in results :: if results[k].roundId == Some(round) then Strip(results[k]) else results[k]
  }

  function Unlink(events: seq<Event>, round: Id): seq<Event> {
    seq(|events|, i requires 0 <= i < |events| =>
      if events[i].roundId == Some(round) then events[i].(roundId := None) else events[i])
  }

  function EventsOf(r: Receipt, commandId: Id, now: Time): seq<PrivateEvent> {
    [MarkResult(commandId, now, r.mark.id, r.cardId, r.ball, r.mark.markedAt)]
    + if r.progress.nearWin && r.requiredBall.Some? then [NearWin(now, r.requiredBall.value)] else []
  }

  /** Persisted progress must be consistent: the free cell is set, and nothing is marked that was not called. */
  predicate ProgressParses(s: Snap) {
    && WellFormed(s.pattern)
    && s.called[FREE_CELL] && s.marked[FREE_CELL]
    && forall i | 0 <= i < CELL_COUNT :: s.marked[i] ==> s.called[i]
  }

  datatype Parsed = Parsed(events: seq<PrivateEvent>, progress: Option<Snap>) | Unparsable

  /** The current result formats hold both the events and the progress, or neither. */
  function ParsePrivate(r: Result): Parsed {
    if r.format != 3 && r.format != 4 then Unparsable
    else if r.body.events == [] && r.body.progress.None? then Parsed([], None)
    else if r.body.events == [] || r.body.progress.None? then Unparsable
    else if |r.body.events| > 2 || !r.body.events[0].MarkResult? || (|r.body.events| == 2 && !r.body.events[1].NearWin?)
    then Unparsable
    else if !ProgressParses(r.body.progress.value) then Unparsable
    else Parsed(r.body.events, r.body.progress)
  }

  // ---------- replay ----------

  function CardById(g: Game, p: Id, card: Id): Option<Card> {
    if p in g.cards && g.cards[p].id == card then Some(g.cards[p]) else None
  }

  predicate WithinState(s: Snap, cells: Cells, called: set<nat>, marked: set<nat>) {
    forall i | 0 <= i < CELL_COUNT ::
      && (s.called[i] && cells[i] != 0 ==> cells[i] in called)
      && (s.marked[i] && cells[i] != 0 ==> cells[i] in marked)
  }

  /** The checks on replayed private events against the live rows; false is a throw. */
  predicate ReplayValid(db: Db, p: Id, cmd: Command, r: Result, events: seq<PrivateEvent>, progress: Option<Snap>) {
    if events == [] then r.roundId.None? else
    && cmd.action.MarkBall? && r.roundId.Some? && events[0].MarkResult?
    && events[0].commandId == cmd.id && events[0].ball == cmd.action.ball
    && db.game.Some? && db.game.value.round.id == r.roundId.value
    && var g := db.game.value;
       var card := CardById(g, p, events[0].cardId);
       var key := (events[0].cardId, events[0].ball);
       && card.Some?
       && key in g.marks && g.marks[key] == Mark(events[0].markId, events[0].markedAt)
       && events[0].occurredAt == r.createdAt
       && events[0].ball in card.value.cells
       && (|events| > 1 ==> events[1].NearWin? && events[1].requiredBall in card.value.cells)
       && progress.Some? && WellFormed(progress.value.pattern)
       && WithinState(progress.value, card.value.cells, CalledBalls(g.calls), MarkedBalls(g.marks, card.value.id))
       && var required := RequiredBall(card.value.cells, progress.value);
          && required.Some?
          && (progress.value.nearWin && required.value.Some? <==> |events| > 1)
          && (|events| > 1 ==> required.value == Some(events[1].requiredBall) && events[1].occurredAt == events[0].occurredAt)
  }

  // ---------- replies ----------

  datatype Code = Unauthorized | Forbidden | InvalidCommand

  datatype Reply =
    | Acknowledged(db: Db, scope: Scope, sequence: Option<nat>, occurredAt: Time, replay: bool, events: seq<PrivateEvent>)
    | Rejected(db: Db, code: Code)
    | Failed  // an exception: the transaction rolls back

  function Replay(db: Db, p: Id, cmd: Command, r: Result): Reply {
    if r.body.intent != cmd then Rejected(db, InvalidCommand)
    else if (r.format == 3 && r.scope != ParticipantPrivate) || (r.format == 4 && r.scope != ActiveLobby) then Failed
    else if r.scope == ActiveLobby && r.format != 4 then Acknowledged(db, r.scope, r.sequence, r.createdAt, true, [])
    else
      var parsed := ParsePrivate(r);
      if parsed.Unparsable? then Failed
      else if r.roundId.Some? && r.integrity != Some(DigestOf((p, cmd.id), r.roundId.value, r)) then Failed
      else if r.roundId.None? && r.integrity.Some? then Failed
      else if !ReplayValid(db, p, cmd, r, parsed.events, parsed.progress) then Failed
      else Acknowledged(db, r.scope, r.sequence, r.createdAt, true, parsed.events)
  }

  // ---------- continuation ----------

  /** The results that record a win of participant `p` in the round. */
  function Contexts(results: map<(Id, Id), Result>, round: Id, p: Id): set<(Id, Id)> {
    set k | k in results && k.0 == p && results[k].roundId == Some(round) && results[k].body.attribution.Some?
  }

  /** The checks on a stored win; false is a throw. */
  predicate ContextParses(key: (Id, Id), r: Result) {
    && r.body.intent.action.MarkBall?
    && r.roundId.Some?
    && (r.format == 3 || r.format == 4)
    && (r.format == 3 ==> r.scope == ParticipantPrivate && r.sequence.None?)
    && (r.format == 4 ==> r.scope == ActiveLobby && r.sequence.Some?)
    && r.integrity == Some(DigestOf(key, r.roundId.value, r))
    && var parsed := ParsePrivate(r);
       && parsed.Parsed? && parsed.progress.Some? && parsed.events != []
       && parsed.events[0].commandId == key.1 && parsed.events[0].occurredAt == r.createdAt
  }

  predicate Matches(r: Result, w: Winner) {
    && r.body.attribution == Some(w.trigger) && r.createdAt == w.confirmedAt
    && r.body.events != [] && r.body.events[0].MarkResult? && r.body.events[0].cardId == w.cardId
  }

  predicate OnPattern(r: Result, pattern: Id) {
    r.body.progress.Some? && r.body.progress.value.pattern.id == pattern
  }

  datatype Carry = Carried | Dropped | CarryFailed

  /** The contexts of winner `w` that match it, narrowed to the current pattern when there are several. */
  function Matching(results: map<(Id, Id), Result>, g: Game, p: Id, w: Winner): set<(Id, Id)> {
    var durable := set k | k in Contexts(results, g.round.id, p) && Matches(results[k], w);
    if |durable| <= 1 then durable
    else set k | k in durable && OnPattern(results[k], g.round.currentPattern)
  }

  /** Whether the stored winning mark also wins the new pattern on the latest call. */
  function CarryOn(g: Game, pattern: Pattern, r: Result, card: Card, latest: Call): Carry
    requires r.body.events != [] && r.body.events[0].MarkResult? && r.body.progress.Some?
  {
    var mark := r.body.events[0];
    var key := (card.id, mark.ball);
    var s := r.body.progress.value;
    if mark.cardId != card.id || key !in g.marks || g.marks[key] != Mark(mark.markId, mark.markedAt) then CarryFailed else
    var index := IndexOf(card.cells, mark.ball);
    if index < 0 then CarryFailed
    else if !WithinState(s, card.cells, CalledBalls(g.calls), MarkedBalls(g.marks, card.id)) then CarryFailed
    else if Attributable(pattern, s.called, s.marked, s.marked[index := false], IndexOf(card.cells, latest.ball)) then Carried
    else Dropped
  }

  function WinnerCard(g: Game, w: Winner): set<Id> {
    set p | p in g.cards && g.cards[p].id == w.cardId
  }

  ghost function CarryWinner(g: Game, results: map<(Id, Id), Result>, pattern: Pattern, p: Id, w: Winner): Carry {
    if exists k | k in Contexts(results, g.round.id, p) :: !ContextParses(k, results[k]) then CarryFailed else
    var matching := Matching(results, g, p, w);
    if Contexts(results, g.round.id, p) != {} && matching == {} then CarryFailed
    else if |matching| > 1 then CarryFailed
    else if matching == {} then Dropped
    else if WinnerCard(g, w) == {} then CarryFailed
    else if LatestCall(g.calls).None? || w.trigger != LatestCall(g.calls).value.id then Dropped
    else
      var k :| k in matching;
      var holder :| holder in WinnerCard(g, w);
      CarryOn(g, pattern, results[k], g.cards[holder], LatestCall(g.calls).value)
  }

  ghost function CarriedSet(g: Game, results: map<(Id, Id), Result>, pattern: Pattern): set<Id> {
    set p | p in g.winners && CarryWinner(g, results, pattern, p, g.winners[p]) == Carried
  }

  datatype GameChange = Changed(game: Game) | ChangeRefused | ChangeFailed

  ghost function Continue(g: Game, results: map<(Id, Id), Result>, o: Options, pattern: Id, now: Time): GameChange {
    if !Known(o.catalog, pattern) then ChangeRefused else
    match Decide(g.round, o.catalog, M.Continue(ModeOf(o.catalog, pattern), now))
    case Threw => ChangeFailed
    case Declined => ChangeRefused
    case Accepted =>
      var definition := FindPattern(o.catalog, pattern).value;
      if exists p | p in g.winners :: CarryWinner(g, results, definition, p, g.winners[p]) == CarryFailed then ChangeFailed else
      var carried := CarriedSet(g, results, definition);
      if carried != {} && (g.round.trigger.None? || g.round.openedAt.None? || g.round.closesAt.None?) then ChangeFailed else
      Changed(g.(winners := Keep(g.winners, carried),
                 round := ContinueRow(g.round, pattern, carried != {}, |g.calls| >= |g.draw|, now)))
  }

  // ---------- mutations ----------

  datatype Pending =
    | Public(roundId: Option<Id>, payload: Payload, receipt: Option<Receipt>)
    | Private(round: Id, mark: Receipt)

  datatype Mutation = Done(db: Db, pending: Pending) | Refused(db: Db) | Fault

  /** Publishes the new state of the round. */
  function Staged(db: Db, g: Game): Mutation {
    var p := Publish(g);
    if p.None? then Fault
    else Done(db.(game := Some(g)), Public(Some(g.round.id), if g.round.stage.StageEnded? then EndPayload(p.value) else StagePayload(p.value), None))
  }

  /** A row step of the machine, published when accepted. */
  function RowStep(db: Db, o: Options, c: M.Command, row: Round, status: LobbyStatus): Mutation
    requires db.game.Some?
  {
    match Decide(db.game.value.round, o.catalog, c)
    case Threw => Fault
    case Declined => Refused(db)
    case Accepted => Staged(db.(status := status), db.game.value.(round := row))
  }

  ghost function WithExpiry(db: Db, now: Time): Db {
    db.(world := C.Do(db.world, C.Expiry(now)))
  }

  ghost function OverrideMutation(db: Db, p: Id, number: nat, now: Time): Mutation {
    var expired := Tables(WithExpiry(db, now));
    var after := db.(world := C.Do(db.world, C.OverrideAbsence(p, number, now)));
    if !Q.Overridable(expired, p, number) then Refused(after)
    else
      var g := P.Current(Tables(after), p);
      if g.None? || g.value.absentSince.None? then Fault
      else Done(after, Public(None, PresencePayload(p, g.value), None))
  }

  function NewGame(id: Id, setup: Setup, deal: Deal, row: Round): Game {
    Game(row, deal.draw, deal.cards, [], map[], map[])
  }

  ghost function CreateMutation(db: Db, o: Options, env: Env): Mutation {
    if db.game.Some? && !db.game.value.round.stage.StageEnded? then Refused(db)
    else if !Known(o.catalog, STANDARD_ONE_LINE) || ModeOf(o.catalog, STANDARD_ONE_LINE) != OneLine then Refused(db) else
    var expired := WithExpiry(db, env.now);
    var n := |Q.LiveIds(Tables(expired))|;
    if n < 1 || n > MAX_PLAYERS then Refused(expired) else
    var cleared := if db.game.None? then expired else
      expired.(events := Unlink(db.events, db.game.value.round.id), results := StripRound(db.results, db.game.value.round.id));
    var setup := Setup(STANDARD_ONE_LINE, Manual);
    Staged(cleared.(status := LobbyWaiting, nextId := env.deal.limit, world := C.Do(expired.world, C.Enroll)),
           NewGame(db.nextId, setup, env.deal, WaitingRow(db.nextId, STANDARD_ONE_LINE, Manual, env.now)))
  }

  function ConfigureMutation(db: Db, o: Options, setup: Setup): Mutation {
    if !Known(o.catalog, setup.pattern) then Refused(db)
    else if db.game.None? then Done(db.(pending := Some(setup)), Public(None, ConfigurationPayload(setup), None))
    else if !db.game.value.round.stage.StageWaiting? then Refused(db)
    else
      var g := db.game.value;
      Staged(db, g.(round := g.round.(initialPattern := setup.pattern, currentPattern := setup.pattern, config := setup.config)))
  }

  function PlayerIds(t: P.Tables): set<Id> {
    set p | p in t.participants && t.participants[p].departedAt.None? && t.participants[p].eligibility.Playing?
  }

  /** The first start, from the pending setup, with no round yet. */
  ghost function FirstStart(db: Db, o: Options, env: Env): Mutation
    requires db.game.None?
  {
    var expired := WithExpiry(db, env.now);
    if db.pending.None? || !ValidConfig(db.pending.value.config) || !Known(o.catalog, db.pending.value.pattern) then Fault else
    var setup := db.pending.value;
    var n := |PlayerIds(Tables(expired))|;
    if n < 1 || n > MAX_PLAYERS then Refused(expired) else
    var row := StartRow(WaitingRow(db.nextId, setup.pattern, setup.config, env.now), env.now);
    Staged(expired.(status := LobbyActive, pending := None, nextId := env.deal.limit),
           NewGame(db.nextId, setup, env.deal, row))
  }

  function CallMutation(db: Db, now: Time): Mutation
    requires db.game.Some?
  {
    var g := db.game.value;
    if !g.round.stage.StageActive? then Refused(db) else
    match CommitCall(g, now, db.nextId)
    case CallFault => Fault
    case Exhausted => Refused(db)
    case Called(game, call) =>
      Done(db.(game := Some(game), nextId := db.nextId + 1), Public(Some(g.round.id), CallPayload(call), None))
  }

  function EntryOf(g: Game, o: Options, p: Id, ball: nat, now: Time): Entry
    requires p in g.cards && Known(o.catalog, g.round.currentPattern)
  {
    var card := g.cards[p];
    Entry(g.round.id, FindPattern(o.catalog, g.round.currentPattern).value, p, card.cells, ball, now,
           (card.id, ball) !in g.marks, CalledBalls(g.calls), MarkedBalls(g.marks, card.id), LatestCall(g.calls))
  }

  function MarkMutation(db: Db, o: Options, p: Id, ball: nat, now: Time): Mutation
    requires db.game.Some?
  {
    var g := db.game.value;
    match MarkCard(g, o, p, ball, now, db.nextId)
    case MarkFault => Fault
    case MarkRefused => Refused(db)
    case Marked(game, receipt, opens) =>
      if p !in g.cards || !Known(o.catalog, g.round.currentPattern) || (opens && receipt.attribution.None?) then Fault else
      var after := db.(game := Some(game), nextId := db.nextId + 1, log := db.log + [EntryOf(g, o, p, ball, now)]);
      if opens then
        Done(after, Public(Some(g.round.id), WindowPayload(receipt.attribution.value, now, now + o.windowMs), Some(receipt)))
      else Done(after, Private(g.round.id, receipt))
  }

  /** The body of a command, after authorization. */
  ghost function Mutate(db: Db, o: Options, p: Id, cmd: Command, env: Env): Mutation {
    var now := env.now;
    match cmd.action
    case OverrideAbsence(target, number) => OverrideMutation(db, target, number, now)
    case CreateRound => CreateMutation(db, o, env)
    case Configure(setup) => ConfigureMutation(db, o, setup)
    case MarkBall(ball) => if db.game.None? then Refused(db) else MarkMutation(db, o, p, ball, now)
    case StartRound =>
      if db.game.None? then FirstStart(db, o, env)
      else if HasBlockingPresence(Tables(db), now) then Refused(db)
      else RowStep(db, o, M.Start(now), StartRow(db.game.value.round, now), LobbyActive)
    case PauseRound =>
      if db.game.None? then Refused(db)
      else RowStep(db, o, M.Pause(M.HostCommand, now), PauseRow(db.game.value.round, M.HostCommand, now), db.status)
    case ResumeRound =>
      if db.game.None? || HasBlockingPresence(Tables(db), now) then Refused(db)
      else RowStep(db, o, M.Resume(now), ResumeRow(db.game.value.round, now), db.status)
    case CallNext =>
      if db.game.None? || HasBlockingPresence(Tables(db), now) then Refused(db)
      else CallMutation(db, now)
    case ContinueRound(pattern) =>
      if db.game.None? || HasBlockingPresence(Tables(db), now) then Refused(db) else
      (match Continue(db.game.value, db.results, o, pattern, now)
       case ChangeFailed => Fault
       case ChangeRefused => Refused(db)
       case Changed(g) => Staged(db, g))
    case EndRound =>
      if db.game.None? then Refused(db)
      else RowStep(db, o, M.End(now), EndRow(db.game.value.round, now), LobbyWaiting)
  }

  // ---------- committing ----------

  function Append(db: Db, roundId: Option<Id>, payload: Payload, now: Time): Db {
    db.(lastSequence := db.lastSequence + 1,
        events := db.events + [Event(db.lastSequence + 1, roundId, payload, now)])
  }

  predicate ValidPayload(p: Payload) {
    match p
    case StagePayload(round) => ValidPublicRound(round)
    case EndPayload(round) => ValidPublicRound(round)
    case WindowPayload(_, openedAt, closesAt) => openedAt < closesAt
    case ResultPayload(result) => ValidResult(result)
    case CallPayload(call) => 1 <= call.position <= BALL_COUNT && 1 <= call.ball <= BALL_COUNT
    case PresencePayload(_, _) => true
    case ConfigurationPayload(_) => true
  }

  function ResultRow(p: Id, cmd: Command, pending: Pending, sequence: Option<nat>, now: Time): Result {
    var receipt := if pending.Public? then pending.receipt else Some(pending.mark);
    var body :=
      if receipt.None? then Body(cmd, None, [], None)
      else Body(cmd, Some(receipt.value.progress), EventsOf(receipt.value, cmd.id, now), receipt.value.attribution);
    var roundId := if pending.Public? then pending.roundId else Some(pending.round);
    var scope := if pending.Public? then ActiveLobby else ParticipantPrivate;
    var format := if pending.Private? then 3 else if receipt.Some? then 4 else 1;
    var bare := Result(roundId, scope, sequence, format, None, body, now);
    if format == 1 || roundId.None? then bare
    else bare.(integrity := Some(DigestOf((p, cmd.id), roundId.value, bare)))
  }

  function Commit(db: Db, p: Id, cmd: Command, pending: Pending, now: Time): Reply {
    if pending.Public? then
      if !ValidPayload(pending.payload) || (pending.receipt.Some? && pending.roundId.None?) then Failed else
      var published := Append(db, pending.roundId, pending.payload, now);
      var r := ResultRow(p, cmd, pending, Some(published.lastSequence), now);
      Acknowledged(published.(results := db.results[(p, cmd.id) := r]), r.scope, r.sequence, now, false, r.body.events)
    else
      var r := ResultRow(p, cmd, pending, None, now);
      Acknowledged(db.(results := db.results[(p, cmd.id) := r]), r.scope, None, now, false, r.body.events)
  }

  // ---------- transactions ----------

  predicate Authenticated(db: Db, p: Id, session: Id) {
    var t := Tables(db);
    && session in t.sessions && t.sessions[session].participant == p
    && t.sessions[session].status.SessionActive? && P.Live(t, p)
  }

  /** One command of participant `p` under `session`. */
  ghost function Execute(db0: Db, o: Options, p: Id, session: Id, cmd: Command, env: Env): Reply {
    var db := db0.(clock := env.now);
    if !Authenticated(db, p, session) then Rejected(db, Unauthorized)
    else if (p, cmd.id) in db.results then Replay(db, p, cmd, db.results[(p, cmd.id)])
    else if !cmd.action.MarkBall? && !Tables(db).participants[p].role.Host? then Rejected(db, Forbidden)
    else
      match Mutate(db, o, p, cmd, env)
      case Fault => Failed
      case Refused(after) => Rejected(after, InvalidCommand)
      case Done(after, pending) => Commit(after, p, cmd, pending, env.now)
  }

  datatype CallLease = CallLease(roundId: Id, deadline: Time)
  datatype CallOutcome = CallMade(db: Db) | CallStale | CallTooEarly | CallBlocked | CallExhausted(db: Db) | CallFailed

  predicate CallLeaseHolds(db: Db, l: CallLease) {
    && db.status.LobbyActive? && db.game.Some?
    && var r := db.game.value.round;
       r.id == l.roundId && r.stage.StageActive? && r.config.Automatic? && r.nextCallAt == Some(l.deadline)
  }

  /** The automatic-call lease falls due. */
  function ExecuteCall(db0: Db, l: CallLease, now: Time): CallOutcome {
    var db := db0.(clock := now);
    if !CallLeaseHolds(db, l) then CallStale
    else if now < l.deadline then CallTooEarly
    else if HasBlockingPresence(Tables(db), now) then CallBlocked
    else
      var g := db.game.value;
      match CommitCall(g, now, db.nextId)
      case CallFault => CallFailed
      case Exhausted => CallExhausted(db.(game := Some(g.(round := g.round.(nextCallAt := None)))))
      case Called(game, call) =>
        if !ValidPayload(CallPayload(call)) then CallFailed
        else CallMade(Append(db.(game := Some(game), nextId := db.nextId + 1), Some(g.round.id), CallPayload(call), now))
  }

  datatype WindowLease = WindowLease(roundId: Id, trigger: Id, deadline: Time)
  datatype SettleOutcome = Settled(db: Db) | SettleStale | SettleTooEarly | SettleFailed

  predicate WindowLeaseHolds(db: Db, l: WindowLease) {
    && db.status.LobbyActive? && db.game.Some?
    && var r := db.game.value.round;
       r.id == l.roundId && r.stage.StageWindow? && r.trigger == Some(l.trigger) && r.closesAt == Some(l.deadline)
  }

  /** The settlement lease of the co-winner window falls due. */
  function ExecuteSettlement(db0: Db, o: Options, l: WindowLease, now: Time): SettleOutcome {
    var db := db0.(clock := now);
    if !WindowLeaseHolds(db, l) then SettleStale
    else if now < l.deadline then SettleTooEarly
    else
      var g := db.game.value;
      if !Decide(g.round, o.catalog, M.Settle(now)).Accepted? || g.winners == map[] || g.round.openedAt.None? then SettleFailed else
      var result := WinnerResult(l.trigger, g.round.openedAt.value, l.deadline, now, g.winners.Keys);
      if !ValidResult(result) then SettleFailed
      else Settled(Append(db.(game := Some(g.(round := SettleRow(g.round, now)))), Some(g.round.id), ResultPayload(result), now))
  }

  /** The generation that a presence transaction announces. */
  ghost function Announced(w: C.World, op: C.Op): Option<(Id, P.Generation)> {
    var t := w.tables;
    match op
    case Connect(socket, p, session, now) =>
      if socket in w.sockets then None else
      var c := Q.Register(t, p, session, now);
      if c.announced.Some? then Some((p, c.announced.value)) else None
    case Release(socket, chosen, now, rejoinMs, graceMs) =>
      if socket !in w.sockets then None else
      var s := w.sockets[socket];
      var c := Q.Unregister(t, s.participant, s.session, s.number, chosen, now, rejoinMs, graceMs);
      if c.announced.Some? then Some((s.participant, c.announced.value)) else None
    case GraceElapses(lease, now) =>
      var r := Q.ExpireGrace(t, lease, now);
      if r.Expired? then Some((lease.participant, r.announced)) else None
    case _ => None
  }

  predicate ShouldPause(t: P.Tables, p: Id, r: Round) {
    && p in t.participants
    && (|| (r.stage.StageActive? && (t.participants[p].role.Host? || t.participants[p].eligibility.Playing?))
        || (t.participants[p].role.Host? && r.stage.StagePaused? && r.pauseReason != Some(M.HostAbsent)))
  }

  /** The absence of a participant pauses an active round, and that of the host also overwrites another pause. */
  function PauseForAbsence(db: Db, p: Id, now: Time): Option<Db> {
    if db.game.None? || !ShouldPause(Tables(db), p, db.game.value.round) then Some(db) else
    var g := db.game.value;
    var reason := if Tables(db).participants[p].role.Host? then M.HostAbsent else M.ParticipantAbsent;
    var paused := g.(round := PauseRow(g.round, reason, now));
    var published := Publish(paused);
    if published.None? then None
    else Some(Append(db.(game := Some(paused)), Some(g.round.id), StagePayload(published.value), now))
  }

  function TimeOf(op: C.Op, clock: Time): Time {
    match op
    case Expiry(now) => now
    case Connect(_, _, _, now) => now
    case Release(_, _, now, _, _) => now
    case GraceElapses(_, now) => now
    case OverrideAbsence(_, _, now) => now
    case Arrive(_, _, _, _, _, _, now) => now
    case Return(_, now) => now
    case Another(_, _, now) => now
    case Enroll => clock
  }

  /** A participant who joins before the first round plays; later ones wait. */
  function Resolved(db: Db, op: C.Op): C.Op {
    if op.Arrive? then op.(eligibility := if db.game.None? then P.Playing else P.Queued) else op
  }

  /** A connection, disconnection, grace expiry, join, rejoin or lazy expiry; None where it throws. */
  ghost function ExecutePresence(db0: Db, request: C.Op): Option<Db> {
    var op := Resolved(db0, request);
    var now := TimeOf(op, db0.clock);
    var announced := Announced(db0.world, op);
    var db := db0.(clock := now, world := C.Do(db0.world, op));
    if announced.None? then Some(db) else
    var (p, g) := announced.value;
    var published := Append(db, None, PresencePayload(p, g), now);
    if op.GraceElapses? then PauseForAbsence(published, p, now) else Some(published)
  }
}
