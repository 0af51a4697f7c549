/** The pure round state machine. */
module RoundMachine {

  import opened Common
  import opened Patterns

  datatype PauseReason = HostCommand | HostAbsent | ParticipantAbsent

  datatype State =
    | Waiting(initialMode: Mode, mode: Mode, createdAt: Time)
    | Active(initialMode: Mode, mode: Mode, createdAt: Time, startedAt: Time, activeAt: Time)
    | Paused(initialMode: Mode, mode: Mode, createdAt: Time, startedAt: Time, reason: PauseReason, pausedAt: Time)
    | Window(initialMode: Mode, mode: Mode, createdAt: Time, startedAt: Time, openedAt: Time, closesAt: Time)
    | Result(initialMode: Mode, mode: Mode, createdAt: Time, startedAt: Time, settledAt: Time)
    | Ended(initialMode: Mode, mode: Mode, createdAt: Time, startedAt: Time, endedAt: Time)

  datatype Command =
    | Start(at: Time)
    | Pause(reason: PauseReason, at: Time)
    | Resume(at: Time)
    | OpenWindow(at: Time, closesAt: Time)
    | Settle(at: Time)
    | Continue(mode: Mode, at: Time)
    | End(at: Time)

  /** `BadTime` is the range error the machine throws. */
  datatype Outcome = Next(state: State) | NotAllowed | ContinuationNotAllowed | StillOpen | BadTime

  function NewRound(mode: Mode, createdAt: Time): State {
    Waiting(mode, mode, createdAt)
  }

  function Transition(s: State, c: Command): Outcome {
    match c
    case Start(at) =>
      if !s.Waiting? then NotAllowed
      else if at < s.createdAt then BadTime
      else Next(Active(s.initialMode, s.mode, s.createdAt, at, at))
    case Pause(reason, at) =>
      if !s.Active? then NotAllowed
      else if at < s.activeAt then BadTime
      else Next(Paused(s.initialMode, s.mode, s.createdAt, s.startedAt, reason, at))
    case Resume(at) =>
      if !s.Paused? then NotAllowed
      else if at < s.pausedAt then BadTime
      else Next(Active(s.initialMode, s.mode, s.createdAt, s.startedAt, at))
    case OpenWindow(at, closesAt) =>
      if closesAt <= at then BadTime
      else if !s.Active? && !s.Paused? then NotAllowed
      else if at < (if s.Active? then s.activeAt else s.pausedAt) then BadTime
      else Next(Window(s.initialMode, s.mode, s.createdAt, s.startedAt, at, closesAt))
    case Settle(at) =>
      if !s.Window? then NotAllowed
      else if at < s.closesAt then StillOpen
      else Next(Result(s.initialMode, s.mode, s.createdAt, s.startedAt, at))
    case Continue(mode, at) =>
      if !s.Result? then NotAllowed
      else if at < s.settledAt then BadTime
      else if s.initialMode != OneLine || s.mode == Blackout then ContinuationNotAllowed
      else if mode != Successor(s.mode) then ContinuationNotAllowed
      else Next(Active(s.initialMode, mode, s.createdAt, s.startedAt, at))
    case End(at) =>
      if s.Waiting? || s.Window? || s.Ended? then NotAllowed
      else if at < LatestAt(s) then BadTime
      else Next(Ended(s.initialMode, s.mode, s.createdAt, s.startedAt, at))
  }

  function Successor(mode: Mode): Mode {
    if mode == OneLine then TwoLines else Blackout
  }

  function LatestAt(s: State): Time {
    match s
    case Waiting(_, _, createdAt) => createdAt
    case Active(_, _, _, _, activeAt) => activeAt
    case Paused(_, _, _, _, _, pausedAt) => pausedAt
    case Window(_, _, _, _, openedAt, _) => openedAt
    case Result(_, _, _, _, settledAt) => settledAt
    case Ended(_, _, _, _, endedAt) => endedAt
  }

  /** A non-blackout mode after a start with One Line, and otherwise the starting mode. */
  predicate ModeReachable(initialMode: Mode, mode: Mode) {
    if initialMode == OneLine then mode != Exact else mode == initialMode
  }

  /** One Line, Two Lines and Blackout in the order a round may go through them. */
  function ModeRank(mode: Mode): nat {
    match mode
    case OneLine => 0
    case TwoLines => 1
    case Blackout => 2
    case Exact => 0
  }
}
