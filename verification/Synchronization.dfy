/** One socket of a lobby: the snapshot handshake that buffers events, and why a ready socket misses and repeats nothing. */
module Synchronization {

  import opened Common

  // ---------- state ----------

  /** What the socket does with a lobby event; a pending synchronization remembers the baseline it may fall back to. */
  datatype Mode =
    | Unset
    | Pending(buffer: seq<nat>, previous: Option<nat>)
    | Ready(baseline: nat)

  /** Where the handshake awaits: for the rooms, for the snapshot, or, with the snapshot read, for its return. */
  datatype Phase = Resting | Joining | Reading | Returned(baseline: nat)

  /** The fan-out of the next event: waiting for the list of sockets, about to reach this one, or past it. */
  datatype Fanout = Quiet | Listing | Approaching | Passed

  /** `log` holds the lobby events that the client received since its last snapshot, which had the baseline `base`. */
  datatype State = State(
    committed: nat,
    delivered: nat,
    fanout: Fanout,
    connected: bool,
    joined: bool,
    mode: Mode,
    phase: Phase,
    base: Option<nat>,
    log: seq<nat>)

  function Start(committed: nat, delivered: nat): State {
    State(committed, delivered, Quiet, true, false, Unset, Resting, None, [])
  }

  // ---------- the client's view ----------

  /** lo, lo + 1, ..., hi - 1. */
  function Range(lo: nat, hi: nat): (r: seq<nat>)
    ensures |r| == if lo <= hi then hi - lo else 0
    ensures forall i | 0 <= i < |r| :: r[i] == lo + i
  {
    if lo >= hi then [] else seq(hi - lo, i requires 0 <= i < hi - lo => lo + i)
  }

  function Max(a: nat, b: nat): nat {
    if a < b then b else a
  }

  /** The last event whose fan-out is past this socket. */
  function Reached(s: State): nat {
    if s.fanout.Passed? then s.delivered + 1 else s.delivered
  }

  function Above(events: seq<nat>, baseline: nat): (r: seq<nat>)
    ensures forall x | x in r :: x in events && x > baseline
  {
    if events == [] then []
    else Above(events[..|events| - 1], baseline) + if events[|events| - 1] > baseline then [events[|events| - 1]] else []
  }

  function Insert(x: nat, s: seq<nat>): seq<nat> {
    if s == [] || s[|s| - 1] <= x then s + [x] else Insert(x, s[..|s| - 1]) + [s[|s| - 1]]
  }

  /** The stable sort by sequence. */
  function Sorted(s: seq<nat>): seq<nat> {
    if s == [] then [] else Insert(s[|s| - 1], Sorted(s[..|s| - 1]))
  }

  // ---------- steps ----------

  datatype Event =
    | Commit          // an event is committed
    | BeginFanout     // the drainer takes the next event
    | ListSockets     // the sockets of the room are listed
    | ReachSocket     // this socket is authorized and handled
    | EndFanout       // all sockets are handled
    | BeginFirst      // the connection's own handshake
    | JoinRooms
    | BeginResync     // a handshake on request of the client
    | ReadSnapshot    // the snapshot transaction reads the last event sequence
    | Flush           // the snapshot arrives and is sent
    | Fail            // joining, reading or checking the snapshot throws
    | Drop            // the socket goes, also when it overflows or loses its authorization

  predicate Enabled(s: State, e: Event) {
    match e
    case Commit => true
    case BeginFanout => s.fanout.Quiet? && s.delivered < s.committed
    case ListSockets => s.fanout.Listing?
    case ReachSocket => s.fanout.Approaching?
    case EndFanout => s.fanout.Passed?
    case BeginFirst => s.mode.Unset? && s.phase.Resting? && !s.joined
    case JoinRooms => s.phase.Joining?
    case BeginResync => s.mode.Ready? && s.phase.Resting?
    case ReadSnapshot => s.phase.Reading?
    case Flush => s.phase.Returned? && s.mode.Pending?
    case Fail => !s.phase.Resting? && s.mode.Pending?
    case Drop => true
  }

  function Step(s: State, e: Event): State
    requires Enabled(s, e)
  {
    match e
    case Commit => s.(committed := s.committed + 1)
    case BeginFanout => s.(fanout := Listing)
    case ListSockets => s.(fanout := if s.joined && s.connected then Approaching else Passed)
    case ReachSocket =>
      var event := s.delivered + 1;
      var t := s.(fanout := Passed);
      if s.mode.Pending? then t.(mode := Pending(s.mode.buffer + [event], s.mode.previous))
      else if s.mode.Ready? && event <= s.mode.baseline then t
      else t.(log := s.log + [event])
    case EndFanout => s.(fanout := Quiet, delivered := s.delivered + 1)
    case BeginFirst => s.(mode := Pending([], None), phase := Joining)
    case JoinRooms => s.(joined := true, phase := Reading)
    case BeginResync => s.(mode := Pending([], Some(s.mode.baseline)), phase := Reading)
    case ReadSnapshot => s.(phase := Returned(s.committed))
    case Flush =>
      if !s.connected then s.(phase := Resting) else
      var b := s.phase.baseline;
      s.(base := Some(b), log := Sorted(Above(s.mode.buffer, b)), mode := Ready(b), phase := Resting)
    case Fail =>
      if !s.connected then s.(phase := Resting)
      else if s.mode.previous.Some? then
        var b := s.mode.previous.value;
        s.(log := s.log + Sorted(Above(s.mode.buffer, b)), mode := Ready(b), phase := Resting)
      else s.(connected := false, phase := Resting)
    case Drop => s.(connected := false)
  }

  // ---------- the invariant ----------

  /** A buffer holds consecutive events up to the last one past the socket, and starts at or below any snapshot read since. */
  predicate BufferOk(s: State)
    requires s.mode.Pending?
  {
    var n := |s.mode.buffer|;
    && n <= Reached(s)
    && s.mode.buffer == Range(Reached(s) - n + 1, Reached(s) + 1)
    && (!s.joined ==> n == 0 && s.phase.Joining?)
    && !s.phase.Resting?
    && (s.phase.Joining? ==> !s.joined)
    && (s.phase.Returned? ==> Reached(s) - n <= s.phase.baseline <= s.committed)
    && (s.mode.previous.Some? ==>
          && s.joined && s.base == s.mode.previous && s.mode.previous.value <= s.committed
          && s.log == Range(s.mode.previous.value + 1, Max(s.mode.previous.value, Reached(s) - n) + 1))
  }

  predicate ReadyOk(s: State)
    requires s.mode.Ready?
  {
    && s.joined && s.phase.Resting? && s.base == Some(s.mode.baseline) && s.mode.baseline <= s.committed
    && s.log == Range(s.mode.baseline + 1, Max(s.mode.baseline, Reached(s)) + 1)
  }

  predicate Inv(s: State) {
    && s.delivered <= s.committed
    && (!s.fanout.Quiet? ==> s.delivered < s.committed)
    && (s.connected ==>
          && (s.mode.Unset? ==> !s.joined && s.phase.Resting?)
          && (s.mode.Pending? ==> BufferOk(s))
          && (s.mode.Ready? ==> ReadyOk(s)))
    && (s.fanout.Approaching? ==> s.joined)
  }

  // ---------- buffers flush into ranges ----------

  lemma {:induction false} InsertLast(x: nat, s: seq<nat>)
    requires forall y | y in s :: y <= x
    ensures Insert(x, s) == s + [x]
  {
    if s != [] { assert s[|s| - 1] in s; }
  }

  /** An ascending buffer is flushed in its own order. */
  lemma {:induction false} AscendingIsSorted(s: seq<nat>)
    requires forall i, j | 0 <= i < j < |s| :: s[i] <= s[j]
    ensures Sorted(s) == s
  {
    if s != [] {
      AscendingIsSorted(s[..|s| - 1]);
      InsertLast(s[|s| - 1], s[..|s| - 1]);
    }
  }

  lemma RangeEmpty(lo: nat, hi: nat)
    requires lo >= hi
    ensures Range(lo, hi) == []
  {
  }

  lemma AboveSnoc(s: seq<nat>, x: nat, b: nat)
    ensures x > b ==> Above(s + [x], b) == Above(s, b) + [x]
    ensures x <= b ==> Above(s + [x], b) == Above(s, b)
  {
    assert (s + [x])[..|s|] == s;
  }

  lemma {:induction false} AboveRange(lo: nat, hi: nat, b: nat)
    ensures Above(Range(lo, hi), b) == Range(Max(lo, b + 1), hi)
    decreases hi
  {
    hide Range, Above;
    if lo < hi {
      AboveRange(lo, hi - 1, b);
      RangeExtends(lo, hi - 1);
      AboveSnoc(Range(lo, hi - 1), hi - 1, b);
      if hi - 1 > b {
        RangeExtends(Max(lo, b + 1), hi - 1);
      } else {
        RangeEmpty(Max(lo, b + 1), hi);
        RangeEmpty(Max(lo, b + 1), hi - 1);
      }
    } else {
      RangeEmpty(lo, hi);
      RangeEmpty(Max(lo, b + 1), hi);
      AboveNone(b);
    }
  }

  lemma AboveNone(b: nat)
    ensures Above([], b) == []
  {
  }

  lemma NothingSorted(b: nat)
    ensures Sorted(Above([], b)) == []
  {
  }

  lemma SortedSnoc(s: seq<nat>, x: nat)
    ensures Sorted(s + [x]) == Insert(x, Sorted(s))
  {
    assert (s + [x])[..|s|] == s;
  }

  /** What flushing a buffer of consecutive events over a baseline sends. */
  lemma Flushed(lo: nat, hi: nat, b: nat)
    ensures Sorted(Above(Range(lo, hi), b)) == Range(Max(lo, b + 1), hi)
  {
    hide Above, Sorted;
    AboveRange(lo, hi, b);
    AscendingIsSorted(Range(Max(lo, b + 1), hi));
  }

  lemma RangeExtends(lo: nat, hi: nat)
    requires lo <= hi
    ensures Range(lo, hi + 1) == Range(lo, hi) + [hi]
  {
  }

  lemma RangesJoin(lo: nat, mid: nat, hi: nat)
    requires lo <= mid <= hi
    ensures Range(lo, mid) + Range(mid, hi) == Range(lo, hi)
  {
  }

  // ---------- every step keeps the invariant ----------

  lemma ReachKeeps(s: State)
    requires Inv(s) && Enabled(s, ReachSocket)
    ensures Inv(Step(s, ReachSocket))
  {
    var event := s.delivered + 1;
    if s.connected && s.mode.Pending? {
      var n := |s.mode.buffer|;
      RangeExtends(s.delivered - n + 1, event);
    }
    if s.connected && s.mode.Ready? && event > s.mode.baseline {
      RangeExtends(s.mode.baseline + 1, event);
    }
  }

  /** A snapshot at or above the start of the buffer continues without a gap. */
  lemma FlushJoins(n: nat, r: nat, b: nat)
    requires n <= r && r - n <= b
    ensures Sorted(Above(Range(r - n + 1, r + 1), b)) == Range(b + 1, Max(b, r) + 1)
  {
    hide Above, Sorted, Range;
    Flushed(r - n + 1, r + 1, b);
    if r <= b {
      RangeEmpty(b + 1, r + 1);
      RangeEmpty(b + 1, b + 1);
    }
  }

  /** What was shown above the old baseline and what was buffered join without a gap. */
  lemma FallbackJoins(n: nat, r: nat, b: nat)
    requires n <= r
    ensures Above(Range(r - n + 1, r + 1), b) == Sorted(Above(Range(r - n + 1, r + 1), b))
    ensures Range(b + 1, Max(b, r - n) + 1) + Above(Range(r - n + 1, r + 1), b) == Range(b + 1, Max(b, r) + 1)
  {
    hide Above, Sorted, Range;
    Flushed(r - n + 1, r + 1, b);
    AboveRange(r - n + 1, r + 1, b);
    if r - n >= b {
      RangesJoin(b + 1, r - n + 1, r + 1);
    } else {
      RangeEmpty(b + 1, Max(b, r - n) + 1);
      if r <= b {
        RangeEmpty(b + 1, r + 1);
        RangeEmpty(b + 1, b + 1);
      }
    }
  }

  lemma FlushKeeps(s: State)
    requires Inv(s) && Enabled(s, Flush)
    ensures Inv(Step(s, Flush))
  {
    hide Above, Sorted, Range;
    if s.connected {
      FlushJoins(|s.mode.buffer|, Reached(s), s.phase.baseline);
    }
  }

  lemma FailKeeps(s: State)
    requires Inv(s) && Enabled(s, Fail)
    ensures Inv(Step(s, Fail))
  {
    hide Above, Sorted, Range;
    if s.connected && s.mode.previous.Some? {
      FallbackJoins(|s.mode.buffer|, Reached(s), s.mode.previous.value);
    }
  }

  lemma NothingBuffered(s: State)
    ensures Range(Reached(s) + 1, Reached(s) + 1) == []
  {
  }

  lemma BeginKeeps(s: State, e: Event)
    requires Inv(s) && Enabled(s, e) && (e.BeginFirst? || e.BeginResync?)
    ensures Inv(Step(s, e))
  {
    hide Range;
    NothingBuffered(s);
  }

  /** Commits, listing, joining, reading and dropping move no event. */
  lemma QuietKeeps(s: State, e: Event)
    requires Inv(s) && Enabled(s, e)
    requires e.Commit? || e.BeginFanout? || e.EndFanout? || e.JoinRooms? || e.ReadSnapshot? || e.Drop?
    ensures Inv(Step(s, e))
  {
    hide Range;
  }

  lemma ListKeeps(s: State)
    requires Inv(s) && Enabled(s, ListSockets)
    ensures Inv(Step(s, ListSockets))
  {
    hide Range;
    NothingBuffered(Step(s, ListSockets));
    NothingBuffered(s);
  }

  lemma StepKeeps(s: State, e: Event)
    requires Inv(s) && Enabled(s, e)
    ensures Inv(Step(s, e))
  {
    hide Inv, Step, Enabled;
    match e
    case ReachSocket => ReachKeeps(s);
    case Flush => FlushKeeps(s);
    case Fail => FailKeeps(s);
    case BeginResync => BeginKeeps(s, e);
    case BeginFirst => BeginKeeps(s, e);
    case ListSockets => ListKeeps(s);
    case Commit => QuietKeeps(s, e);
    case BeginFanout => QuietKeeps(s, e);
    case EndFanout => QuietKeeps(s, e);
    case JoinRooms => QuietKeeps(s, e);
    case ReadSnapshot => QuietKeeps(s, e);
    case Drop => QuietKeeps(s, e);
  }

  // ---------- runs ----------

  predicate CanRun(s: State, events: seq<Event>)
    decreases |events|, 0
  {
    events == [] ||
    (CanRun(s, events[..|events| - 1]) && Enabled(Run(s, events[..|events| - 1]), events[|events| - 1]))
  }

  function Run(s: State, events: seq<Event>): State
    requires CanRun(s, events)
    decreases |events|, 1
  {
    if events == [] then s else Step(Run(s, events[..|events| - 1]), events[|events| - 1])
  }

  lemma {:induction false} RunKeeps(s: State, events: seq<Event>)
    requires Inv(s) && CanRun(s, events)
    ensures Inv(Run(s, events))
  {
    if events != [] {
      RunKeeps(s, events[..|events| - 1]);
      StepKeeps(Run(s, events[..|events| - 1]), events[|events| - 1]);
    }
  }

  /**
   * In every interleaving, a ready socket has received since its last snapshot exactly the events after the
   * snapshot's baseline up to the last one whose fan-out is past it: none missing, repeated or out of order.
   */
  lemma ReadyIsGapless(committed: nat, delivered: nat, events: seq<Event>)
    requires delivered <= committed && CanRun(Start(committed, delivered), events)
    ensures var s := Run(Start(committed, delivered), events);
            s.connected && s.mode.Ready? ==>
              && s.base.Some? && s.base.value <= s.committed
              && s.log == Range(s.base.value + 1, Max(s.base.value, Reached(s)) + 1)
              && (s.fanout.Quiet? ==> s.log == Range(s.base.value + 1, Max(s.base.value, s.delivered) + 1))
  {
    hide Range, Run, CanRun;
    RunKeeps(Start(committed, delivered), events);
  }

  /** While a handshake is pending, what was shown before it plus the buffer is still gapless above the old baseline. */
  lemma PendingLosesNothing(committed: nat, delivered: nat, events: seq<Event>)
    requires delivered <= committed && CanRun(Start(committed, delivered), events)
    ensures var s := Run(Start(committed, delivered), events);
            s.connected && s.mode.Pending? && s.mode.previous.Some? ==>
              s.log + Above(s.mode.buffer, s.mode.previous.value)
              == Range(s.mode.previous.value + 1, Max(s.mode.previous.value, Reached(s)) + 1)
  {
    hide Above, Sorted, Range, Run, CanRun;
    RunKeeps(Start(committed, delivered), events);
    var s := Run(Start(committed, delivered), events);
    if s.connected && s.mode.Pending? && s.mode.previous.Some? {
      FallbackJoins(|s.mode.buffer|, Reached(s), s.mode.previous.value);
    }
  }

  lemma LastOf(events: seq<Event>, e: Event)
    ensures (events + [e])[..|events + [e]| - 1] == events && (events + [e])[|events + [e]| - 1] == e
  {
  }

  /**
   * A handshake that succeeds makes the socket ready at the baseline of its snapshot; one that fails makes it ready again at
   * the old baseline, with everything delivered since, or drops a socket that was never ready.
   */
  lemma HandshakeEnds(committed: nat, delivered: nat, events: seq<Event>, e: Event)
    requires delivered <= committed && CanRun(Start(committed, delivered), events + [e]) && CanRun(Start(committed, delivered), events)
    requires Run(Start(committed, delivered), events).connected && (e.Flush? || e.Fail?)
    ensures var s := Run(Start(committed, delivered), events);
            var t := Run(Start(committed, delivered), events + [e]);
            && Enabled(s, e) && t.phase.Resting?
            && (e.Flush? ==> s.phase.Returned? && t.connected && t.mode == Ready(s.phase.baseline) && t.base == Some(s.phase.baseline))
            && (e.Fail? ==> (t.connected <==> s.mode.previous.Some?) && t.base == s.base)
            && (e.Fail? && t.connected ==> t.mode == Ready(s.mode.previous.value))
            && (t.connected ==>
                  t.base.Some? && t.mode.Ready? && t.mode.baseline == t.base.value
                  && t.log == Range(t.base.value + 1, Max(t.base.value, Reached(t)) + 1))
  {
    hide Range, Above, Sorted, Inv;
    var start := Start(committed, delivered);
    LastOf(events, e);
    ReadyIsGapless(committed, delivered, events + [e]);
    StartOk(committed, delivered);
    RunKeeps(start, events + [e]);
    ReadyAtBase(Run(start, events + [e]));
  }

  lemma StartOk(committed: nat, delivered: nat)
    requires delivered <= committed
    ensures Inv(Start(committed, delivered))
  {
    hide Range, Above;
  }

  lemma ReadyAtBase(s: State)
    requires Inv(s)
    ensures s.connected && s.mode.Ready? ==> s.base == Some(s.mode.baseline)
  {
    hide Range, Above, Sorted;
  }

  /** The snapshot's baseline is the last event committed when it was read, and only a drop or a first failure disconnects. */
  lemma StaysConnected(s: State, e: Event)
    requires Enabled(s, e) && s.connected
    ensures e.ReadSnapshot? ==> Step(s, e).phase == Returned(s.committed)
    ensures Step(s, e).connected <==> !(e.Drop? || (e.Fail? && s.mode.previous.None?))
  {
    hide Above, Sorted;
  }

  // ---------- the socket as it is updated in place ----------

  class Socket {
    var connected: bool
    var joined: bool
    var mode: Mode
    ghost var committed: nat
    ghost var delivered: nat
    ghost var fanout: Fanout
    ghost var phase: Phase
    ghost var base: Option<nat>
    ghost var log: seq<nat>

    constructor (ghost committed: nat, ghost delivered: nat)
      ensures Contents() == Start(committed, delivered)
    {
      connected, joined, mode := true, false, Unset;
      this.committed, this.delivered, fanout, phase, base, log := committed, delivered, Quiet, Resting, None, [];
    }

    ghost function Contents(): State
      reads this
    {
      State(committed, delivered, fanout, connected, joined, mode, phase, base, log)
    }

    method Emit(event: nat)
      modifies this`log
      ensures log == old(log) + [event]
    {
      log := log + [event];
    }

    /** The stretch of a fan-out between the authorization of this socket and its next await. */
    method HandleLobbyEvent(event: nat)
      requires Enabled(Contents(), ReachSocket) && event == delivered + 1
      modifies this
      ensures Contents() == Step(old(Contents()), ReachSocket)
    {
      fanout := Passed;
      if mode.Pending? {
        mode := Pending(mode.buffer + [event], mode.previous);
      } else if mode.Ready? && event <= mode.baseline {
        return;
      } else {
        Emit(event);
      }
    }

    /** Sends the buffered events above the baseline in ascending order. */
    method FlushBuffer(buffer: seq<nat>, baseline: nat)
      modifies this`log
      ensures log == old(log) + Sorted(Above(buffer, baseline))
    {
      hide Insert, Above, Sorted;
      NothingSorted(baseline);
      var kept: seq<nat> := [];
      for i := 0 to |buffer|
        invariant kept == Sorted(Above(buffer[..i], baseline)) && log == old(log)
      {
        assert buffer[..i + 1] == buffer[..i] + [buffer[i]];
        AboveSnoc(buffer[..i], buffer[i], baseline);
        if buffer[i] > baseline {
          SortedSnoc(Above(buffer[..i], baseline), buffer[i]);
          kept := Insert(buffer[i], kept);
        }
      }
      assert buffer[..|buffer|] == buffer;
      assert kept == Sorted(Above(buffer, baseline));
      ghost var before := log;
      for i := 0 to |kept|
        invariant log == before + kept[..i]
      {
        Emit(kept[i]);
      }
      assert kept[..|kept|] == kept;
      assert log == before + kept;
    }

    /** Starts a handshake: from now on events are buffered. */
    method BeginHandshake(joinRooms: bool)
      requires Enabled(Contents(), if joinRooms then BeginFirst else BeginResync)
      modifies this
      ensures Contents() == Step(old(Contents()), if joinRooms then BeginFirst else BeginResync)
    {
      mode := Pending([], if mode.Ready? then Some(mode.baseline) else None);
      phase := if joinRooms then Joining else Reading;
    }

    /** The snapshot has arrived: it is sent, then what was buffered above its baseline. */
    method CompleteHandshake(baseline: nat) returns (ok: bool)
      requires Enabled(Contents(), Event.Flush) && phase == Returned(baseline)
      modifies this
      ensures Contents() == Step(old(Contents()), Event.Flush) && ok == connected
    {
      hide Above, Sorted;
      phase := Resting;
      if !connected { return false; }
      base, log := Some(baseline), [];
      FlushBuffer(mode.buffer, baseline);
      mode := Ready(baseline);
      return true;
    }

    /** The handshake threw: an earlier baseline is kept and what was buffered is sent, or else the socket goes. */
    method AbandonHandshake()
      requires Enabled(Contents(), Event.Fail)
      modifies this
      ensures Contents() == Step(old(Contents()), Event.Fail)
    {
      phase := Resting;
      if connected {
        if mode.previous.Some? {
          FlushBuffer(mode.buffer, mode.previous.value);
          mode := Ready(mode.previous.value);
        } else {
          connected := false;
        }
      }
    }
  }
}
