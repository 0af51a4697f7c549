/** The lease schedulers: timers, queue and executions of automatic calls, and of settlements, which work the same way. */
module Scheduler {

  import opened Common

  type Lobby = Id

  /** A lease object, told apart by `serial`; `key` stands for the round, the deadline and, for a settlement, the triggering call. */
  datatype Lease = Lease(serial: Id, lobby: Lobby, key: nat)

  datatype Timer = Timer(lease: Lease, handle: Id)

  /** An execution awaits its transaction; afterwards it awaits the reconciliation of its lobby. */
  datatype Phase = Executing | Settling

  datatype Task = Task(lease: Lease, phase: Phase)

  /**
   * `armed` are the host timers that may still fire, `tasks` the executions in flight by the serial number of their lease, `reconciling` the
   * latest reconciliation of each lobby and `finding` all that await their lease; `next` bounds the objects seen so far.
   */
  datatype State = State(
    timers: map<Lobby, Timer>,
    armed: map<Id, Lease>,
    queued: seq<Lease>,
    active: map<Lobby, Lease>,
    tasks: map<Id, Task>,
    reconciling: map<Lobby, Id>,
    finding: map<Id, Lobby>,
    recovering: bool,
    dirty: set<Lobby>,
    stopped: bool,
    next: Id)

  const MaxConcurrent := 8

  const Empty := State(map[], map[], [], map[], map[], map[], map[], false, {}, false, 0)

  // ---------- steps ----------

  predicate IsQueued(s: State, lobby: Lobby) {
    exists i | 0 <= i < |s.queued| :: s.queued[i].lobby == lobby
  }

  function QueuedKey(queued: seq<Lease>, lobby: Lobby): Option<nat> {
    if queued == [] then None
    else if queued[0].lobby == lobby then Some(queued[0].key)
    else QueuedKey(queued[1..], lobby)
  }

  function Dequeue(queued: seq<Lease>, lobby: Lobby): (r: seq<Lease>)
    ensures forall l :: l in r <==> l in queued && l.lobby != lobby
    ensures |r| <= |queued|
  {
    if queued == [] then []
    else (if queued[0].lobby == lobby then [] else [queued[0]]) + Dequeue(queued[1..], lobby)
  }

  /** The parts that scheduling reads and changes. */
  datatype Slots = Slots(timers: map<Lobby, Timer>, armed: map<Id, Lease>, queued: seq<Lease>)

  function SlotsOf(s: State): Slots {
    Slots(s.timers, s.armed, s.queued)
  }

  function WithSlots(s: State, x: Slots): State {
    s.(timers := x.timers, armed := x.armed, queued := x.queued)
  }

  function DisarmIn(x: Slots, lobby: Lobby): Slots {
    if lobby in x.timers then x.(timers := x.timers - {lobby}, armed := x.armed - {x.timers[lobby].handle}) else x
  }

  function Disarm(s: State, lobby: Lobby): State {
    WithSlots(s, DisarmIn(SlotsOf(s), lobby))
  }

  function ClearIn(x: Slots, lobby: Lobby): Slots {
    DisarmIn(x, lobby).(queued := Dequeue(x.queued, lobby))
  }

  /** The host timer of a lease has the lease's number as its handle. */
  function ArmIn(x: Slots, lease: Lease): Slots {
    var y := ClearIn(x, lease.lobby);
    y.(timers := y.timers[lease.lobby := Timer(lease, lease.serial)], armed := y.armed[lease.serial := lease])
  }

  /** Arms a timer for the lease, unless the lobby already has the same lease on a timer or in the queue. */
  function ScheduleIn(x: Slots, lease: Lease): Slots {
    if lease.lobby in x.timers && x.timers[lease.lobby].lease.key == lease.key then x
    else if QueuedKey(x.queued, lease.lobby) == Some(lease.key) then
      // an old timer would be cancelled here while its entry stays
      (if lease.lobby in x.timers then x.(armed := x.armed - {x.timers[lease.lobby].handle}) else x)
    else ArmIn(x, lease)
  }

  function Schedule(s: State, lease: Lease): State {
    if s.stopped then s else WithSlots(s, ScheduleIn(SlotsOf(s), lease))
  }

  /** Nothing is left to fire. */
  function Stop(s: State): State {
    s.(timers := map[], armed := map[], queued := [], reconciling := map[], stopped := true)
  }

  function FirstReady(queued: seq<Lease>, active: map<Lobby, Lease>): (r: Option<nat>)
    ensures r.Some? ==> r.value < |queued| && queued[r.value].lobby !in active
    ensures r.Some? ==> forall j | 0 <= j < r.value :: queued[j].lobby in active
    ensures r.None? ==> forall j | 0 <= j < |queued| :: queued[j].lobby in active
  {
    if queued == [] then None
    else if queued[0].lobby !in active then Some(0)
    else
      var rest := FirstReady(queued[1..], active);
      if rest.None? then
        assert forall j | 0 < j < |queued| :: queued[j] == queued[1..][j - 1];
        None
      else Some(rest.value + 1)
  }

  function StartTask(s: State, i: nat): State
    requires i < |s.queued|
  {
    var lease := s.queued[i];
    s.(queued := s.queued[..i] + s.queued[i + 1..], active := s.active[lease.lobby := lease],
       tasks := s.tasks[lease.serial := Task(lease, Executing)])
  }

  /** Starts queued leases of lobbies without an execution, up to the limit. */
  function Drain(s: State): State
    decreases |s.queued|
  {
    if s.stopped || |s.tasks| >= MaxConcurrent then s else
    var ready := FirstReady(s.queued, s.active);
    if ready.None? then s else Drain(StartTask(s, ready.value))
  }

  /** A host timer fires. */
  function Fire(s: State, handle: Id, maximumQueued: nat): State
    requires handle in s.armed
  {
    var lease := s.armed[handle];
    var t := s.(armed := s.armed - {handle});
    if lease.lobby !in t.timers || t.timers[lease.lobby].lease.key != lease.key then t else
    var u := t.(timers := t.timers - {lease.lobby});
    if !IsQueued(u, lease.lobby) && |u.queued| >= maximumQueued then Stop(u)
    else Drain(u.(queued := Dequeue(u.queued, lease.lobby) + [lease]))
  }

  function ReleaseActive(s: State, lease: Lease): State {
    if lease.lobby in s.active && s.active[lease.lobby] == lease then s.(active := s.active - {lease.lobby}) else s
  }

  /** The transaction of an execution has returned. */
  function Return(s: State, serial: Id): State
    requires serial in s.tasks
  {
    var task := s.tasks[serial];
    var t := s.(tasks := s.tasks[serial := Task(task.lease, Settling)]);
    if s.stopped then t else ReleaseActive(t, task.lease)
  }

  /** The execution is over. */
  function EndTask(s: State, serial: Id): State
    requires serial in s.tasks
  {
    var t := ReleaseActive(s, s.tasks[serial].lease);
    Drain(t.(tasks := t.tasks - {serial}))
  }

  /** A reconciliation starts: it awaits the current lease of the lobby, and replaces an earlier one. */
  function Reconcile(s: State, lobby: Lobby, token: Id): State {
    if s.stopped then s
    else if s.recovering then s.(dirty := s.dirty + {lobby})
    else s.(reconciling := s.reconciling[lobby := token], finding := s.finding[token := lobby])
  }

  /** The current lease of the lobby was found, or there is none. */
  function Found(s: State, token: Id, lease: Option<Lease>): State
    requires token in s.finding
  {
    var lobby := s.finding[token];
    var t := s.(finding := s.finding - {token});
    if lobby !in s.reconciling || s.reconciling[lobby] != token then t else
    var u := if lease.None? then WithSlots(t, ClearIn(SlotsOf(t), lobby)) else Schedule(t, lease.value);
    u.(reconciling := u.reconciling - {lobby})
  }

  function BeginRecovery(s: State): State {
    s.(recovering := true)
  }

  function ScheduleAll(s: State, leases: seq<Lease>): State {
    if leases == [] then s else
    var n := |leases| - 1;
    var t := ScheduleAll(s, leases[..n]);
    if leases[n].lobby in s.dirty then t else Schedule(t, leases[n])
  }

  /** The reconciliations of several lobbies start, with consecutive tokens. */
  function ReconcileAll(s: State, lobbies: seq<Lobby>, token: Id): State {
    if lobbies == [] then s else
    var n := |lobbies| - 1;
    Reconcile(ReconcileAll(s, lobbies[..n], token), lobbies[n], token + n)
  }

  /** The recovered leases are scheduled, except those of lobbies that changed meanwhile; these are reconciled. */
  function EndRecovery(s: State, leases: seq<Lease>, lobbies: seq<Lobby>, token: Id): State {
    ReconcileAll(ScheduleAll(s, leases).(recovering := false, dirty := {}), lobbies, token)
  }

  /** The transaction has returned, and the lobby is reconciled unless the call was blocked or no ball was left. */
  function ReturnAndLook(s: State, serial: Id, token: Option<Id>): State
    requires serial in s.tasks
  {
    if token.None? then Return(s, serial)
    else Reconcile(Return(s, serial), s.tasks[serial].lease.lobby, token.value).(next := token.value + 1)
  }

  datatype Event =
    | DoFire(handle: Id, maximumQueued: nat)
    | DoReturn(serial: Id, look: Option<Id>)
    | DoEnd(serial: Id)
    | DoReconcile(lobby: Lobby, token: Id)
    | DoFound(token: Id, lease: Option<Lease>)
    | DoBeginRecovery
    | DoEndRecovery(leases: seq<Lease>, lobbies: seq<Lobby>, token: Id)
    | DoStop

  /** Lease objects and tokens are new, and a lease is one of its lobby. The host timer of a lease gets the lease's number. */
  predicate Enabled(s: State, e: Event) {
    match e
    case DoFire(handle, _) => handle in s.armed
    case DoReturn(serial, token) =>
      serial in s.tasks && s.tasks[serial].phase.Executing? && (token.Some? ==> s.next <= token.value)
    case DoEnd(serial) => serial in s.tasks && (s.tasks[serial].phase.Settling? || s.stopped)
    case DoReconcile(_, token) => s.next <= token
    case DoFound(token, lease) =>
      token in s.finding && (lease.Some? ==> lease.value.lobby == s.finding[token] && s.next <= lease.value.serial)
    case DoBeginRecovery => !s.recovering
    case DoEndRecovery(leases, lobbies, token) =>
      && s.recovering && NewLeases(s.next, leases) && s.next <= token
      && (leases != [] ==> leases[|leases| - 1].serial < token) && Lists(lobbies, s.dirty)
    case DoStop => true
  }

  /** The members of the set, each once, in some order. */
  predicate Lists(lobbies: seq<Lobby>, dirty: set<Lobby>) {
    && (forall i, j | 0 <= i < j < |lobbies| :: lobbies[i] != lobbies[j])
    && (forall l | l in lobbies :: l in dirty) && (forall l | l in dirty :: l in lobbies)
  }

  /** Leases of different lobbies in the order of their objects. */
  predicate NewLeases(next: Id, leases: seq<Lease>) {
    && (forall i | 0 <= i < |leases| :: next <= leases[i].serial)
    && (forall i, j | 0 <= i < j < |leases| :: leases[i].serial < leases[j].serial && leases[i].lobby != leases[j].lobby)
  }

  function Later(next: Id, x: Id): Id {
    if x < next then next else x + 1
  }

  function After(s: State, e: Event): State
    requires Enabled(s, e)
  {
    match e
    case DoFire(handle, maximumQueued) => Fire(s, handle, maximumQueued)
    case DoReturn(serial, token) => ReturnAndLook(s, serial, token)
    case DoEnd(serial) => EndTask(s, serial)
    case DoReconcile(lobby, token) => Reconcile(s, lobby, token).(next := token + 1)
    case DoFound(token, lease) =>
      if lease.None? then Found(s, token, None) else Found(s, token, lease).(next := Later(s.next, lease.value.serial))
    case DoBeginRecovery => BeginRecovery(s)
    case DoEndRecovery(leases, lobbies, token) => EndRecovery(s, leases, lobbies, token).(next := token + |lobbies|)
    case DoStop => Stop(s)
  }

  // ---------- the invariant ----------

  /** The table of timers is exactly what the host has armed. */
  predicate TimersOk(timers: map<Lobby, Timer>, armed: map<Id, Lease>, next: Id) {
    && (forall l | l in timers ::
          && timers[l].lease.lobby == l && timers[l].handle == timers[l].lease.serial < next
          && timers[l].handle in armed && armed[timers[l].handle] == timers[l].lease)
    && (forall h | h in armed :: armed[h].lobby in timers && timers[armed[h].lobby] == Timer(armed[h], h))
  }

  predicate DistinctQueue(queued: seq<Lease>) {
    forall i, j | 0 <= i < j < |queued| :: queued[i].lobby != queued[j].lobby && queued[i].serial != queued[j].serial
  }

  /** A lobby is queued at most once, and not while it has a timer. */
  predicate QueueOk(queued: seq<Lease>, timers: map<Lobby, Timer>, next: Id) {
    DistinctQueue(queued) && forall l | l in queued :: l.serial < next && l.lobby !in timers
  }

  /** Every execution holds its lobby, and every lobby is held for a task in flight. */
  predicate TasksOk(tasks: map<Id, Task>, active: map<Lobby, Lease>, next: Id) {
    && |tasks| <= MaxConcurrent
    && (forall k | k in tasks :: k < next && tasks[k].lease.serial == k)
    && (forall k | k in tasks && tasks[k].phase.Executing? ::
          tasks[k].lease.lobby in active && active[tasks[k].lease.lobby] == tasks[k].lease)
    && (forall l | l in active ::
          active[l].lobby == l && active[l].serial in tasks && tasks[active[l].serial].lease == active[l])
  }

  /** A lease object is on a timer, in the queue or in flight, never in two places. */
  predicate Apart(timers: map<Lobby, Timer>, queued: seq<Lease>, tasks: set<Id>) {
    && (forall l | l in timers :: timers[l].lease.serial !in tasks)
    && (forall l | l in queued :: l.serial !in tasks)
    && (forall l, q | l in timers && q in queued :: timers[l].lease.serial != q.serial)
  }

  predicate FindsOk(finding: map<Id, Lobby>, reconciling: map<Lobby, Id>, next: Id) {
    && (forall k | k in finding :: k < next)
    && (forall l | l in reconciling :: reconciling[l] in finding && finding[reconciling[l]] == l)
  }

  /** A queued lease waits only for its lobby, for the limit, or for a task whose end will drain the queue. */
  predicate Busy(tasks: map<Id, Task>, queued: seq<Lease>, active: map<Lobby, Lease>) {
    || |tasks| >= MaxConcurrent
    || (exists k | k in tasks :: tasks[k].phase.Settling?)
    || forall l | l in queued :: l.lobby in active
  }

  predicate Resting(s: State) {
    && TimersOk(s.timers, s.armed, s.next) && QueueOk(s.queued, s.timers, s.next) && TasksOk(s.tasks, s.active, s.next)
    && Apart(s.timers, s.queued, s.tasks.Keys) && FindsOk(s.finding, s.reconciling, s.next)
    && (s.stopped ==> s.timers == map[] && s.armed == map[] && s.queued == [] && s.reconciling == map[])
  }

  predicate Inv(s: State) {
    Resting(s) && Busy(s.tasks, s.queued, s.active)
  }

  // ---------- draining ----------

  lemma DropDistinct(q: seq<Lease>, i: nat)
    requires i < |q| && DistinctQueue(q)
    ensures var r := q[..i] + q[i + 1..];
            DistinctQueue(r) && forall l | l in r :: l in q && l.serial != q[i].serial && l.lobby != q[i].lobby
  {
    var r := q[..i] + q[i + 1..];
    forall j | 0 <= j < |r| ensures r[j] == q[if j < i then j else j + 1] {}
  }

  lemma StartTasks(s: State, i: nat)
    requires Resting(s) && !s.stopped && |s.tasks| < MaxConcurrent && i < |s.queued| && s.queued[i].lobby !in s.active
    ensures var t := StartTask(s, i); TasksOk(t.tasks, t.active, t.next)
  {
    hide TimersOk, FindsOk, DistinctQueue;
    var t := StartTask(s, i);
    var lease := s.queued[i];
    assert lease in s.queued;
    assert |t.tasks| == |s.tasks| + 1;
    forall k | k in t.tasks && t.tasks[k].phase.Executing?
      ensures t.tasks[k].lease.lobby in t.active && t.active[t.tasks[k].lease.lobby] == t.tasks[k].lease
    {
      if k != lease.serial { assert s.tasks[k].lease.lobby != lease.lobby; }
    }
  }

  lemma StartQueue(s: State, i: nat)
    requires Resting(s) && i < |s.queued|
    ensures var t := StartTask(s, i);
            QueueOk(t.queued, t.timers, t.next) && Apart(t.timers, t.queued, t.tasks.Keys)
  {
    hide TimersOk, FindsOk, TasksOk, DistinctQueue;
    assert s.queued[i] in s.queued;
    DropDistinct(s.queued, i);
    assert StartTask(s, i).tasks.Keys == s.tasks.Keys + {s.queued[i].serial};
  }

  lemma StartKeeps(s: State, i: nat)
    requires Resting(s) && !s.stopped && |s.tasks| < MaxConcurrent && i < |s.queued| && s.queued[i].lobby !in s.active
    ensures Resting(StartTask(s, i))
  {
    hide TimersOk, FindsOk, TasksOk, QueueOk, Apart;
    StartTasks(s, i);
    StartQueue(s, i);
  }

  /** Draining keeps everything in its place and leaves no lease that could start. */
  lemma {:induction false} DrainKeeps(s: State)
    requires Resting(s)
    ensures Inv(Drain(s))
    ensures Drain(s).next == s.next && Drain(s).stopped == s.stopped && Drain(s).timers == s.timers
    decreases |s.queued|
  {
    hide Resting, StartTask;
    if !s.stopped && |s.tasks| < MaxConcurrent {
      var ready := FirstReady(s.queued, s.active);
      if ready.Some? {
        StartKeeps(s, ready.value);
        StartFrame(s, ready.value);
        DrainKeeps(StartTask(s, ready.value));
      }
    } else {
      StoppedIsIdle(s);
    }
  }

  lemma StoppedIsIdle(s: State)
    requires Resting(s)
    ensures s.stopped ==> s.queued == []
  {
  }

  lemma StartFrame(s: State, i: nat)
    requires i < |s.queued|
    ensures var t := StartTask(s, i);
            t.next == s.next && t.stopped == s.stopped && t.timers == s.timers && |t.queued| == |s.queued| - 1
  {
  }

  // ---------- scheduling ----------

  lemma {:induction false} QueuedKeyMeaning(queued: seq<Lease>, lobby: Lobby)
    ensures QueuedKey(queued, lobby).Some? <==> exists l | l in queued :: l.lobby == lobby
  {
    if queued != [] {
      QueuedKeyMeaning(queued[1..], lobby);
      forall l ensures l in queued <==> l == queued[0] || l in queued[1..] {}
    }
  }

  lemma TailDistinct(q: seq<Lease>)
    requires q != [] && DistinctQueue(q)
    ensures DistinctQueue(q[1..]) && forall l | l in q[1..] :: l.lobby != q[0].lobby && l.serial != q[0].serial
  {
    forall i | 0 <= i < |q[1..]| ensures q[1..][i] == q[i + 1] {}
  }

  lemma PrependDistinct(x: Lease, q: seq<Lease>)
    requires DistinctQueue(q) && forall l | l in q :: l.lobby != x.lobby && l.serial != x.serial
    ensures DistinctQueue([x] + q)
  {
  }

  lemma AppendDistinct(q: seq<Lease>, x: Lease)
    requires DistinctQueue(q) && forall l | l in q :: l.lobby != x.lobby && l.serial != x.serial
    ensures DistinctQueue(q + [x])
  {
  }

  lemma {:induction false} DequeueDistinct(q: seq<Lease>, lobby: Lobby)
    requires DistinctQueue(q)
    ensures DistinctQueue(Dequeue(q, lobby))
  {
    hide DistinctQueue;
    if q != [] {
      TailDistinct(q);
      DequeueDistinct(q[1..], lobby);
      PrependDistinct(q[0], Dequeue(q[1..], lobby));
      assert Dequeue(q, lobby) == if q[0].lobby == lobby then Dequeue(q[1..], lobby) else [q[0]] + Dequeue(q[1..], lobby);
    } else {
      assert Dequeue(q, lobby) == q;
    }
  }

  lemma BusyWithLess(tasks: map<Id, Task>, active: map<Lobby, Lease>, q: seq<Lease>, r: seq<Lease>)
    requires Busy(tasks, q, active) && forall l | l in r :: l in q
    ensures Busy(tasks, r, active)
  {
  }

  lemma DisarmTimers(timers: map<Lobby, Timer>, armed: map<Id, Lease>, next: Id, lobby: Lobby)
    requires TimersOk(timers, armed, next) && lobby in timers
    ensures TimersOk(timers - {lobby}, armed - {timers[lobby].handle}, next)
  {
  }

  lemma DisarmOthers(x: Slots, lobby: Lobby)
    ensures var y := DisarmIn(x, lobby);
            y.timers == x.timers - {lobby} && y.queued == x.queued && (lobby !in x.timers ==> y == x)
  {
    if lobby !in x.timers { assert x.timers - {lobby} == x.timers; }
  }

  lemma FewerTimers(s: State, timers: map<Lobby, Timer>)
    requires QueueOk(s.queued, s.timers, s.next) && Apart(s.timers, s.queued, s.tasks.Keys)
    requires forall l | l in timers :: l in s.timers && timers[l] == s.timers[l]
    ensures QueueOk(s.queued, timers, s.next) && Apart(timers, s.queued, s.tasks.Keys)
  {
    hide DistinctQueue;
  }

  /** The old timer of the lobby goes from the table and from the host. */
  lemma DisarmKeeps(s: State, lobby: Lobby)
    requires Inv(s)
    ensures Inv(Disarm(s, lobby))
    ensures lobby !in Disarm(s, lobby).timers && Disarm(s, lobby).queued == s.queued
  {
    hide TasksOk, FindsOk, QueueOk, Apart, TimersOk, Busy;
    DisarmOthers(SlotsOf(s), lobby);
    FewerTimers(s, s.timers - {lobby});
    if lobby in s.timers { DisarmTimers(s.timers, s.armed, s.next, lobby); }
  }

  lemma DequeueKeeps(s: State, lobby: Lobby)
    requires Inv(s)
    ensures Inv(s.(queued := Dequeue(s.queued, lobby)))
  {
    hide TasksOk, FindsOk, DistinctQueue, TimersOk, Busy, Dequeue;
    DequeueDistinct(s.queued, lobby);
    BusyWithLess(s.tasks, s.active, s.queued, Dequeue(s.queued, lobby));
    if s.stopped { NothingToDequeue(lobby); }
  }

  lemma NothingToDequeue(lobby: Lobby)
    ensures Dequeue([], lobby) == []
  {
  }

  lemma MoreNumbers(s: State, next: Id)
    requires Inv(s) && s.next <= next
    ensures Inv(s.(next := next))
  {
    hide Busy, Apart, DistinctQueue;
  }

  lemma ArmKeeps(t: State, lease: Lease)
    requires Inv(t) && !t.stopped && t.next <= lease.serial && lease.lobby !in t.timers && forall l | l in t.queued :: l.lobby != lease.lobby
    ensures Inv(t.(timers := t.timers[lease.lobby := Timer(lease, lease.serial)], armed := t.armed[lease.serial := lease],
                   next := lease.serial + 1))
  {
    hide Busy, DistinctQueue, TimersOk, QueueOk, TasksOk, Apart, FindsOk;
    ArmTimers(t.timers, t.armed, t.next, lease);
    ArmQueue(t, lease);
    ArmNumbers(t, lease);
  }

  lemma ArmTimers(timers: map<Lobby, Timer>, armed: map<Id, Lease>, next: Id, lease: Lease)
    requires TimersOk(timers, armed, next) && next <= lease.serial && lease.lobby !in timers
    ensures TimersOk(timers[lease.lobby := Timer(lease, lease.serial)], armed[lease.serial := lease], lease.serial + 1)
  {
  }

  lemma ArmQueue(t: State, lease: Lease)
    requires QueueOk(t.queued, t.timers, t.next) && t.next <= lease.serial && forall l | l in t.queued :: l.lobby != lease.lobby
    ensures QueueOk(t.queued, t.timers[lease.lobby := Timer(lease, lease.serial)], lease.serial + 1)
  {
    hide DistinctQueue;
  }

  lemma ArmNumbers(t: State, lease: Lease)
    requires Inv(t) && t.next <= lease.serial && lease.lobby !in t.timers
    ensures TasksOk(t.tasks, t.active, lease.serial + 1) && FindsOk(t.finding, t.reconciling, lease.serial + 1)
    ensures Apart(t.timers[lease.lobby := Timer(lease, lease.serial)], t.queued, t.tasks.Keys)
  {
    hide DistinctQueue, TimersOk, Busy;
  }

  /** With timers and queue apart, a scheduled lease never meets both an old timer and a queued copy. */
  lemma NotTwice(s: State, lobby: Lobby)
    requires Resting(s)
    ensures lobby in s.timers ==> forall l | l in s.queued :: l.lobby != lobby
  {
    hide TasksOk, FindsOk, TimersOk, DistinctQueue;
  }

  lemma ScheduleCases(s: State, lease: Lease)
    requires Resting(s)
    ensures Schedule(s, lease) == s || (!s.stopped && Schedule(s, lease) == WithSlots(s, ArmIn(SlotsOf(s), lease)))
  {
    hide Resting, Dequeue, ArmIn, QueuedKey;
    NotTwice(s, lease.lobby);
    QueuedKeyMeaning(s.queued, lease.lobby);
  }

  lemma ArmedSlots(s: State, lease: Lease)
    ensures var u := Disarm(s, lease.lobby);
            var t := u.(queued := Dequeue(u.queued, lease.lobby));
            WithSlots(s, ArmIn(SlotsOf(s), lease))
            == t.(timers := t.timers[lease.lobby := Timer(lease, lease.serial)], armed := t.armed[lease.serial := lease])
  {
    hide Dequeue;
  }

  lemma ScheduleKeeps(s: State, lease: Lease)
    requires Inv(s) && s.next <= lease.serial
    ensures Inv(Schedule(s, lease).(next := lease.serial + 1))
  {
    hide Disarm, Dequeue, Busy, Resting, Schedule, ArmIn, WithSlots;
    ScheduleCases(s, lease);
    MoreNumbers(s, lease.serial + 1);
    if !s.stopped {
      ArmedSlots(s, lease);
      DisarmKeeps(s, lease.lobby);
      var t := Disarm(s, lease.lobby);
      DisarmFrame(s, lease.lobby);
      DequeueKeeps(t, lease.lobby);
      ArmKeeps(t.(queued := Dequeue(t.queued, lease.lobby)), lease);
    }
  }

  lemma DisarmFrame(s: State, lobby: Lobby)
    ensures Disarm(s, lobby).next == s.next && Disarm(s, lobby).stopped == s.stopped
  {
    hide DisarmIn;
  }

  lemma ScheduleFrame(s: State, lease: Lease)
    ensures var t := Schedule(s, lease);
            t.reconciling == s.reconciling && t.dirty == s.dirty && t.next == s.next && t.stopped == s.stopped
  {
    hide ScheduleIn;
  }

  // ---------- every step keeps the invariant ----------

  lemma FireKeeps(s: State, handle: Id, maximumQueued: nat)
    requires Inv(s) && handle in s.armed
    ensures Inv(Fire(s, handle, maximumQueued))
    ensures var lease := s.armed[handle]; lease.lobby in s.timers && s.timers[lease.lobby].lease == lease
  {
    hide Busy, Drain, FindsOk, TasksOk, DistinctQueue, Dequeue, Resting, Disarm, Stop;
    var lease := s.armed[handle];
    FiredLease(s, handle);
    NotTwice(s, lease.lobby);
    DisarmKeeps(s, lease.lobby);
    var u := Disarm(s, lease.lobby);
    assert u == s.(armed := s.armed - {handle}, timers := s.timers - {lease.lobby}) by { DisarmIs(s, lease.lobby); }
    if !IsQueued(u, lease.lobby) && |u.queued| >= maximumQueued {
      StopKeeps(u);
    } else {
      DequeueKeeps(u, lease.lobby);
      AppendKeeps(u.(queued := Dequeue(u.queued, lease.lobby)), lease);
      DrainKeeps(u.(queued := Dequeue(u.queued, lease.lobby) + [lease]));
    }
  }

  lemma DisarmIs(s: State, lobby: Lobby)
    requires lobby in s.timers
    ensures Disarm(s, lobby) == s.(timers := s.timers - {lobby}, armed := s.armed - {s.timers[lobby].handle})
  {
  }

  lemma FiredLease(s: State, handle: Id)
    requires Inv(s) && handle in s.armed
    ensures var lease := s.armed[handle];
            && !s.stopped && lease.lobby in s.timers && s.timers[lease.lobby] == Timer(lease, handle) && lease.serial == handle
            && lease.serial < s.next && lease.serial !in s.tasks && lease.lobby !in Disarm(s, lease.lobby).timers
            && (forall l | l in s.queued :: l.serial != lease.serial)
            && (forall l | l in Disarm(s, lease.lobby).timers :: s.timers[l].lease.serial != lease.serial)
  {
    hide TasksOk, FindsOk, DistinctQueue, Busy;
  }

  lemma AppendKeeps(s: State, lease: Lease)
    requires Resting(s) && !s.stopped && lease.lobby !in s.timers && lease.serial < s.next && lease.serial !in s.tasks
    requires forall l | l in s.queued :: l.serial != lease.serial && l.lobby != lease.lobby
    requires forall l | l in s.timers :: s.timers[l].lease.serial != lease.serial
    ensures Resting(s.(queued := s.queued + [lease]))
  {
    hide TasksOk, FindsOk, DistinctQueue, TimersOk;
    AppendDistinct(s.queued, lease);
  }

  lemma StopKeeps(s: State)
    requires Resting(s)
    ensures Inv(Stop(s))
  {
    hide TasksOk;
  }

  lemma ReturnKeeps(s: State, serial: Id)
    requires Inv(s) && serial in s.tasks
    ensures Inv(Return(s, serial))
  {
    hide TimersOk, QueueOk, FindsOk, Apart, TasksOk;
    var t := Return(s, serial);
    ReplacedCount(s.tasks, serial, Task(s.tasks[serial].lease, Settling));
    assert t.tasks[serial].phase.Settling?;
    SettledTasks(s.tasks, s.active, s.next, serial);
  }

  lemma SettledTasks(tasks: map<Id, Task>, active: map<Lobby, Lease>, next: Id, serial: Id)
    requires TasksOk(tasks, active, next) && serial in tasks
    ensures var lease := tasks[serial].lease;
            var settled := tasks[serial := Task(lease, Settling)];
            && TasksOk(settled, active, next)
            && (lease.lobby in active && active[lease.lobby] == lease ==> TasksOk(settled, active - {lease.lobby}, next))
  {
    ReplacedCount(tasks, serial, Task(tasks[serial].lease, Settling));
  }

  lemma ReplacedCount(tasks: map<Id, Task>, k: Id, t: Task)
    requires k in tasks
    ensures |tasks[k := t]| == |tasks| && tasks[k := t].Keys == tasks.Keys
  {
    assert tasks[k := t].Keys == tasks.Keys;
    assert |tasks[k := t]| == |tasks[k := t].Keys| && |tasks| == |tasks.Keys|;
  }

  lemma EndKeeps(s: State, serial: Id)
    requires Inv(s) && serial in s.tasks
    ensures Inv(EndTask(s, serial))
  {
    hide Drain, Busy, Resting, ReleaseActive;
    EndedRests(s, serial);
    DrainKeeps(ReleaseActive(s, s.tasks[serial].lease).(tasks := ReleaseActive(s, s.tasks[serial].lease).tasks - {serial}));
  }

  lemma EndedRests(s: State, serial: Id)
    requires Resting(s) && serial in s.tasks
    ensures var t := ReleaseActive(s, s.tasks[serial].lease); Resting(t.(tasks := t.tasks - {serial}))
  {
    hide TimersOk, QueueOk, FindsOk, TasksOk, DistinctQueue;
    EndedTasks(s.tasks, s.active, s.next, serial);
  }

  lemma EndedTasks(tasks: map<Id, Task>, active: map<Lobby, Lease>, next: Id, serial: Id)
    requires TasksOk(tasks, active, next) && serial in tasks
    ensures var lease := tasks[serial].lease;
            if lease.lobby in active && active[lease.lobby] == lease then TasksOk(tasks - {serial}, active - {lease.lobby}, next)
            else TasksOk(tasks - {serial}, active, next)
  {
    RemovedCount(tasks, serial);
  }

  lemma RemovedCount(tasks: map<Id, Task>, k: Id)
    ensures |tasks - {k}| <= |tasks|
  {
    if k in tasks {
      assert tasks == (tasks - {k})[k := tasks[k]];
    } else {
      assert tasks - {k} == tasks;
    }
  }

  lemma ReconcileKeeps(s: State, lobby: Lobby, token: Id)
    requires Inv(s) && s.next <= token
    ensures Inv(Reconcile(s, lobby, token).(next := token + 1))
  {
    hide Busy, TimersOk, QueueOk, TasksOk, Apart;
    MoreNumbers(s, token + 1);
  }

  /** Only the latest reconciliation of a lobby has an effect. */
  lemma FoundKeeps(s: State, token: Id, lease: Option<Lease>)
    requires Inv(s) && Enabled(s, DoFound(token, lease))
    ensures Inv(After(s, DoFound(token, lease)))
  {
    hide Busy, Schedule, ClearIn, Resting;
    var lobby := s.finding[token];
    if lobby !in s.reconciling || s.reconciling[lobby] != token {
      UnfindKeeps(s, token);
      if lease.Some? { MoreNumbers(s.(finding := s.finding - {token}), Later(s.next, lease.value.serial)); }
    } else {
      CloseFindKeeps(s, token);
      FoundShape(s, token, lease);
      var r := s.(finding := s.finding - {token}, reconciling := s.reconciling - {lobby});
      if lease.None? {
        ClearKeeps(r, lobby);
      } else {
        ScheduleKeeps(r, lease.value);
      }
    }
  }

  lemma FoundShape(s: State, token: Id, lease: Option<Lease>)
    requires token in s.finding && s.finding[token] in s.reconciling && s.reconciling[s.finding[token]] == token
    ensures var lobby := s.finding[token];
            var r := s.(finding := s.finding - {token}, reconciling := s.reconciling - {lobby});
            && (lease.None? ==> Found(s, token, lease) == WithSlots(r, ClearIn(SlotsOf(r), lobby)))
            && (lease.Some? ==> Found(s, token, lease) == Schedule(r, lease.value))
  {
    hide ClearIn, ScheduleIn;
  }

  lemma ClearKeeps(s: State, lobby: Lobby)
    requires Inv(s)
    ensures Inv(WithSlots(s, ClearIn(SlotsOf(s), lobby)))
  {
    hide Inv, Dequeue, DisarmIn;
    DisarmKeeps(s, lobby);
    DequeueKeeps(Disarm(s, lobby), lobby);
  }

  lemma UnfindKeeps(s: State, token: Id)
    requires Inv(s) && token in s.finding
    requires s.finding[token] !in s.reconciling || s.reconciling[s.finding[token]] != token
    ensures Inv(s.(finding := s.finding - {token}))
  {
    hide TimersOk, QueueOk, TasksOk, Apart, Busy;
  }

  lemma CloseFindKeeps(s: State, token: Id)
    requires Inv(s) && token in s.finding && s.finding[token] in s.reconciling && s.reconciling[s.finding[token]] == token
    ensures Inv(s.(finding := s.finding - {token}, reconciling := s.reconciling - {s.finding[token]}))
  {
    hide TimersOk, QueueOk, TasksOk, Apart, Busy;
  }

  lemma {:induction false} ScheduleAllKeeps(s: State, leases: seq<Lease>)
    requires Inv(s) && NewLeases(s.next, leases)
    ensures var next := if leases == [] then s.next else Later(s.next, leases[|leases| - 1].serial);
            Inv(ScheduleAll(s, leases).(next := next))
    ensures ScheduleAll(s, leases).next == s.next
  {
    hide Inv, Schedule;
    if leases != [] {
      var n := |leases| - 1;
      ScheduleAllKeeps(s, leases[..n]);
      var t := ScheduleAll(s, leases[..n]);
      var next := if n == 0 then s.next else Later(s.next, leases[n - 1].serial);
      ScheduleIgnoresNext(t, leases[n], next);
      if n > 0 { assert leases[..n][n - 1] == leases[n - 1]; }
      if leases[n].lobby in s.dirty {
        MoreNumbers(t.(next := next), leases[n].serial + 1);
      } else {
        ScheduleKeeps(t.(next := next), leases[n]);
      }
    } else {
      assert s.(next := s.next) == s;
    }
  }

  lemma ScheduleIgnoresNext(s: State, lease: Lease, next: Id)
    ensures Schedule(s.(next := next), lease) == Schedule(s, lease).(next := next)
    ensures Schedule(s, lease).next == s.next
  {
    hide ScheduleIn;
  }

  lemma {:induction false} ReconcileAllKeeps(s: State, lobbies: seq<Lobby>, token: Id)
    requires Inv(s) && s.next <= token
    ensures Inv(ReconcileAll(s, lobbies, token).(next := token + |lobbies|))
  {
    hide Inv, Reconcile;
    if lobbies == [] {
      MoreNumbers(s, token);
    } else {
      var n := |lobbies| - 1;
      var t := ReconcileAll(s, lobbies[..n], token);
      ReconcileAllKeeps(s, lobbies[..n], token);
      ReconcileKeeps(t.(next := token + n), lobbies[n], token + n);
      ReconcileIgnoresNext(t, lobbies[n], token + n, token + n);
    }
  }

  lemma ReconcileIgnoresNext(s: State, lobby: Lobby, token: Id, next: Id)
    ensures Reconcile(s.(next := next), lobby, token) == Reconcile(s, lobby, token).(next := next)
    ensures Reconcile(s, lobby, token).next == s.next
  {
  }

  lemma {:induction false} ReconcileAllIgnoresNext(s: State, lobbies: seq<Lobby>, token: Id, next: Id)
    ensures ReconcileAll(s.(next := next), lobbies, token) == ReconcileAll(s, lobbies, token).(next := next)
  {
    hide Reconcile;
    if lobbies != [] {
      var n := |lobbies| - 1;
      ReconcileAllIgnoresNext(s, lobbies[..n], token, next);
      ReconcileIgnoresNext(ReconcileAll(s, lobbies[..n], token), lobbies[n], token + n, next);
    }
  }

  lemma RecoveryKeeps(s: State, leases: seq<Lease>, lobbies: seq<Lobby>, token: Id)
    requires Inv(s) && Enabled(s, DoEndRecovery(leases, lobbies, token))
    ensures Inv(After(s, DoEndRecovery(leases, lobbies, token)))
  {
    hide ScheduleAll, ReconcileAll, Inv, Lists, NewLeases;
    ScheduleAllKeeps(s, leases);
    var next := if leases == [] then s.next else Later(s.next, leases[|leases| - 1].serial);
    var t := ScheduleAll(s, leases);
    RecoveryFlags(t.(next := next), false, {});
    var u := t.(recovering := false, dirty := {});
    assert u.(next := next) == t.(next := next).(recovering := false, dirty := {});
    ReconcileAllKeeps(u.(next := next), lobbies, token);
    ReconcileAllIgnoresNext(u, lobbies, token, next);
  }

  lemma LookKeeps(s: State, serial: Id, token: Option<Id>)
    requires Inv(s) && Enabled(s, DoReturn(serial, token))
    ensures Inv(ReturnAndLook(s, serial, token))
  {
    hide Inv, Return, Reconcile;
    ReturnKeeps(s, serial);
    ReturnFrame(s, serial);
    if token.Some? { ReconcileKeeps(Return(s, serial), s.tasks[serial].lease.lobby, token.value); }
  }

  lemma ReturnFrame(s: State, serial: Id)
    requires serial in s.tasks
    ensures Return(s, serial).next == s.next && Return(s, serial).stopped == s.stopped && Return(s, serial).recovering == s.recovering
  {
  }

  lemma RecoveryFlags(s: State, recovering: bool, dirty: set<Lobby>)
    requires Inv(s)
    ensures Inv(s.(recovering := recovering, dirty := dirty))
  {
    hide TimersOk, QueueOk, TasksOk, Apart, Busy, FindsOk;
  }

  lemma StepKeeps(s: State, e: Event)
    requires Inv(s) && Enabled(s, e)
    ensures Inv(After(s, e))
  {
    hide Inv, Fire, ReturnAndLook, EndTask, Reconcile, Found, EndRecovery, Stop, NewLeases, Lists;
    match e
    case DoFire(handle, maximumQueued) => FireKeeps(s, handle, maximumQueued);
    case DoReturn(serial, token) => LookKeeps(s, serial, token);
    case DoEnd(serial) => EndKeeps(s, serial);
    case DoReconcile(lobby, token) => ReconcileKeeps(s, lobby, token);
    case DoFound(token, lease) => FoundKeeps(s, token, lease);
    case DoBeginRecovery => RecoveryFlags(s, true, s.dirty);
    case DoEndRecovery(leases, lobbies, token) => RecoveryKeeps(s, leases, lobbies, token);
    case DoStop => StopInv(s);
  }

  lemma StopInv(s: State)
    requires Inv(s)
    ensures Inv(Stop(s))
  {
    hide Busy, Resting;
    StopKeeps(s);
  }
}
