/** The lease scheduler over whole runs, and the scheduler as it is updated in place. */
module SchedulerRuns {

  import opened Common
  import opened Scheduler

  predicate CanRun(events: seq<Event>)
    decreases |events|, 0
  {
    events == [] || (CanRun(events[..|events| - 1]) && Enabled(Run(events[..|events| - 1]), events[|events| - 1]))
  }

  function Run(events: seq<Event>): State
    requires CanRun(events)
    decreases |events|, 1
  {
    if events == [] then Empty else After(Run(events[..|events| - 1]), events[|events| - 1])
  }

  lemma EmptyOk()
    ensures Inv(Empty)
  {
  }

  lemma {:induction false} RunKeeps(events: seq<Event>)
    requires CanRun(events)
    ensures Inv(Run(events))
  {
    hide Inv, After, Enabled;
    if events == [] {
      EmptyOk();
    } else {
      RunKeeps(events[..|events| - 1]);
      StepKeeps(Run(events[..|events| - 1]), events[|events| - 1]);
    }
  }

  /**
   * In every run, across recovery and reconciliation: no lobby is on a timer and in the queue, the timers of the table
   * are exactly those armed, at most one execution per lobby and eight in all are in flight, and no queued lease is
   * left waiting without cause.
   */
  lemma SchedulerIsSafe(events: seq<Event>)
    requires CanRun(events)
    ensures var s := Run(events);
            && (forall lobby | lobby in s.timers :: !IsQueued(s, lobby))
            && (forall lobby | lobby in s.timers :: s.timers[lobby].handle in s.armed && s.armed[s.timers[lobby].handle] == s.timers[lobby].lease)
            && (forall h | h in s.armed :: s.armed[h].lobby in s.timers && s.timers[s.armed[h].lobby].handle == h)
            && (forall a, b | a in s.tasks && b in s.tasks && s.tasks[a].phase.Executing? && s.tasks[b].phase.Executing?
                  && s.tasks[a].lease.lobby == s.tasks[b].lease.lobby :: a == b)
            && |s.tasks| <= MaxConcurrent
            && Busy(s.tasks, s.queued, s.active)
  {
    RunKeeps(events);
    var s := Run(events);
    hide Run, CanRun, Busy, Apart, FindsOk, DistinctQueue;
    forall lobby, i | lobby in s.timers && 0 <= i < |s.queued| ensures s.queued[i].lobby != lobby {
      assert s.queued[i] in s.queued;
    }
  }

  lemma Front(events: seq<Event>, more: seq<Event>)
    requires more != []
    ensures (events + more)[..|events + more| - 1] == events + more[..|more| - 1]
    ensures (events + more)[|events + more| - 1] == more[|more| - 1]
  {
  }

  /** The token belongs to no reconciliation that counts, and is not handed out again. */
  predicate Overtaken(s: State, token: Id) {
    token < s.next && forall l | l in s.reconciling :: s.reconciling[l] != token
  }

  lemma ScheduleAlone(s: State, lease: Lease)
    ensures Schedule(s, lease).reconciling == s.reconciling && Schedule(s, lease).next == s.next
  {
  }

  lemma {:induction false} ScheduleAllAlone(s: State, leases: seq<Lease>)
    ensures ScheduleAll(s, leases).reconciling == s.reconciling && ScheduleAll(s, leases).next == s.next
  {
    hide Schedule;
    if leases != [] {
      var n := |leases| - 1;
      ScheduleAllAlone(s, leases[..n]);
      ScheduleAlone(ScheduleAll(s, leases[..n]), leases[n]);
    }
  }

  /** Draining changes the queue and the executions alone. */
  lemma {:induction false} DrainAlone(s: State)
    ensures var t := Drain(s);
            && t.timers == s.timers && t.reconciling == s.reconciling && t.next == s.next
            && t.recovering == s.recovering && t.dirty == s.dirty && t.stopped == s.stopped
    decreases |s.queued|
  {
    if !s.stopped && |s.tasks| < MaxConcurrent && FirstReady(s.queued, s.active).Some? {
      DrainAlone(StartTask(s, FirstReady(s.queued, s.active).value));
    }
  }

  lemma FireAlone(s: State, handle: Id, maximumQueued: nat)
    requires handle in s.armed
    ensures var t := Fire(s, handle, maximumQueued); t.next == s.next && (t.reconciling == s.reconciling || t.reconciling == map[])
  {
    hide Drain;
    var lease := s.armed[handle];
    var u := s.(armed := s.armed - {handle}, timers := s.timers - {lease.lobby});
    DrainAlone(u.(queued := Dequeue(u.queued, lease.lobby) + [lease]));
  }

  lemma OvertakenStays(s: State, e: Event, token: Id)
    requires Enabled(s, e) && Overtaken(s, token)
    ensures Overtaken(After(s, e), token)
  {
    hide ScheduleAll, ReconcileAll, Fire, Found, ReturnAndLook, EndTask, Lists, NewLeases;
    match e
    case DoFire(handle, maximumQueued) => FireAlone(s, handle, maximumQueued);
    case DoReturn(serial, look) => ReturnOvertakes(s, serial, look, token);
    case DoEnd(serial) => EndAlone(s, serial);
    case DoFound(other, lease) => FoundAlone(s, other, lease);
    case DoEndRecovery(leases, lobbies, first) =>
      ScheduleAllAlone(s, leases);
      AllOvertake(ScheduleAll(s, leases).(recovering := false, dirty := {}), lobbies, first, token);
    case _ =>
  }

  lemma ReturnOvertakes(s: State, serial: Id, look: Option<Id>, token: Id)
    requires Enabled(s, DoReturn(serial, look)) && Overtaken(s, token)
    ensures Overtaken(ReturnAndLook(s, serial, look), token)
  {
    hide Return;
    ReturnAlone(s, serial);
  }

  /** New reconciliations have new tokens. */
  lemma {:induction false} AllOvertake(s: State, lobbies: seq<Lobby>, first: Id, token: Id)
    requires token < first && forall l | l in s.reconciling :: s.reconciling[l] != token
    ensures forall l | l in ReconcileAll(s, lobbies, first).reconciling :: ReconcileAll(s, lobbies, first).reconciling[l] != token
  {
    if lobbies != [] { AllOvertake(s, lobbies[..|lobbies| - 1], first, token); }
  }

  lemma ReturnAlone(s: State, serial: Id)
    requires serial in s.tasks
    ensures Return(s, serial).reconciling == s.reconciling && Return(s, serial).next == s.next
  {
  }

  lemma EndAlone(s: State, serial: Id)
    requires serial in s.tasks
    ensures EndTask(s, serial).reconciling == s.reconciling && EndTask(s, serial).next == s.next
  {
    hide Drain;
    var t := ReleaseActive(s, s.tasks[serial].lease);
    DrainAlone(t.(tasks := t.tasks - {serial}));
  }

  lemma FoundAlone(s: State, token: Id, lease: Option<Lease>)
    requires token in s.finding
    ensures var t := Found(s, token, lease);
            t.next == s.next && forall l | l in t.reconciling :: l in s.reconciling && t.reconciling[l] == s.reconciling[l]
  {
    hide Schedule, ClearIn;
    if lease.Some? { ScheduleAlone(s.(finding := s.finding - {token}), lease.value); }
  }

  lemma {:induction false} OvertakenForever(events: seq<Event>, more: seq<Event>, token: Id)
    requires CanRun(events + more)
    ensures CanRun(events) && (Overtaken(Run(events), token) ==> Overtaken(Run(events + more), token))
  {
    hide After, Enabled, Overtaken;
    if more == [] {
      assert events + more == events;
    } else {
      Front(events, more);
      OvertakenForever(events, more[..|more| - 1], token);
      if Overtaken(Run(events), token) { OvertakenStays(Run(events + more[..|more| - 1]), more[|more| - 1], token); }
    }
  }

  /** In every run, what a reconciliation found is ignored once a later one of its lobby has begun, whenever it comes. */
  lemma OvertakenFindIsIgnored(events: seq<Event>, lobby: Lobby, first: Id, second: Id, more: seq<Event>, lease: Option<Lease>)
    requires CanRun(events + [DoReconcile(lobby, second)] + more) && CanRun(events)
    requires first in Run(events).finding && Run(events).finding[first] == lobby && !Run(events).recovering
    requires Enabled(Run(events + [DoReconcile(lobby, second)] + more), DoFound(first, lease))
    ensures var s := Run(events + [DoReconcile(lobby, second)] + more);
            var t := After(s, DoFound(first, lease));
            t.timers == s.timers && t.queued == s.queued && t.armed == s.armed && t.active == s.active && t.tasks == s.tasks
            && t.reconciling == s.reconciling
  {
    hide After, Enabled, Inv;
    var begun := events + [DoReconcile(lobby, second)];
    OvertakenForever(begun, more, first);
    Front(events, [DoReconcile(lobby, second)]);
    RunKeeps(events);
    BeginOvertakes(Run(events), lobby, first, second);
    FindIgnored(Run(begun + more), first, lease);
  }

  lemma BeginOvertakes(s: State, lobby: Lobby, first: Id, second: Id)
    requires Inv(s) && first in s.finding && s.finding[first] == lobby && !s.recovering && Enabled(s, DoReconcile(lobby, second))
    ensures Overtaken(After(s, DoReconcile(lobby, second)), first)
  {
  }

  lemma FindIgnored(s: State, token: Id, lease: Option<Lease>)
    requires Enabled(s, DoFound(token, lease)) && Overtaken(s, token)
    ensures var t := After(s, DoFound(token, lease));
            t.timers == s.timers && t.queued == s.queued && t.armed == s.armed && t.active == s.active && t.tasks == s.tasks
            && t.reconciling == s.reconciling
  {
  }

  lemma ScheduleOthers(s: State, lease: Lease, lobby: Lobby)
    requires lease.lobby != lobby
    ensures var t := Schedule(s, lease);
            && (lobby in t.timers <==> lobby in s.timers)
            && (lobby in s.timers ==> t.timers[lobby] == s.timers[lobby])
            && (forall l: Lease | l.lobby == lobby :: l in t.queued <==> l in s.queued)
  {
    hide QueuedKey;
  }

  /** Recovery leaves alone what changed while it was reading. */
  lemma {:induction false} RecoveryRespectsDirty(s: State, leases: seq<Lease>, lobby: Lobby)
    requires lobby in s.dirty
    ensures var t := ScheduleAll(s, leases);
            && (lobby in t.timers <==> lobby in s.timers)
            && (lobby in s.timers ==> t.timers[lobby] == s.timers[lobby])
            && (forall l: Lease | l.lobby == lobby :: l in t.queued <==> l in s.queued)
  {
    hide Schedule;
    if leases != [] {
      var n := |leases| - 1;
      RecoveryRespectsDirty(s, leases[..n], lobby);
      if leases[n].lobby !in s.dirty { ScheduleOthers(ScheduleAll(s, leases[..n]), leases[n], lobby); }
    }
  }

  lemma StoppedQuietly(s: State, e: Event)
    requires s.stopped && Enabled(s, e) && s.timers == map[] && s.armed == map[] && s.queued == [] && s.reconciling == map[]
    requires !e.DoEnd? && !e.DoEndRecovery?
    ensures var t := After(s, e);
            t.stopped && t.timers == map[] && t.armed == map[] && t.queued == [] && t.tasks.Keys == s.tasks.Keys
  {
    hide Schedule, ClearIn, Drain;
  }

  lemma StoppedStep(s: State, e: Event)
    requires Inv(s) && s.stopped && Enabled(s, e)
    ensures var t := After(s, e);
            t.stopped && t.timers == map[] && t.armed == map[] && t.queued == [] && t.tasks.Keys <= s.tasks.Keys
  {
    hide Inv, Schedule, Drain, Fire, Found, Reconcile, ReturnAndLook, EndTask, ScheduleAll, ReconcileAll, Stop, Lists, NewLeases;
    StoppedRows(s);
    match e
    case DoEndRecovery(leases, lobbies, token) => StoppedRecovery(s, leases, lobbies, token);
    case DoEnd(serial) => StoppedDrain(s, serial);
    case DoFire(_, _) => StoppedQuietly(s, e);
    case DoReturn(_, _) => StoppedQuietly(s, e);
    case DoReconcile(_, _) => StoppedQuietly(s, e);
    case DoFound(_, _) => StoppedQuietly(s, e);
    case DoBeginRecovery => StoppedQuietly(s, e);
    case DoStop => StoppedQuietly(s, e);
  }

  lemma StoppedRows(s: State)
    requires Inv(s) && s.stopped
    ensures s.timers == map[] && s.armed == map[] && s.queued == [] && s.reconciling == map[]
  {
  }

  lemma StoppedDrain(s: State, serial: Id)
    requires s.stopped && serial in s.tasks
    ensures var t := EndTask(s, serial);
            t.stopped && t.timers == s.timers && t.armed == s.armed && t.queued == s.queued && t.tasks == s.tasks - {serial}
  {
  }

  lemma StoppedRecovery(s: State, leases: seq<Lease>, lobbies: seq<Lobby>, token: Id)
    requires s.stopped
    ensures EndRecovery(s, leases, lobbies, token) == s.(recovering := false, dirty := {})
  {
    StoppedSchedules(s, leases);
    StoppedReconciles(s.(recovering := false, dirty := {}), lobbies, token);
  }

  lemma {:induction false} StoppedSchedules(s: State, leases: seq<Lease>)
    requires s.stopped
    ensures ScheduleAll(s, leases) == s
  {
    if leases != [] { StoppedSchedules(s, leases[..|leases| - 1]); }
  }

  lemma {:induction false} StoppedReconciles(s: State, lobbies: seq<Lobby>, token: Id)
    requires s.stopped
    ensures ReconcileAll(s, lobbies, token) == s
  {
    if lobbies != [] { StoppedReconciles(s, lobbies[..|lobbies| - 1], token); }
  }

  /** In every run, a scheduler once stopped never arms, queues or starts anything again. */
  lemma {:induction false} StoppedStays(events: seq<Event>, more: seq<Event>)
    requires CanRun(events + more)
    ensures CanRun(events)
    ensures Run(events).stopped ==>
              var t := Run(events + more);
              t.stopped && t.timers == map[] && t.armed == map[] && t.queued == [] && t.tasks.Keys <= Run(events).tasks.Keys
  {
    hide After, Enabled, Inv;
    if more == [] {
      assert events + more == events;
      RunKeeps(events);
      if Run(events).stopped { StoppedRows(Run(events)); }
    } else {
      Front(events, more);
      StoppedStays(events, more[..|more| - 1]);
      RunKeeps(events + more[..|more| - 1]);
      if Run(events).stopped { StoppedStep(Run(events + more[..|more| - 1]), more[|more| - 1]); }
    }
  }

  // ---------- the scheduler as it is updated in place ----------

  class LeaseScheduler {
    var timers: map<Lobby, Timer>
    var queued: seq<Lease>
    var active: map<Lobby, Lease>
    var activeCount: nat
    var reconciliations: map<Lobby, Id>
    var recovering: bool
    var dirty: set<Lobby>
    var stopped: bool
    ghost var armed: map<Id, Lease>
    ghost var tasks: map<Id, Task>
    ghost var finding: map<Id, Lobby>
    ghost var next: Id

    constructor ()
      ensures Contents() == Empty && Valid()
    {
      timers, queued, active, activeCount, reconciliations := map[], [], map[], 0, map[];
      recovering, dirty, stopped := false, {}, false;
      armed, tasks, finding, next := map[], map[], map[], 0;
    }

    ghost function Contents(): State
      reads this
    {
      State(timers, armed, queued, active, tasks, reconciliations, finding, recovering, dirty, stopped, next)
    }

    ghost predicate Valid()
      reads this
    {
      activeCount == |tasks| && Inv(Contents())
    }

    /** Starts queued executions while the limit allows. */
    method DrainQueue()
      requires activeCount == |tasks| && Resting(Contents())
      modifies this`queued, this`active, this`activeCount, this`tasks
      ensures Contents() == Drain(old(Contents())) && Valid()
    {
      hide Resting, Busy, StartTask;
      DrainKeeps(Contents());
      ghost var start := Contents();
      while !stopped && activeCount < MaxConcurrent
        invariant activeCount == |tasks| && Resting(Contents()) && Drain(Contents()) == Drain(start)
        invariant stopped == start.stopped
        decreases |queued|
      {
        var ready := FirstReady(queued, active);
        if ready.None? { break; }
        StartKeeps(Contents(), ready.value);
        StartFrame(Contents(), ready.value);
        StartCount(Contents(), ready.value);
        StartExecution(ready.value);
      }
    }

    method StartExecution(i: nat)
      requires i < |queued|
      modifies this`queued, this`active, this`activeCount, this`tasks
      ensures Contents() == StartTask(old(Contents()), i) && activeCount == old(activeCount) + 1
    {
      var lease := queued[i];
      queued := queued[..i] + queued[i + 1..];
      active := active[lease.lobby := lease];
      activeCount := activeCount + 1;
      tasks := tasks[lease.serial := Task(lease, Executing)];
    }

    method ScheduleLease(lease: Lease)
      requires Valid() && next <= lease.serial
      modifies this`timers, this`queued, this`armed, this`next
      ensures Contents() == Schedule(old(Contents()), lease).(next := lease.serial + 1) && Valid()
    {
      hide Inv, ScheduleIn;
      ScheduleKeeps(Contents(), lease);
      if !stopped { PlaceLease(lease); }
      next := lease.serial + 1;
    }

    method PlaceLease(lease: Lease)
      modifies this`timers, this`queued, this`armed
      ensures Slots(timers, armed, queued) == ScheduleIn(Slots(old(timers), old(armed), old(queued)), lease)
    {
      hide ArmIn, QueuedKey;
      if lease.lobby in timers && timers[lease.lobby].lease.key == lease.key { return; }
      if QueuedKey(queued, lease.lobby) == Some(lease.key) {
        if lease.lobby in timers { armed := armed - {timers[lease.lobby].handle}; }
        return;
      }
      ArmTimer(lease);
    }

    /** Replaces the timer and the queue entry of the lobby by a timer of the lease. */
    method ArmTimer(lease: Lease)
      modifies this`timers, this`queued, this`armed
      ensures Slots(timers, armed, queued) == ArmIn(Slots(old(timers), old(armed), old(queued)), lease)
    {
      hide ClearIn;
      ClearLease(lease.lobby);
      armed := armed[lease.serial := lease];
      timers := timers[lease.lobby := Timer(lease, lease.serial)];
    }

    method ClearLease(lobby: Lobby)
      modifies this`timers, this`queued, this`armed
      ensures Slots(timers, armed, queued) == ClearIn(Slots(old(timers), old(armed), old(queued)), lobby)
    {
      hide Dequeue;
      if lobby in timers {
        armed := armed - {timers[lobby].handle};
        timers := timers - {lobby};
      }
      queued := Dequeue(queued, lobby);
    }

    method StopAll()
      modifies this`timers, this`queued, this`armed, this`reconciliations, this`stopped
      ensures Contents() == Stop(old(Contents()))
    {
      timers, queued, armed, reconciliations, stopped := map[], [], map[], map[], true;
    }

    /** The host fires the timer that was armed for the lease; its entry is there, as no cancelled timer is. */
    method TimerFired(lease: Lease, maximumQueued: nat)
      requires Valid() && lease.serial in armed && armed[lease.serial] == lease
      modifies this
      ensures Contents() == After(old(Contents()), DoFire(lease.serial, maximumQueued)) && Valid()
    {
      hide Inv, Dequeue, Drain, Resting, Busy, Fire, After, Stop, FiredIn;
      ghost var before := Contents();
      FireKeeps(before, lease.serial, maximumQueued);
      FireShape(before, lease.serial, maximumQueued);
      FiredRests(before, lease.serial, maximumQueued);
      if (forall i | 0 <= i < |queued| :: queued[i].lobby != lease.lobby) && |queued| >= maximumQueued {
        StopAll();
        return;
      }
      MoveToQueue(lease);
      DrainQueue();
    }

    /** The fired timer's lease goes to the end of the queue. */
    method MoveToQueue(lease: Lease)
      modifies this`timers, this`queued, this`armed
      ensures Slots(timers, armed, queued) == FiredIn(Slots(old(timers), old(armed), old(queued)), lease)
    {
      hide Dequeue;
      armed := armed - {lease.serial};
      timers := timers - {lease.lobby};
      queued := Dequeue(queued, lease.lobby) + [lease];
    }

    method Release(lease: Lease)
      modifies this`active
      ensures Contents() == ReleaseActive(old(Contents()), lease)
    {
      if lease.lobby in active && active[lease.lobby] == lease { active := active - {lease.lobby}; }
    }

    /** The transaction of an execution returned; `look` is the reconciliation that follows, unless the call was blocked or no ball was left. */
    method ExecutionReturned(lease: Lease, look: Option<Id>)
      requires Valid() && lease.serial in tasks && tasks[lease.serial] == Task(lease, Executing)
      requires look.Some? ==> next <= look.value
      modifies this
      ensures Contents() == After(old(Contents()), DoReturn(lease.serial, look)) && Valid()
    {
      hide Inv, Return, Reconcile, Enabled;
      ReturnKeeps(Contents(), lease.serial);
      ReturnFrame(Contents(), lease.serial);
      SettleExecution(lease);
      if look.Some? { BeginReconciliation(lease.lobby, look.value); }
    }

    method SettleExecution(lease: Lease)
      requires activeCount == |tasks| && lease.serial in tasks && tasks[lease.serial].lease == lease
      modifies this`active, this`tasks
      ensures Contents() == Return(old(Contents()), lease.serial) && activeCount == |tasks|
    {
      ReplacedCount(tasks, lease.serial, Task(lease, Settling));
      tasks := tasks[lease.serial := Task(lease, Settling)];
      if stopped { return; }
      Release(lease);
    }

    method ExecutionEnded(lease: Lease)
      requires Valid() && lease.serial in tasks && tasks[lease.serial].lease == lease
      requires tasks[lease.serial].phase.Settling? || stopped
      modifies this
      ensures Contents() == After(old(Contents()), DoEnd(lease.serial)) && Valid()
    {
      hide Resting, Busy, Drain;
      EndedRests(Contents(), lease.serial);
      Release(lease);
      OneFewer(tasks, lease.serial);
      tasks := tasks - {lease.serial};
      activeCount := activeCount - 1;
      DrainQueue();
    }

    method BeginReconciliation(lobby: Lobby, token: Id)
      requires Valid() && next <= token
      modifies this
      ensures Contents() == Reconcile(old(Contents()), lobby, token).(next := token + 1) && Valid()
    {
      hide Inv;
      ReconcileKeeps(Contents(), lobby, token);
      next := token + 1;
      if stopped { return; }
      if recovering {
        dirty := dirty + {lobby};
        return;
      }
      reconciliations := reconciliations[lobby := token];
      finding := finding[token := lobby];
    }

    /** The lobby's current lease was read, or there is none. */
    method LeaseFound(lobby: Lobby, token: Id, lease: Option<Lease>)
      requires Valid() && Enabled(Contents(), DoFound(token, lease)) && finding[token] == lobby
      modifies this
      ensures Contents() == After(old(Contents()), DoFound(token, lease)) && Valid()
    {
      hide Inv, Applied, CloseFind, After, Found, Enabled, Ignored;
      FoundKeeps(Contents(), token, lease);
      AfterFound(Contents(), token, lease);
      if lobby !in reconciliations || reconciliations[lobby] != token {
        IgnoreFound(token, lease);
      } else {
        ApplyFound(lobby, token, lease);
      }
    }

    /** An overtaken reconciliation ends without effect. */
    method IgnoreFound(token: Id, lease: Option<Lease>)
      requires token in finding
      modifies this`finding, this`next
      ensures Contents() == Ignored(old(Contents()), token, lease)
    {
      finding := finding - {token};
      next := if lease.Some? then lease.value.serial + 1 else next;
    }

    /** Ends the reconciliation and takes over what it found. */
    method ApplyFound(lobby: Lobby, token: Id, lease: Option<Lease>)
      requires Valid() && token in finding && finding[token] == lobby && lobby in reconciliations && reconciliations[lobby] == token
      requires lease.Some? ==> next <= lease.value.serial
      modifies this
      ensures Contents() == Applied(CloseFind(old(Contents()), token), lobby, lease) && activeCount == |tasks|
    {
      hide Inv, Schedule, ClearIn;
      CloseFindKeeps(Contents(), token);
      EndReconciliation(lobby, token);
      if lease.None? {
        ClearLease(lobby);
      } else {
        ScheduleLease(lease.value);
      }
    }

    method EndReconciliation(lobby: Lobby, token: Id)
      requires token in finding && finding[token] == lobby
      modifies this`finding, this`reconciliations
      ensures Contents() == CloseFind(old(Contents()), token)
    {
      finding := finding - {token};
      reconciliations := reconciliations - {lobby};
    }

    method BeginRecovery()
      requires Valid() && !recovering
      modifies this`recovering
      ensures Contents() == After(old(Contents()), DoBeginRecovery) && Valid()
    {
      hide Inv;
      RecoveryFlags(Contents(), true, dirty);
      recovering := true;
    }

    /** The leases of all lobbies were read; those that changed meanwhile, in the order of `lobbies`, are reconciled. */
    method EndRecovery(leases: seq<Lease>, lobbies: seq<Lobby>, token: Id)
      requires Valid() && Enabled(Contents(), DoEndRecovery(leases, lobbies, token))
      modifies this
      ensures Contents() == After(old(Contents()), DoEndRecovery(leases, lobbies, token)) && Valid()
    {
      hide Inv, Schedule, Reconcile, ScheduleAll, ReconcileAll, NewLeases, Lists, RecoveredTo;
      ghost var before := Contents();
      RecoverLeases(leases);
      ghost var read := Contents();
      RecoveryFlags(read, false, {});
      LastNumber(before, leases);
      recovering, dirty := false, {};
      ghost var start := Contents();
      NoneLooked(start, lobbies, token);
      next := token;
      MoreNumbers(start, token);
      for i := 0 to |lobbies|
        invariant Valid() && Contents() == ReconcileAll(start, lobbies[..i], token).(next := token + i)
      {
        LookOne(start, lobbies, token, i);
        BeginReconciliation(lobbies[i], token + i);
      }
      assert lobbies[..|lobbies|] == lobbies;
      ReconcileAllIgnoresNext(ScheduleAll(before, leases).(recovering := false, dirty := {}), lobbies, token, read.next);
    }

    /** The recovered leases are scheduled one by one. */
    method RecoverLeases(leases: seq<Lease>)
      requires Valid() && NewLeases(next, leases)
      modifies this
      ensures Contents() == RecoveredTo(old(Contents()), leases, |leases|) && Valid()
    {
      hide Inv, Schedule, ScheduleAll, RecoveredTo;
      ghost var before := Contents();
      NoneRecovered(before, leases);
      for i := 0 to |leases|
        invariant Valid() && Contents() == RecoveredTo(before, leases, i)
      {
        RecoverOne(before, leases, i);
        if leases[i].lobby !in dirty {
          ScheduleLease(leases[i]);
        } else {
          MoreNumbers(Contents(), leases[i].serial + 1);
          next := leases[i].serial + 1;
        }
      }
    }
  }

  /** The state after the first `i` recovered leases. */
  function RecoveredTo(s: State, leases: seq<Lease>, i: nat): State
    requires i <= |leases|
  {
    ScheduleAll(s, leases[..i]).(next := if i == 0 then s.next else leases[i - 1].serial + 1)
  }

  lemma NoneRecovered(s: State, leases: seq<Lease>)
    ensures RecoveredTo(s, leases, 0) == s
  {
  }

  lemma NoneLooked(s: State, lobbies: seq<Lobby>, token: Id)
    ensures ReconcileAll(s, lobbies[..0], token) == s
  {
  }

  lemma LookOne(s: State, lobbies: seq<Lobby>, token: Id, i: nat)
    requires i < |lobbies|
    ensures var t := ReconcileAll(s, lobbies[..i], token);
            && ReconcileAll(s, lobbies[..i + 1], token) == Reconcile(t, lobbies[i], token + i)
            && Reconcile(t.(next := token + i), lobbies[i], token + i) == Reconcile(t, lobbies[i], token + i).(next := token + i)
  {
    hide Reconcile;
    assert lobbies[..i + 1][..i] == lobbies[..i];
    ReconcileIgnoresNext(ReconcileAll(s, lobbies[..i], token), lobbies[i], token + i, token + i);
  }

  lemma LastNumber(s: State, leases: seq<Lease>)
    ensures RecoveredTo(s, leases, |leases|) == ScheduleAll(s, leases).(next := if leases == [] then s.next else leases[|leases| - 1].serial + 1)
  {
    assert leases[..|leases|] == leases;
  }

  lemma RecoverOne(s: State, leases: seq<Lease>, i: nat)
    requires NewLeases(s.next, leases) && i < |leases|
    ensures var t := RecoveredTo(s, leases, i);
            && t.dirty == s.dirty && t.next <= leases[i].serial
            && RecoveredTo(s, leases, i + 1)
               == if leases[i].lobby in s.dirty then t.(next := leases[i].serial + 1)
                  else Schedule(t, leases[i]).(next := leases[i].serial + 1)
  {
    hide Schedule;
    assert leases[..i + 1][..i] == leases[..i];
    DirtyStays(s, leases[..i]);
    var t := ScheduleAll(s, leases[..i]);
    ScheduleIgnoresNext(t, leases[i], if i == 0 then s.next else leases[i - 1].serial + 1);
  }

  lemma {:induction false} DirtyStays(s: State, leases: seq<Lease>)
    ensures ScheduleAll(s, leases).dirty == s.dirty
  {
    hide Schedule;
    if leases != [] {
      DirtyStays(s, leases[..|leases| - 1]);
      ScheduleFrame(ScheduleAll(s, leases[..|leases| - 1]), leases[|leases| - 1]);
    }
  }

  lemma AfterFound(s: State, token: Id, lease: Option<Lease>)
    requires Enabled(s, DoFound(token, lease))
    ensures token in s.finding && (lease.Some? ==> s.next <= lease.value.serial)
    ensures var lobby := s.finding[token];
            After(s, DoFound(token, lease))
            == if lobby !in s.reconciling || s.reconciling[lobby] != token
               then Ignored(s, token, lease)
               else Applied(CloseFind(s, token), lobby, lease)
  {
    hide Schedule, ClearIn, NewLeases;
    var lobby := s.finding[token];
    if lobby in s.reconciling && s.reconciling[lobby] == token { FoundShape(s, token, lease); }
  }

  lemma StartCount(s: State, i: nat)
    requires Resting(s) && i < |s.queued|
    ensures |StartTask(s, i).tasks| == |s.tasks| + 1
  {
    hide TimersOk, TasksOk, FindsOk, DistinctQueue;
    assert s.queued[i] in s.queued;
  }

  lemma OneFewer(tasks: map<Id, Task>, k: Id)
    requires k in tasks
    ensures |tasks - {k}| == |tasks| - 1
  {
    assert tasks == (tasks - {k})[k := tasks[k]];
  }

  function Ignored(s: State, token: Id, lease: Option<Lease>): State {
    s.(finding := s.finding - {token}, next := if lease.Some? then lease.value.serial + 1 else s.next)
  }

  function CloseFind(s: State, token: Id): State
    requires token in s.finding
  {
    s.(finding := s.finding - {token}, reconciling := s.reconciling - {s.finding[token]})
  }

  function Applied(r: State, lobby: Lobby, lease: Option<Lease>): State {
    if lease.None? then WithSlots(r, ClearIn(SlotsOf(r), lobby)) else Schedule(r, lease.value).(next := lease.value.serial + 1)
  }

  function FiredIn(x: Slots, lease: Lease): Slots {
    Slots(x.timers - {lease.lobby}, x.armed - {lease.serial}, Dequeue(x.queued, lease.lobby) + [lease])
  }

  /** The entry of a fired timer is always there and of the same lease, so the check for it never fails. */
  lemma FireShape(s: State, handle: Id, maximumQueued: nat)
    requires Inv(s) && handle in s.armed
    ensures var lease := s.armed[handle];
            lease.serial == handle && Inv(After(s, DoFire(handle, maximumQueued))) &&
            After(s, DoFire(handle, maximumQueued))
            == if (forall i | 0 <= i < |s.queued| :: s.queued[i].lobby != lease.lobby) && |s.queued| >= maximumQueued then Stop(s)
               else Drain(WithSlots(s, FiredIn(SlotsOf(s), lease)))
  {
    hide Inv, Dequeue, Drain;
    FiredLease(s, handle);
    FireKeeps(s, handle, maximumQueued);
  }

  /** Before the drain, the fired lease is at the end of the queue and everything is in its place. */
  lemma FiredRests(s: State, handle: Id, maximumQueued: nat)
    requires Inv(s) && handle in s.armed
    ensures Resting(WithSlots(s, FiredIn(SlotsOf(s), s.armed[handle])))
  {
    hide Busy, Dequeue, Resting, Disarm;
    var lease := s.armed[handle];
    FiredLease(s, handle);
    DisarmKeeps(s, lease.lobby);
    var u := Disarm(s, lease.lobby);
    assert u == s.(armed := s.armed - {handle}, timers := s.timers - {lease.lobby}) by { DisarmIs(s, lease.lobby); }
    DequeueKeeps(u, lease.lobby);
    AppendKeeps(u.(queued := Dequeue(u.queued, lease.lobby)), lease);
  }
}
