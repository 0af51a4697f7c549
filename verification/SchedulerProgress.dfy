/** The scheduler does its work: what it finds is armed or queued, what fires is queued or executed, and nothing is lost on the way. */
module SchedulerProgress {

  import opened Common
  import opened Scheduler
  import opened SchedulerRuns

  /** Exactly this lease is kept for the lobby: on a timer that the host has armed, or in the queue. */
  predicate Kept(s: State, lobby: Lobby, key: nat) {
    || (&& lobby in s.timers && s.timers[lobby].lease.key == key && s.timers[lobby].lease.lobby == lobby
        && s.timers[lobby].handle in s.armed && s.armed[s.timers[lobby].handle] == s.timers[lobby].lease
        && forall l | l in s.queued :: l.lobby != lobby)
    || (&& lobby !in s.timers
        && (exists l | l in s.queued :: l.lobby == lobby)
        && forall l | l in s.queued :: l.lobby == lobby ==> l.key == key)
  }

  /** The same without the host's timers. */
  predicate Placed(s: State, lobby: Lobby, key: nat) {
    || (lobby in s.timers && s.timers[lobby].lease.key == key && forall l | l in s.queued :: l.lobby != lobby)
    || (lobby !in s.timers && (exists l | l in s.queued :: l.lobby == lobby) && forall l | l in s.queued :: l.lobby == lobby ==> l.key == key)
  }

  lemma PlacedIsKept(s: State, lobby: Lobby, key: nat)
    requires Inv(s) && Placed(s, lobby, key)
    ensures Kept(s, lobby, key)
  {
    hide Busy, QueueOk, TasksOk, Apart, FindsOk;
  }

  // ---------- scheduling ----------

  lemma {:induction false} KeyInQueue(queued: seq<Lease>, lobby: Lobby)
    requires QueuedKey(queued, lobby).Some?
    ensures exists l | l in queued :: l.lobby == lobby && l.key == QueuedKey(queued, lobby).value
  {
    if queued[0].lobby != lobby {
      KeyInQueue(queued[1..], lobby);
      var l :| l in queued[1..] && l.lobby == lobby && l.key == QueuedKey(queued, lobby).value;
      assert l in queued;
    } else {
      assert queued[0] in queued;
    }
  }

  lemma OneOfLobby(queued: seq<Lease>, lobby: Lobby, key: nat)
    requires DistinctQueue(queued) && exists l | l in queued :: l.lobby == lobby && l.key == key
    ensures forall l | l in queued :: l.lobby == lobby ==> l.key == key
  {
  }

  /** Scheduling a lease puts it in its place, unless just this lease was there already. */
  lemma ScheduleTakes(s: State, lease: Lease)
    requires Inv(s) && !s.stopped
    ensures Placed(Schedule(s, lease), lease.lobby, lease.key)
  {
    hide Busy, TasksOk, FindsOk, Apart, TimersOk, DistinctQueue, QueuedKey, Dequeue;
    NotTwice(s, lease.lobby);
    QueuedKeyMeaning(s.queued, lease.lobby);
    if QueuedKey(s.queued, lease.lobby) == Some(lease.key) {
      KeyInQueue(s.queued, lease.lobby);
      OneOfLobby(s.queued, lease.lobby, lease.key);
    }
  }

  lemma OthersPlaced(s: State, lease: Lease, lobby: Lobby, key: nat)
    requires lease.lobby != lobby && Placed(s, lobby, key)
    ensures Placed(Schedule(s, lease), lobby, key)
  {
    hide Schedule;
    ScheduleOthers(s, lease, lobby);
    if l :| l in s.queued && l.lobby == lobby { assert l in Schedule(s, lease).queued; }
  }

  lemma {:induction false} AllTaken(s: State, leases: seq<Lease>, k: nat)
    requires Inv(s) && !s.stopped && NewLeases(s.next, leases) && k < |leases| && leases[k].lobby !in s.dirty
    ensures Placed(ScheduleAll(s, leases), leases[k].lobby, leases[k].key)
  {
    hide Inv, Schedule, Placed;
    var n := |leases| - 1;
    var t := ScheduleAll(s, leases[..n]);
    if k < n {
      AllTaken(s, leases[..n], k);
      if leases[n].lobby !in s.dirty { OthersPlaced(t, leases[n], leases[k].lobby, leases[k].key); }
    } else {
      ScheduleAllKeeps(s, leases[..n]);
      var next := if n == 0 then s.next else Later(s.next, leases[n - 1].serial);
      if n > 0 { assert leases[..n][n - 1] == leases[n - 1]; }
      NotStopped(s, leases[..n]);
      ScheduleTakes(t.(next := next), leases[n]);
      ScheduleIgnoresNext(t, leases[n], next);
      NextAside(Schedule(t, leases[n]), next, leases[n].lobby, leases[n].key);
    }
  }

  lemma NextAside(s: State, next: Id, lobby: Lobby, key: nat)
    ensures Placed(s.(next := next), lobby, key) <==> Placed(s, lobby, key)
  {
  }

  lemma {:induction false} NotStopped(s: State, leases: seq<Lease>)
    ensures ScheduleAll(s, leases).stopped == s.stopped
  {
    hide Schedule;
    if leases != [] {
      var n := |leases| - 1;
      NotStopped(s, leases[..n]);
      ScheduleFrame(ScheduleAll(s, leases[..n]), leases[n]);
    }
  }

  // ---------- what is found ----------

  /** The reconciliation is the latest of its lobby. */
  predicate Counts(s: State, token: Id) {
    token in s.finding && s.finding[token] in s.reconciling && s.reconciling[s.finding[token]] == token
  }

  /**
   * In every run, what the latest reconciliation of a lobby finds is kept for it and nothing else is; where it finds
   * nothing, nothing is kept.
   */
  lemma FoundIsKept(events: seq<Event>, token: Id, lease: Option<Lease>)
    requires CanRun(events + [DoFound(token, lease)]) && CanRun(events)
    requires !Run(events).stopped && Counts(Run(events), token)
    ensures var s := Run(events);
            var t := Run(events + [DoFound(token, lease)]);
            if lease.Some? then Kept(t, s.finding[token], lease.value.key)
            else s.finding[token] !in t.timers && forall l | l in t.queued :: l.lobby != s.finding[token]
  {
    hide Inv, Schedule, Placed, Kept, ClearIn, Found;
    var e := DoFound(token, lease);
    var s := Run(events);
    Front(events, [e]);
    RunKeeps(events);
    RunKeeps(events + [e]);
    FoundShape(s, token, lease);
    CloseFindKeeps(s, token);
    var r := s.(finding := s.finding - {token}, reconciling := s.reconciling - {s.finding[token]});
    if lease.Some? {
      ScheduleTakes(r, lease.value);
      NextAside(Schedule(r, lease.value), Later(s.next, lease.value.serial), lease.value.lobby, lease.value.key);
      PlacedIsKept(Run(events + [e]), s.finding[token], lease.value.key);
    } else {
      Cleared(r, s.finding[token]);
    }
  }

  lemma Cleared(s: State, lobby: Lobby)
    ensures var t := WithSlots(s, ClearIn(SlotsOf(s), lobby));
            lobby !in t.timers && forall l | l in t.queued :: l.lobby != lobby
  {
    hide Dequeue;
  }

  /** In every run, recovery keeps each lease that it found for a lobby that did not change meanwhile. */
  lemma RecoveredIsKept(events: seq<Event>, leases: seq<Lease>, lobbies: seq<Lobby>, token: Id, k: nat)
    requires CanRun(events + [DoEndRecovery(leases, lobbies, token)]) && CanRun(events)
    requires !Run(events).stopped && k < |leases| && leases[k].lobby !in Run(events).dirty
    ensures Kept(Run(events + [DoEndRecovery(leases, lobbies, token)]), leases[k].lobby, leases[k].key)
  {
    hide Inv, Schedule, Placed, Kept, ScheduleAll, ReconcileAll, NewLeases, Lists;
    var e := DoEndRecovery(leases, lobbies, token);
    var s := Run(events);
    Front(events, [e]);
    RunKeeps(events);
    RunKeeps(events + [e]);
    AllTaken(s, leases, k);
    ReconcileAllFrame(ScheduleAll(s, leases).(recovering := false, dirty := {}), lobbies, token);
    SamePlace(ScheduleAll(s, leases), Run(events + [e]), leases[k].lobby, leases[k].key);
    PlacedIsKept(Run(events + [e]), leases[k].lobby, leases[k].key);
  }

  lemma SamePlace(s: State, t: State, lobby: Lobby, key: nat)
    requires t.timers == s.timers && t.queued == s.queued && Placed(s, lobby, key)
    ensures Placed(t, lobby, key)
  {
  }

  /** Starting reconciliations leaves what is kept alone. */
  lemma {:induction false} ReconcileAllFrame(s: State, lobbies: seq<Lobby>, token: Id)
    ensures var t := ReconcileAll(s, lobbies, token);
            && t.timers == s.timers && t.armed == s.armed && t.queued == s.queued && t.active == s.active && t.tasks == s.tasks
            && t.recovering == s.recovering && t.stopped == s.stopped
  {
    if lobbies != [] { ReconcileAllFrame(s, lobbies[..|lobbies| - 1], token); }
  }

  // ---------- what fires ----------

  /** The lease is queued, or its execution has begun. */
  predicate TakenOn(s: State, lease: Lease) {
    lease in s.queued || (lease.serial in s.tasks && s.tasks[lease.serial].lease == lease)
  }

  lemma StartTakesOn(s: State, i: nat, lease: Lease)
    requires i < |s.queued| && TakenOn(s, lease) && (forall l | l in s.queued && l.serial == lease.serial :: l == lease)
    ensures TakenOn(StartTask(s, i), lease)
    ensures forall l | l in StartTask(s, i).queued :: l in s.queued
  {
    var t := StartTask(s, i);
    if lease in s.queued && lease != s.queued[i] {
      var j :| 0 <= j < |s.queued| && s.queued[j] == lease;
      assert t.queued[if j < i then j else j - 1] == lease;
    }
    if lease !in s.queued { assert s.queued[i] in s.queued; }
  }

  /** Draining starts queued leases and loses none. */
  lemma {:induction false} DrainTakesOn(s: State, lease: Lease)
    requires TakenOn(s, lease) && forall l | l in s.queued && l.serial == lease.serial :: l == lease
    ensures TakenOn(Drain(s), lease)
    decreases |s.queued|
  {
    hide TakenOn, StartTask;
    if !s.stopped && |s.tasks| < MaxConcurrent {
      var ready := FirstReady(s.queued, s.active);
      if ready.Some? {
        StartTakesOn(s, ready.value, lease);
        StartFrame(s, ready.value);
        DrainTakesOn(StartTask(s, ready.value), lease);
      }
    }
  }

  /** In every run, the lease of a timer that fires is queued or executed, unless the queue overflows, which stops the scheduler. */
  lemma FiredIsTakenOn(events: seq<Event>, handle: Id, maximumQueued: nat)
    requires CanRun(events + [DoFire(handle, maximumQueued)]) && CanRun(events)
    ensures handle in Run(events).armed
    ensures var s := Run(events);
            var t := Run(events + [DoFire(handle, maximumQueued)]);
            if |s.queued| >= maximumQueued then t.stopped else !t.stopped && TakenOn(t, s.armed[handle])
  {
    hide Inv, TakenOn, Fire;
    var e := DoFire(handle, maximumQueued);
    Front(events, [e]);
    RunKeeps(events);
    FireTakesOn(Run(events), handle, maximumQueued);
  }

  lemma FireTakesOn(s: State, handle: Id, maximumQueued: nat)
    requires Inv(s) && handle in s.armed
    ensures var t := Fire(s, handle, maximumQueued);
            if |s.queued| >= maximumQueued then t.stopped else !t.stopped && TakenOn(t, s.armed[handle])
  {
    hide Inv, Drain, Dequeue, Disarm;
    var lease := s.armed[handle];
    FiredLease(s, handle);
    NotTwiceInv(s, lease.lobby);
    var u := s.(armed := s.armed - {handle}, timers := s.timers - {lease.lobby});
    var q := u.(queued := Dequeue(u.queued, lease.lobby) + [lease]);
    assert lease in q.queued;
    DrainTakesOn(q, lease);
    DrainAlone(q);
  }

  lemma NotTwiceInv(s: State, lobby: Lobby)
    requires Inv(s)
    ensures lobby in s.timers ==> !IsQueued(s, lobby)
  {
    hide Busy, TasksOk, FindsOk, TimersOk, DistinctQueue, Apart;
    if i :| 0 <= i < |s.queued| && s.queued[i].lobby == lobby { assert s.queued[i] in s.queued; }
  }

  // ---------- nothing is lost ----------

  /** The lease is on an armed timer, queued, or being executed. */
  predicate InHand(s: State, lease: Lease) {
    (lease.lobby in s.timers && s.timers[lease.lobby].lease == lease) || TakenOn(s, lease)
  }

  /** The step decides anew about the lobby of the lease, or ends its execution. */
  predicate Replaces(s: State, e: Event, lease: Lease) {
    match e
    case DoFound(token, _) => Counts(s, token) && s.finding[token] == lease.lobby
    case DoEndRecovery(leases, _, _) => lease.lobby !in s.dirty && exists k | 0 <= k < |leases| :: leases[k].lobby == lease.lobby
    case DoEnd(serial) => serial == lease.serial
    case _ => false
  }

  /** A lease in hand stays in hand until it was executed or its lobby's lease was found anew. */
  lemma NothingIsLost(events: seq<Event>, e: Event, lease: Lease)
    requires CanRun(events + [e]) && CanRun(events)
    requires InHand(Run(events), lease) && !Replaces(Run(events), e, lease)
    ensures Run(events + [e]).stopped || InHand(Run(events + [e]), lease)
  {
    hide Inv, InHand, Fire, ReturnAndLook, EndTask, Found, EndRecovery, Lists, NewLeases;
    var s := Run(events);
    Front(events, [e]);
    RunKeeps(events);
    match e
    case DoFire(handle, maximumQueued) => FireLosesNothing(s, handle, maximumQueued, lease);
    case DoReturn(serial, look) => ReturnLosesNothing(s, serial, look, lease);
    case DoEnd(serial) => EndLosesNothing(s, serial, lease);
    case DoFound(token, found) => FoundLosesNothing(s, token, found, lease);
    case DoEndRecovery(leases, lobbies, token) => RecoveryLosesNothing(s, leases, lobbies, token, lease);
    case _ => SameHand(s, Run(events + [e]), lease);
  }

  lemma SameHand(s: State, t: State, lease: Lease)
    ensures t.timers == s.timers && t.queued == s.queued && t.tasks == s.tasks ==> (InHand(t, lease) <==> InHand(s, lease))
  {
  }

  lemma LeaseNumbers(s: State, lease: Lease)
    requires Inv(s) && InHand(s, lease)
    ensures forall l | l in s.queued && l.serial == lease.serial :: l == lease
    ensures forall l | l in s.timers && s.timers[l].lease.serial == lease.serial :: s.timers[l].lease == lease
  {
    hide Busy, FindsOk;
    QueueNumbers(s.queued);
  }

  lemma QueueNumbers(queued: seq<Lease>)
    requires DistinctQueue(queued)
    ensures forall l, m | l in queued && m in queued && l.serial == m.serial :: l == m
  {
  }

  lemma FireLosesNothing(s: State, handle: Id, maximumQueued: nat, lease: Lease)
    requires Inv(s) && handle in s.armed && InHand(s, lease)
    ensures var t := Fire(s, handle, maximumQueued); t.stopped || InHand(t, lease)
  {
    hide Inv, Drain, Dequeue, Disarm;
    var fired := s.armed[handle];
    FiredLease(s, handle);
    NotTwiceInv(s, fired.lobby);
    LeaseNumbers(s, lease);
    FireTakesOn(s, handle, maximumQueued);
    if fired != lease {
      var u := s.(armed := s.armed - {handle}, timers := s.timers - {fired.lobby});
      var q := u.(queued := Dequeue(u.queued, fired.lobby) + [fired]);
      DequeueNobody(s.queued, fired.lobby);
      DrainAlone(q);
      if TakenOn(s, lease) {
        TakenOnStays(s, q, lease);
        DrainTakesOn(q, lease);
      }
    }
  }

  lemma TakenOnStays(s: State, q: State, lease: Lease)
    requires TakenOn(s, lease) && q.tasks == s.tasks && forall l | l in s.queued :: l in q.queued
    ensures TakenOn(q, lease)
  {
  }

  lemma {:induction false} DequeueNobody(queued: seq<Lease>, lobby: Lobby)
    ensures (forall l | l in queued :: l.lobby != lobby) ==> Dequeue(queued, lobby) == queued
  {
    if queued != [] { DequeueNobody(queued[1..], lobby); }
  }

  lemma ReturnLosesNothing(s: State, serial: Id, look: Option<Id>, lease: Lease)
    requires serial in s.tasks && InHand(s, lease)
    ensures InHand(ReturnAndLook(s, serial, look), lease)
  {
  }

  lemma EndLosesNothing(s: State, serial: Id, lease: Lease)
    requires Inv(s) && serial in s.tasks && serial != lease.serial && InHand(s, lease)
    ensures InHand(EndTask(s, serial), lease)
  {
    hide Inv, Drain;
    LeaseNumbers(s, lease);
    var t := ReleaseActive(s, s.tasks[serial].lease);
    var u := t.(tasks := t.tasks - {serial});
    DrainAlone(u);
    if TakenOn(s, lease) { DrainTakesOn(u, lease); }
  }

  lemma FoundLosesNothing(s: State, token: Id, found: Option<Lease>, lease: Lease)
    requires Enabled(s, DoFound(token, found)) && InHand(s, lease) && !(Counts(s, token) && s.finding[token] == lease.lobby)
    ensures InHand(After(s, DoFound(token, found)), lease)
  {
    hide Schedule, Dequeue;
    var t := s.(finding := s.finding - {token});
    if found.Some? && Counts(s, token) { OtherInHand(t, found.value, lease); }
  }

  lemma OtherInHand(s: State, other: Lease, lease: Lease)
    requires InHand(s, lease) && other.lobby != lease.lobby
    ensures InHand(Schedule(s, other), lease)
  {
    hide Schedule;
    ScheduleOthers(s, other, lease.lobby);
    TasksAlone(s, other);
  }

  lemma TasksAlone(s: State, lease: Lease)
    ensures Schedule(s, lease).tasks == s.tasks
  {
    hide ScheduleIn;
  }

  lemma {:induction false} AllInHand(s: State, leases: seq<Lease>, lease: Lease)
    requires InHand(s, lease) && forall k | 0 <= k < |leases| :: leases[k].lobby in s.dirty || leases[k].lobby != lease.lobby
    ensures InHand(ScheduleAll(s, leases), lease)
  {
    hide Schedule, InHand;
    if leases != [] {
      var n := |leases| - 1;
      AllInHand(s, leases[..n], lease);
      if leases[n].lobby !in s.dirty { OtherInHand(ScheduleAll(s, leases[..n]), leases[n], lease); }
    }
  }

  lemma RecoveryLosesNothing(s: State, leases: seq<Lease>, lobbies: seq<Lobby>, token: Id, lease: Lease)
    requires InHand(s, lease) && Enabled(s, DoEndRecovery(leases, lobbies, token))
    requires !Replaces(s, DoEndRecovery(leases, lobbies, token), lease)
    ensures InHand(After(s, DoEndRecovery(leases, lobbies, token)), lease)
  {
    hide InHand, ScheduleAll, ReconcileAll, NewLeases, Lists;
    AllInHand(s, leases, lease);
    ReconcileAllFrame(ScheduleAll(s, leases).(recovering := false, dirty := {}), lobbies, token);
    SameHand(ScheduleAll(s, leases), After(s, DoEndRecovery(leases, lobbies, token)), lease);
  }

  // ---------- no lobby is forgotten ----------

  /** The step asks for the current lease of the lobby. */
  predicate Asks(s: State, e: Event, lobby: Lobby) {
    match e
    case DoReconcile(l, _) => l == lobby
    case DoReturn(serial, look) => look.Some? && serial in s.tasks && s.tasks[serial].lease.lobby == lobby
    case DoEndRecovery(_, _, _) => lobby in s.dirty
    case _ => false
  }

  /** In every run, a lobby whose lease is asked for is reconciled anew, after the recovery if there is one. */
  lemma AsksAreHeard(events: seq<Event>, e: Event, lobby: Lobby)
    requires CanRun(events + [e]) && CanRun(events)
    requires !Run(events).stopped && Asks(Run(events), e, lobby)
    ensures var t := Run(events + [e]);
            if t.recovering then lobby in t.dirty
            else
              && lobby in t.reconciling && Counts(t, t.reconciling[lobby]) && t.finding[t.reconciling[lobby]] == lobby
              && t.reconciling[lobby] !in Run(events).finding
  {
    hide Inv, Return, ScheduleAll, ReconcileAll, NewLeases;
    var s := Run(events);
    Front(events, [e]);
    RunKeeps(events);
    RunKeeps(events + [e]);
    KnownTokens(s);
    KnownTokens(Run(events + [e]));
    match e
    case DoReconcile(_, _) =>
    case DoReturn(serial, _) => ReturnFrame(s, serial);
    case DoEndRecovery(leases, lobbies, token) =>
      var u := ScheduleAll(s, leases).(recovering := false, dirty := {});
      NotStopped(s, leases);
      ReconcileAllFrame(u, lobbies, token);
      AllAreHeard(u, lobbies, token, lobby);
  }

  lemma KnownTokens(s: State)
    requires Inv(s)
    ensures forall k | k in s.finding :: k < s.next
    ensures forall l | l in s.reconciling :: s.reconciling[l] in s.finding && s.finding[s.reconciling[l]] == l
  {
    hide TimersOk, QueueOk, TasksOk, Apart, Busy;
  }

  lemma {:induction false} AllAreHeard(s: State, lobbies: seq<Lobby>, token: Id, lobby: Lobby)
    requires !s.stopped && !s.recovering && lobby in lobbies
    ensures var t := ReconcileAll(s, lobbies, token); lobby in t.reconciling && t.reconciling[lobby] >= token
  {
    var n := |lobbies| - 1;
    ReconcileAllFrame(s, lobbies[..n], token);
    if lobbies[n] != lobby {
      var i :| 0 <= i < |lobbies| && lobbies[i] == lobby;
      assert lobbies[..n][i] == lobby;
      AllAreHeard(s, lobbies[..n], token, lobby);
    }
  }

  /** Something is under way for the lobby. */
  predicate Attended(s: State, lobby: Lobby) {
    || lobby in s.timers
    || (exists l | l in s.queued :: l.lobby == lobby)
    || (exists k | k in s.tasks :: s.tasks[k].phase.Executing? && s.tasks[k].lease.lobby == lobby)
    || lobby in s.reconciling
    || (s.recovering && lobby in s.dirty)
  }

  /** The latest reconciliation found no lease, or the call was blocked or no ball was left. */
  predicate Dismisses(s: State, e: Event, lobby: Lobby) {
    match e
    case DoFound(token, lease) => Counts(s, token) && s.finding[token] == lobby && lease.None?
    case DoReturn(serial, look) => look.None? && serial in s.tasks && s.tasks[serial].lease.lobby == lobby
    case _ => false
  }

  /** In every run, a lobby that is attended to stays so until it is dismissed, however the steps interleave. */
  lemma NoLobbyIsForgotten(events: seq<Event>, e: Event, lobby: Lobby)
    requires CanRun(events + [e]) && CanRun(events)
    requires Attended(Run(events), lobby) && !Dismisses(Run(events), e, lobby)
    ensures Run(events + [e]).stopped || Attended(Run(events + [e]), lobby)
  {
    hide Inv, Attended, Fire, ReturnAndLook, EndTask, Found, EndRecovery, Lists, NewLeases;
    var s := Run(events);
    Front(events, [e]);
    RunKeeps(events);
    match e
    case DoFire(handle, maximumQueued) => FireForgetsNobody(s, handle, maximumQueued, lobby);
    case DoReturn(serial, look) => ReturnForgetsNobody(s, serial, look, lobby);
    case DoEnd(serial) => EndForgetsNobody(s, serial, lobby);
    case DoReconcile(l, token) => ReconcileAttends(s, l, token, token + 1, lobby);
    case DoFound(token, lease) => FoundForgetsNobody(s, token, lease, lobby);
    case DoBeginRecovery => BeginForgetsNobody(s, lobby);
    case DoEndRecovery(leases, lobbies, token) => RecoveryForgetsNobody(s, leases, lobbies, token, lobby);
    case DoStop =>
  }

  /** The lobby waits in the queue, or its execution is under way. */
  predicate Working(s: State, lobby: Lobby) {
    || (exists l | l in s.queued :: l.lobby == lobby)
    || (exists k | k in s.tasks :: s.tasks[k].phase.Executing? && s.tasks[k].lease.lobby == lobby)
  }

  lemma StartWorks(s: State, i: nat, lobby: Lobby)
    requires i < |s.queued| && s.queued[i].serial !in s.tasks && Working(s, lobby)
    ensures Working(StartTask(s, i), lobby)
  {
    var t := StartTask(s, i);
    if k :| k in s.tasks && s.tasks[k].phase.Executing? && s.tasks[k].lease.lobby == lobby {
      assert t.tasks[k] == s.tasks[k];
    } else {
      var l :| l in s.queued && l.lobby == lobby;
      var j :| 0 <= j < |s.queued| && s.queued[j] == l;
      if j != i { assert t.queued[if j < i then j else j - 1] == l; }
      else { assert t.tasks[l.serial] == Task(l, Executing); }
    }
  }

  lemma {:induction false} DrainWorks(s: State, lobby: Lobby)
    requires Resting(s) && Working(s, lobby)
    ensures Working(Drain(s), lobby)
    decreases |s.queued|
  {
    hide Resting, Working, StartTask;
    if !s.stopped && |s.tasks| < MaxConcurrent {
      var ready := FirstReady(s.queued, s.active);
      if ready.Some? {
        NotStarted(s, ready.value);
        StartWorks(s, ready.value, lobby);
        StartKeeps(s, ready.value);
        StartFrame(s, ready.value);
        DrainWorks(StartTask(s, ready.value), lobby);
      }
    }
  }

  lemma NotStarted(s: State, i: nat)
    requires Resting(s) && i < |s.queued|
    ensures s.queued[i].serial !in s.tasks
  {
    hide TimersOk, TasksOk, FindsOk, QueueOk;
    assert s.queued[i] in s.queued;
  }

  lemma DrainAttends(s: State, lobby: Lobby)
    requires Resting(s) && Attended(s, lobby)
    ensures Attended(Drain(s), lobby)
  {
    hide Resting, Drain;
    DrainAlone(s);
    if Working(s, lobby) { DrainWorks(s, lobby); }
  }

  lemma FireForgetsNobody(s: State, handle: Id, maximumQueued: nat, lobby: Lobby)
    requires Inv(s) && handle in s.armed && Attended(s, lobby)
    ensures var t := Fire(s, handle, maximumQueued); t.stopped || Attended(t, lobby)
  {
    hide Inv, Resting, Drain, Dequeue;
    var lease := s.armed[handle];
    FiredLease(s, handle);
    FiredRests(s, handle, maximumQueued);
    var q := WithSlots(s, FiredIn(SlotsOf(s), lease));
    assert lease in q.queued;
    assert Attended(q, lobby);
    DrainAttends(q, lobby);
  }

  lemma ReturnForgetsNobody(s: State, serial: Id, look: Option<Id>, lobby: Lobby)
    requires serial in s.tasks && Attended(s, lobby) && !Dismisses(s, DoReturn(serial, look), lobby)
    ensures ReturnAndLook(s, serial, look).stopped || Attended(ReturnAndLook(s, serial, look), lobby)
  {
    hide Attended, Return, Reconcile;
    ReturnAttends(s, serial, lobby);
    ReturnFrame(s, serial);
    if look.Some? { ReconcileAttends(Return(s, serial), s.tasks[serial].lease.lobby, look.value, look.value + 1, lobby); }
  }

  lemma ReturnAttends(s: State, serial: Id, lobby: Lobby)
    requires serial in s.tasks && Attended(s, lobby)
    ensures s.tasks[serial].lease.lobby == lobby || Attended(Return(s, serial), lobby)
  {
    var t := Return(s, serial);
    if k :| k in s.tasks && s.tasks[k].phase.Executing? && s.tasks[k].lease.lobby == lobby {
      if k != serial { assert t.tasks[k] == s.tasks[k]; }
    }
  }

  lemma ReconcileAttends(s: State, l: Lobby, token: Id, next: Id, lobby: Lobby)
    requires Attended(s, lobby) || l == lobby
    ensures var t := Reconcile(s, l, token).(next := next); t.stopped || Attended(t, lobby)
    ensures Reconcile(s, l, token).stopped == s.stopped
  {
  }

  lemma EndForgetsNobody(s: State, serial: Id, lobby: Lobby)
    requires Inv(s) && Enabled(s, DoEnd(serial)) && Attended(s, lobby)
    ensures EndTask(s, serial).stopped || Attended(EndTask(s, serial), lobby)
  {
    hide Resting, Drain, Busy;
    EndedRests(s, serial);
    var t := ReleaseActive(s, s.tasks[serial].lease);
    var u := t.(tasks := t.tasks - {serial});
    DrainAlone(u);
    if !s.stopped {
      if k :| k in s.tasks && s.tasks[k].phase.Executing? && s.tasks[k].lease.lobby == lobby {
        assert u.tasks[k] == s.tasks[k];
      }
      assert Attended(u, lobby);
      DrainAttends(u, lobby);
    }
  }

  lemma FoundForgetsNobody(s: State, token: Id, lease: Option<Lease>, lobby: Lobby)
    requires Inv(s) && Enabled(s, DoFound(token, lease)) && Attended(s, lobby) && !Dismisses(s, DoFound(token, lease), lobby)
    ensures var t := After(s, DoFound(token, lease)); t.stopped || Attended(t, lobby)
  {
    hide Inv, Schedule, ClearIn, Attended, Found;
    if !Counts(s, token) {
      IgnoredAttends(s, token, lease, lobby);
    } else {
      FoundShape(s, token, lease);
      var r := s.(finding := s.finding - {token}, reconciling := s.reconciling - {s.finding[token]});
      if lease.None? {
        ClearAttends(s, token, lobby);
      } else {
        CloseFindKeeps(s, token);
        ScheduleFrame(r, lease.value);
        if !s.stopped {
          if s.finding[token] != lobby { ClosedAttends(s, token, lobby); }
          assert r.(next := r.next) == r;
          ScheduleAttends(r, lease.value, r.next, lobby);
          NextAttends(Schedule(r, lease.value), Later(s.next, lease.value.serial), lobby);
        }
      }
    }
  }

  lemma NextAttends(s: State, next: Id, lobby: Lobby)
    ensures Attended(s.(next := next), lobby) <==> Attended(s, lobby)
  {
  }

  lemma IgnoredAttends(s: State, token: Id, lease: Option<Lease>, lobby: Lobby)
    requires token in s.finding && !Counts(s, token) && Attended(s, lobby)
    ensures forall next: Id :: Attended(Found(s, token, lease).(next := next), lobby)
    ensures Attended(Found(s, token, lease), lobby)
  {
  }

  lemma ClosedAttends(s: State, token: Id, lobby: Lobby)
    requires Counts(s, token) && s.finding[token] != lobby && Attended(s, lobby)
    ensures Attended(s.(finding := s.finding - {token}, reconciling := s.reconciling - {s.finding[token]}), lobby)
  {
  }

  lemma ClearAttends(s: State, token: Id, lobby: Lobby)
    requires Counts(s, token) && s.finding[token] != lobby && Attended(s, lobby)
    ensures var r := s.(finding := s.finding - {token}, reconciling := s.reconciling - {s.finding[token]});
            Attended(WithSlots(r, ClearIn(SlotsOf(r), s.finding[token])), lobby)
  {
    hide Dequeue;
  }

  lemma BeginForgetsNobody(s: State, lobby: Lobby)
    requires Attended(s, lobby)
    ensures Attended(BeginRecovery(s), lobby)
  {
  }

  lemma RecoveryForgetsNobody(s: State, leases: seq<Lease>, lobbies: seq<Lobby>, token: Id, lobby: Lobby)
    requires Inv(s) && Enabled(s, DoEndRecovery(leases, lobbies, token)) && Attended(s, lobby)
    ensures var t := After(s, DoEndRecovery(leases, lobbies, token)); t.stopped || Attended(t, lobby)
  {
    hide Inv, ScheduleAll, ReconcileAll, Attended, NewLeases;
    var u := ScheduleAll(s, leases).(recovering := false, dirty := {});
    var t := ReconcileAll(u, lobbies, token);
    NotStopped(s, leases);
    ReconcileAllFrame(u, lobbies, token);
    if !s.stopped {
      ReconcilingStays(u, lobbies, token, lobby);
      if lobby in s.dirty { AllAreHeard(u, lobbies, token, lobby); }
      AllAttended(s, leases, lobby);
      RecoveredAttends(ScheduleAll(s, leases), u, t.(next := token + |lobbies|), lobby);
    }
  }

  lemma RecoveredAttends(s: State, u: State, t: State, lobby: Lobby)
    requires Attended(s, lobby) || lobby in t.reconciling
    requires lobby in s.dirty ==> lobby in t.reconciling
    requires u.reconciling == s.reconciling && (lobby in u.reconciling ==> lobby in t.reconciling)
    requires t.timers == s.timers && t.queued == s.queued && t.tasks == s.tasks
    ensures Attended(t, lobby)
  {
  }

  lemma {:induction false} ReconcilingStays(s: State, lobbies: seq<Lobby>, token: Id, lobby: Lobby)
    ensures lobby in s.reconciling ==> lobby in ReconcileAll(s, lobbies, token).reconciling
  {
    if lobbies != [] { ReconcilingStays(s, lobbies[..|lobbies| - 1], token, lobby); }
  }

  lemma {:induction false} AllAttended(s: State, leases: seq<Lease>, lobby: Lobby)
    requires Inv(s) && !s.stopped && NewLeases(s.next, leases) && Attended(s, lobby)
    ensures Attended(ScheduleAll(s, leases), lobby)
    ensures ScheduleAll(s, leases).dirty == s.dirty && ScheduleAll(s, leases).recovering == s.recovering
  {
    hide Inv, Schedule, Attended;
    if leases != [] {
      var n := |leases| - 1;
      var t := ScheduleAll(s, leases[..n]);
      AllAttended(s, leases[..n], lobby);
      if leases[n].lobby !in s.dirty {
        ScheduleAllKeeps(s, leases[..n]);
        var next := if n == 0 then s.next else Later(s.next, leases[n - 1].serial);
        if n > 0 { assert leases[..n][n - 1] == leases[n - 1]; }
        NotStopped(s, leases[..n]);
        ScheduleIgnoresNext(t, leases[n], next);
        ScheduleAttends(t, leases[n], next, lobby);
      }
    }
  }

  lemma ScheduleAttends(s: State, lease: Lease, next: Id, lobby: Lobby)
    requires Inv(s.(next := next)) && !s.stopped && (Attended(s, lobby) || lease.lobby == lobby)
    ensures Attended(Schedule(s, lease), lobby)
    ensures Schedule(s, lease).recovering == s.recovering && Schedule(s, lease).dirty == s.dirty
  {
    hide Inv, Schedule, Attended;
    ScheduleFrame(s, lease);
    Recovering(s, lease);
    if lease.lobby == lobby {
      ScheduleTakes(s.(next := next), lease);
      ScheduleIgnoresNext(s, lease, next);
      PlacedAttends(Schedule(s.(next := next), lease), lease.lobby, lease.key);
      NextAttends(Schedule(s, lease), next, lobby);
    } else {
      OthersAttend(s, lease, lobby);
    }
  }

  lemma PlacedAttends(s: State, lobby: Lobby, key: nat)
    requires Placed(s, lobby, key)
    ensures Attended(s, lobby)
  {
  }

  lemma OthersAttend(s: State, lease: Lease, lobby: Lobby)
    requires lease.lobby != lobby && Attended(s, lobby)
    ensures Attended(Schedule(s, lease), lobby)
  {
    hide Schedule;
    ScheduleFrame(s, lease);
    Recovering(s, lease);
    TasksAlone(s, lease);
    ScheduleOthers(s, lease, lobby);
  }

  lemma Recovering(s: State, lease: Lease)
    ensures Schedule(s, lease).recovering == s.recovering
  {
    hide ScheduleIn;
  }

  // ---------- what is left out of a recovery, and when it all stops ----------

  /** In every run, only lobbies that were asked for since the recovery began are left out of it. */
  lemma LeftOutIsAsked(events: seq<Event>, e: Event)
    requires CanRun(events + [e]) && CanRun(events)
    ensures var s := Run(events);
            var t := Run(events + [e]);
            && (forall l | l in t.dirty :: l in s.dirty || Asks(s, e, l))
            && (!t.recovering ==> t.dirty == {})
            && (e.DoBeginRecovery? ==> t.dirty == {} && t.recovering)
  {
    hide After, Enabled;
    Front(events, [e]);
    OnlyWhileRecovering(events);
    AskedSince(Run(events), e);
  }

  lemma {:induction false} OnlyWhileRecovering(events: seq<Event>)
    requires CanRun(events)
    ensures !Run(events).recovering ==> Run(events).dirty == {}
  {
    hide After, Enabled;
    if events != [] {
      var n := |events| - 1;
      OnlyWhileRecovering(events[..n]);
      AskedSince(Run(events[..n]), events[n]);
    }
  }

  lemma AskedSince(s: State, e: Event)
    requires Enabled(s, e) && (!s.recovering ==> s.dirty == {})
    ensures var t := After(s, e);
            && (forall l | l in t.dirty :: l in s.dirty || Asks(s, e, l))
            && (!t.recovering ==> t.dirty == {})
            && (e.DoBeginRecovery? ==> t.dirty == {} && t.recovering)
  {
    hide Fire, EndTask, Found, EndRecovery, Return, Lists, NewLeases;
    match e
    case DoFire(handle, maximumQueued) => FireFlags(s, handle, maximumQueued);
    case DoReturn(serial, _) => ReturnFlags(s, serial);
    case DoEnd(serial) => EndFlags(s, serial);
    case DoFound(token, lease) => FoundFlags(s, token, lease);
    case DoEndRecovery(leases, lobbies, token) => EndRecoveryFlags(s, leases, lobbies, token);
    case _ =>
  }

  lemma FireFlags(s: State, handle: Id, maximumQueued: nat)
    requires handle in s.armed
    ensures var t := Fire(s, handle, maximumQueued); t.recovering == s.recovering && t.dirty == s.dirty
  {
    hide Drain, Dequeue;
    var lease := s.armed[handle];
    var u := s.(armed := s.armed - {handle}, timers := s.timers - {lease.lobby});
    DrainAlone(u.(queued := Dequeue(u.queued, lease.lobby) + [lease]));
  }

  lemma ReturnFlags(s: State, serial: Id)
    requires serial in s.tasks
    ensures var t := Return(s, serial); t.recovering == s.recovering && t.dirty == s.dirty && t.stopped == s.stopped
  {
  }

  lemma EndFlags(s: State, serial: Id)
    requires serial in s.tasks
    ensures var t := EndTask(s, serial); t.recovering == s.recovering && t.dirty == s.dirty && t.stopped == s.stopped
  {
    hide Drain;
    var u := ReleaseActive(s, s.tasks[serial].lease);
    DrainAlone(u.(tasks := u.tasks - {serial}));
  }

  lemma FoundFlags(s: State, token: Id, lease: Option<Lease>)
    requires token in s.finding
    ensures var t := Found(s, token, lease); t.recovering == s.recovering && t.dirty == s.dirty && t.stopped == s.stopped
  {
    hide Schedule, ClearIn;
    if lease.Some? {
      ScheduleFrame(s.(finding := s.finding - {token}), lease.value);
      Recovering(s.(finding := s.finding - {token}), lease.value);
    }
  }

  lemma EndRecoveryFlags(s: State, leases: seq<Lease>, lobbies: seq<Lobby>, token: Id)
    ensures var t := EndRecovery(s, leases, lobbies, token); !t.recovering && t.dirty == {} && t.stopped == s.stopped
  {
    hide ScheduleAll, ReconcileAll;
    NotStopped(s, leases);
    CleanRecovery(ScheduleAll(s, leases).(recovering := false, dirty := {}), lobbies, token);
    ReconcileAllFrame(ScheduleAll(s, leases).(recovering := false, dirty := {}), lobbies, token);
  }

  lemma {:induction false} CleanRecovery(s: State, lobbies: seq<Lobby>, token: Id)
    requires !s.recovering
    ensures ReconcileAll(s, lobbies, token).dirty == s.dirty && !ReconcileAll(s, lobbies, token).recovering
  {
    if lobbies != [] { CleanRecovery(s, lobbies[..|lobbies| - 1], token); }
  }

  /** In every run, the scheduler stops exactly when it is told to or when its queue overflows. */
  lemma StopsExactly(events: seq<Event>, e: Event)
    requires CanRun(events + [e]) && CanRun(events)
    ensures var s := Run(events);
            Run(events + [e]).stopped <==> s.stopped || e.DoStop? || (e.DoFire? && |s.queued| >= e.maximumQueued)
  {
    hide Inv, Fire, EndTask, Found, EndRecovery, Return, Lists, NewLeases;
    var s := Run(events);
    Front(events, [e]);
    RunKeeps(events);
    match e
    case DoFire(handle, maximumQueued) => OverflowStops(s, handle, maximumQueued);
    case DoReturn(serial, _) => ReturnFlags(s, serial);
    case DoEnd(serial) => EndFlags(s, serial);
    case DoFound(token, lease) => FoundFlags(s, token, lease);
    case DoEndRecovery(leases, lobbies, token) => EndRecoveryFlags(s, leases, lobbies, token);
    case _ =>
  }

  lemma OverflowStops(s: State, handle: Id, maximumQueued: nat)
    requires Inv(s) && handle in s.armed
    ensures Fire(s, handle, maximumQueued).stopped <==> |s.queued| >= maximumQueued
    ensures !s.stopped
  {
    hide Inv, Fire, Disarm;
    FiredLease(s, handle);
    FireTakesOn(s, handle, maximumQueued);
  }
}
