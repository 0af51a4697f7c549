/** Lobby deliveries over whole runs, and the delivery queues as they are updated in place. */
module DeliveryRuns {

  import opened Common
  import opened Deliveries

  // ---------- runs ----------

  predicate CanRun(steps: seq<Step>)
    decreases |steps|, 0
  {
    steps == [] || (CanRun(steps[..|steps| - 1]) && Enabled(Run(steps[..|steps| - 1]), steps[|steps| - 1]))
  }

  function Run(steps: seq<Step>): State
    requires CanRun(steps)
    decreases |steps|, 1
  {
    if steps == [] then Empty else After(Run(steps[..|steps| - 1]), steps[|steps| - 1])
  }

  lemma EmptyOk()
    ensures Inv(Empty)
  {
  }

  lemma {:induction false} RunKeeps(steps: seq<Step>)
    requires CanRun(steps)
    ensures Inv(Run(steps))
  {
    hide Inv, After, Enabled;
    if steps == [] {
      EmptyOk();
    } else {
      RunKeeps(steps[..|steps| - 1]);
      StepKeeps(Run(steps[..|steps| - 1]), steps[|steps| - 1]);
    }
  }

  /**
   * In every interleaving of publishes and relayed copies: each lobby with work has exactly one drainer, scheduled or
   * running, and the fan-outs of a lobby that is still remembered are strictly increasing.
   */
  lemma SingleOrderedFanout(steps: seq<Step>, lobby: Lobby)
    requires CanRun(steps)
    ensures var s := Run(steps);
            && (lobby in s.queues ==> s.queues[lobby].scheduled != s.queues[lobby].draining)
            && (lobby !in s.forgotten ==> Increasing(History(s.fanouts, lobby)))
  {
    RunKeeps(steps);
    var s := Run(steps);
    hide Run, CanRun, HeldOk, TablesOk, PrintsOk, Lookup, History, Increasing;
    if lobby in s.queues { assert OneDrainer(s.queues[lobby]); }
    if lobby !in s.forgotten { assert LobbyOk(s, lobby); }
  }

  // ---------- what becomes of a copy ----------

  lemma IncreasingIsUnique(h: seq<Loaded>, a: Loaded, b: Loaded)
    requires Increasing(h) && a in h && b in h && a.sequence == b.sequence
    ensures a == b
  {
  }

  lemma LastIsHighest(h: seq<Loaded>, a: Loaded)
    requires Increasing(h) && a in h
    ensures h != [] && a.sequence <= h[|h| - 1].sequence
  {
  }

  /**
   * A loaded copy of a remembered lobby starts a fan-out exactly when it is above everything fanned out before;
   * otherwise it resolves false, conflicts or is stale, according to the remembered fingerprint, which is that of the fan-out.
   */
  lemma LoadDecides(s: State, lobby: Lobby, event: Loaded)
    requires Inv(s) && Enabled(s, DoLoad(lobby, Some(event))) && lobby !in s.forgotten
    requires event.sequence == s.queues[lobby].stage.copy.sequence
    ensures var h := History(s.fanouts, lobby);
            var id := s.queues[lobby].stage.copy.id;
            var t := Load(s, lobby, Some(event));
            var above := forall e | e in h :: e.sequence < event.sequence;
            var known := Lookup(s.prints, (lobby, event.sequence));
            && (above <==> lobby in t.queues && t.queues[lobby].stage == Fanning(s.queues[lobby].stage.copy, event.fingerprint))
            && (!above ==> id in t.outcomes && t.outcomes[id] in {ResolvedFalse, Conflicting, StaleSequence})
            && (!above && known.Some? ==> (t.outcomes[id] == ResolvedFalse <==> event in h))
            && (!above && known.Some? ==>
                  (t.outcomes[id] == Conflicting <==> exists e | e in h :: e.sequence == event.sequence && e != event))
            && (!above && known.None? ==> t.outcomes[id] == StaleSequence)
            && t.fanouts == s.fanouts
  {
    hide HeldOk, TablesOk, DrainersOk, Lookup, History, Increasing, Advance, Remember, Inv;
    KnownPrints(s, lobby, event.sequence);
    var h := History(s.fanouts, lobby);
    PassedMeans(s, lobby, event.sequence);
    LoadShape(s, lobby, event);
    if Lookup(s.prints, (lobby, event.sequence)).Some? {
      var known := Loaded(event.sequence, Lookup(s.prints, (lobby, event.sequence)).value);
      forall e | e in h && e.sequence == event.sequence ensures e == known { IncreasingIsUnique(h, e, known); }
    }
  }

  lemma KnownPrints(s: State, lobby: Lobby, k: nat)
    requires Inv(s) && lobby !in s.forgotten
    ensures Increasing(History(s.fanouts, lobby))
    ensures Lookup(s.prints, (lobby, k)).Some? ==> Loaded(k, Lookup(s.prints, (lobby, k)).value) in History(s.fanouts, lobby)
  {
    hide HeldOk, TablesOk, DrainersOk, Lookup, History, Increasing;
    assert LobbyOk(s, lobby);
  }

  lemma PassedMeans(s: State, lobby: Lobby, k: nat)
    requires Inv(s) && lobby !in s.forgotten && lobby in s.queues
    ensures AlreadyPassed(s.queues[lobby], k) <==> exists e | e in History(s.fanouts, lobby) :: e.sequence >= k
  {
    hide HeldOk, TablesOk, DrainersOk, Lookup, History;
    assert LobbyOk(s, lobby);
    var h := History(s.fanouts, lobby);
    if e :| e in h && e.sequence >= k { LastIsHighest(h, e); }
  }

  lemma LoadShape(s: State, lobby: Lobby, event: Loaded)
    requires lobby in s.queues && s.queues[lobby].stage.Loading? && event.sequence == s.queues[lobby].stage.copy.sequence
    ensures var t := Load(s, lobby, Some(event));
            var copy := s.queues[lobby].stage.copy;
            && t.fanouts == s.fanouts
            && (if AlreadyPassed(s.queues[lobby], event.sequence)
                then copy.id in t.outcomes && t.outcomes[copy.id] == Settlement(s, lobby, event)
                     && (lobby in t.queues ==> t.queues[lobby].stage.Loading?)
                else lobby in t.queues && t.queues[lobby].stage == Fanning(copy, event.fingerprint))
  {
    hide Lookup, Remember, AlreadyPassed, Settlement, Advance;
    var copy := s.queues[lobby].stage.copy;
    if AlreadyPassed(s.queues[lobby], event.sequence) {
      var outcome := Settlement(s, lobby, event);
      var prints := if outcome.ResolvedFalse? then Remember(s.prints, (lobby, copy.sequence), event.fingerprint, Bound) else s.prints;
      AdvanceFrame(Settle(s.(prints := prints), copy.id, outcome), lobby);
    }
  }

  // ---------- what comes next ----------

  /** The first of the pending copies with the lowest sequence is in hand and the others wait on; without any the queue is gone. */
  predicate TookNext(q: Queue, t: State, lobby: Lobby) {
    if q.pending == [] then lobby !in t.queues
    else
      && lobby in t.queues && t.queues[lobby].stage.Loading?
      && exists i | 0 <= i < |q.pending| ::
           && t.queues[lobby].stage.copy == q.pending[i] && t.queues[lobby].pending == q.pending[..i] + q.pending[i + 1..]
           && forall j | 0 <= j < |q.pending| && j != i ::
                if j < i then q.pending[i].sequence < q.pending[j].sequence else q.pending[i].sequence <= q.pending[j].sequence
  }

  /** Whatever ends the work on a copy, the lowest pending copy is next; only a copy to be fanned out stays in hand. */
  lemma LowestIsNext(s: State, e: Step)
    requires Inv(s) && Enabled(s, e) && !e.DoEnqueue?
    ensures var q := s.queues[e.lobby];
            var t := After(s, e);
            || TookNext(q, t, e.lobby)
            || (&& e.DoLoad? && e.event.Some? && e.event.value.sequence == q.stage.copy.sequence && e.lobby in t.queues
                && t.queues[e.lobby] == q.(stage := Fanning(q.stage.copy, e.event.value.fingerprint)))
  {
    hide Inv, Lookup, Remember, Forgotten, Settlement, AlreadyPassed, Advance, TookNext;
    var lobby := e.lobby;
    var q := s.queues[lobby];
    match e
    case DoStart(_) => AdvanceTakes(s.(queues := s.queues[lobby := q.(scheduled := false, draining := true)]), lobby, q);
    case DoLoad(_, event) =>
      if event.None? || event.value.sequence != q.stage.copy.sequence {
        AdvanceTakes(Settle(s, q.stage.copy.id, FailedCopy), lobby, q);
      } else if AlreadyPassed(q, q.stage.copy.sequence) {
        var outcome := Settlement(s, lobby, event.value);
        var prints := if outcome.ResolvedFalse? then Remember(s.prints, (lobby, q.stage.copy.sequence), event.value.fingerprint, Bound)
                      else s.prints;
        AdvanceTakes(Settle(s.(prints := prints), q.stage.copy.id, outcome), lobby, q);
      }
    case DoFinish(_) =>
      AdvanceTakes(Settle(Fanned(s, lobby, Loaded(q.stage.copy.sequence, q.stage.fingerprint)), q.stage.copy.id, ResolvedTrue), lobby, q);
    case DoFail(_) => AdvanceTakes(Settle(s, q.stage.copy.id, FailedCopy), lobby, q);
  }

  lemma AdvanceTakes(s: State, lobby: Lobby, q: Queue)
    requires lobby in s.queues && s.queues[lobby].pending == q.pending
    ensures TookNext(q, Advance(s, lobby), lobby)
  {
  }

  /** A finished fan-out is recorded as the lobby's last, with its fingerprint, and its copy resolves true. */
  lemma FanoutIsRemembered(s: State, lobby: Lobby)
    requires Inv(s) && Enabled(s, DoFinish(lobby))
    ensures var copy := s.queues[lobby].stage.copy;
            var event := Loaded(copy.sequence, s.queues[lobby].stage.fingerprint);
            var t := After(s, DoFinish(lobby));
            && t.fanouts == s.fanouts + [(lobby, event)]
            && Lookup(t.lasts, lobby) == Some(event)
            && Lookup(t.prints, (lobby, event.sequence)) == Some(event.fingerprint)
            && (lobby in t.queues ==> t.queues[lobby].last == Some(event))
            && copy.id in t.outcomes && t.outcomes[copy.id].ResolvedTrue?
  {
    hide Inv, Lookup, Remember, Forgotten, Keyed, Advance;
    var q := s.queues[lobby];
    var event := Loaded(q.stage.copy.sequence, q.stage.fingerprint);
    TablesAre(s);
    NewestStays(s.lasts, lobby, event, Bound);
    NewestStays(s.prints, (lobby, event.sequence), event.fingerprint, Bound);
    AdvanceFrame(Settle(Fanned(s, lobby, event), q.stage.copy.id, ResolvedTrue), lobby);
  }

  lemma TablesAre(s: State)
    requires Inv(s)
    ensures Keyed(s.lasts) && Keyed(s.prints)
  {
  }

  /** What was remembered last is never what is dropped. */
  lemma NewestStays<K(!new), V(!new)>(t: Table<K, V>, k: K, v: V, bound: nat)
    requires Keyed(t) && bound >= 1
    ensures Lookup(Remember(t, k, v, bound), k) == Some(v)
  {
    RememberLookup(t, k, v, bound, k);
    var w := Without(t, k);
    if w != [] { assert w[0] in w; }
  }

  // ---------- every copy is settled at most once and never lost ----------

  predicate Accounted(s: State, t: State) {
    && (forall id | id in s.outcomes :: id in t.outcomes && t.outcomes[id] == s.outcomes[id])
    && (forall id | id in s.held :: id in t.held || id in t.outcomes)
  }

  lemma StepAccounts(s: State, e: Step)
    requires Inv(s) && Enabled(s, e)
    ensures Accounted(s, After(s, e))
  {
    hide Lookup, Remember, Advance, AlreadyPassed, Settlement, Inv, Forgotten, Load, FinishFanout, Accounted, SettlesOnly;
    match e
    case DoEnqueue(lobby, copy) => SameAccounted(s, After(s, e));
    case DoStart(lobby) =>
      AdvanceFrame(s.(queues := s.queues[lobby := s.queues[lobby].(scheduled := false, draining := true)]), lobby);
      SameAccounted(s, After(s, e));
    case DoLoad(lobby, event) =>
      CopyIsHeld(s, lobby);
      LoadOutcomes(s, lobby, event);
      OneAccounted(s, After(s, e), s.queues[lobby].stage.copy.id);
    case DoFinish(lobby) =>
      CopyIsHeld(s, lobby);
      FinishOutcomes(s, lobby);
      OneAccounted(s, After(s, e), s.queues[lobby].stage.copy.id);
    case DoFail(lobby) =>
      CopyIsHeld(s, lobby);
      AdvanceFrame(Settle(s, s.queues[lobby].stage.copy.id, FailedCopy), lobby);
      SettledOnly(s, After(s, e), s.queues[lobby].stage.copy.id);
      OneAccounted(s, After(s, e), s.queues[lobby].stage.copy.id);
  }

  lemma SameAccounted(s: State, t: State)
    requires t.outcomes == s.outcomes && forall id | id in s.held :: id in t.held
    ensures Accounted(s, t)
  {
  }

  lemma SettledOnly(s: State, t: State, id: Id)
    requires t.outcomes == s.outcomes[id := FailedCopy] && t.held == s.held - {id}
    ensures SettlesOnly(s, t, id)
  {
  }

  lemma OneAccounted(s: State, t: State, id: Id)
    requires SettlesOnly(s, t, id) && id in s.held && id !in s.outcomes
    ensures Accounted(s, t)
  {
  }

  lemma CopyIsHeld(s: State, lobby: Lobby)
    requires Inv(s) && lobby in s.queues && !s.queues[lobby].stage.Resting?
    ensures s.queues[lobby].stage.copy.id in s.held && s.queues[lobby].stage.copy.id !in s.outcomes
  {
    hide DrainersOk, TablesOk, LobbiesOk, PrintsOk, DistinctIds;
    var q := s.queues[lobby];
    assert Unsettled(q)[|Unsettled(q)| - 1] == q.stage.copy.id;
    assert q.stage.copy.id in Unsettled(q);
  }

  /** Only the copy in hand can be settled. */
  predicate SettlesOnly(s: State, t: State, id: Id) {
    && (forall x | x in s.outcomes && x != id :: x in t.outcomes && t.outcomes[x] == s.outcomes[x])
    && (forall x | x in s.held && x != id :: x in t.held)
    && (id in s.held ==> id in t.held || id in t.outcomes)
  }

  lemma LoadOutcomes(s: State, lobby: Lobby, event: Option<Loaded>)
    requires lobby in s.queues && s.queues[lobby].stage.Loading?
    ensures SettlesOnly(s, Load(s, lobby, event), s.queues[lobby].stage.copy.id)
    ensures Load(s, lobby, event).fanouts == s.fanouts
    ensures forall x | x in Load(s, lobby, event).outcomes :: x in s.outcomes || x == s.queues[lobby].stage.copy.id
    ensures var id := s.queues[lobby].stage.copy.id;
            id !in s.outcomes && id in Load(s, lobby, event).outcomes ==> !Load(s, lobby, event).outcomes[id].ResolvedTrue?
  {
    hide Lookup, Remember, Advance, AlreadyPassed;
    var q := s.queues[lobby];
    var copy := q.stage.copy;
    if event.None? || event.value.sequence != copy.sequence {
      AdvanceFrame(Settle(s, copy.id, FailedCopy), lobby);
    } else if AlreadyPassed(q, copy.sequence) {
      var outcome := Settlement(s, lobby, event.value);
      var prints := if outcome.ResolvedFalse? then Remember(s.prints, (lobby, copy.sequence), event.value.fingerprint, Bound) else s.prints;
      AdvanceFrame(Settle(s.(prints := prints), copy.id, outcome), lobby);
    }
  }

  lemma FinishOutcomes(s: State, lobby: Lobby)
    requires lobby in s.queues && s.queues[lobby].stage.Fanning?
    ensures SettlesOnly(s, FinishFanout(s, lobby), s.queues[lobby].stage.copy.id)
    ensures FinishFanout(s, lobby).outcomes == s.outcomes[s.queues[lobby].stage.copy.id := ResolvedTrue]
    ensures |FinishFanout(s, lobby).fanouts| == |s.fanouts| + 1
  {
    hide Lookup, Remember, Advance, Forgotten;
    var q := s.queues[lobby];
    var event := Loaded(q.stage.copy.sequence, q.stage.fingerprint);
    AdvanceFrame(Settle(Fanned(s, lobby, event), q.stage.copy.id, ResolvedTrue), lobby);
  }

  /** Along every run, a settled copy keeps its outcome and an unsettled one is still held or was settled. */
  lemma {:induction false} EveryCopySettlesOnce(steps: seq<Step>, more: seq<Step>)
    requires CanRun(steps + more) && CanRun(steps)
    ensures Accounted(Run(steps), Run(steps + more))
    decreases |more|
  {
    hide Inv, After, Enabled, Accounted;
    if more == [] {
      assert steps + more == steps;
      StaysAccounted(Run(steps));
    } else {
      var n := |more| - 1;
      var all := steps + more;
      assert all[..|all| - 1] == steps + more[..n];
      assert all[|all| - 1] == more[n];
      EveryCopySettlesOnce(steps, more[..n]);
      RunKeeps(steps + more[..n]);
      StepAccounts(Run(steps + more[..n]), more[n]);
      AccountedOn(Run(steps), Run(steps + more[..n]), Run(all));
    }
  }

  lemma StaysAccounted(s: State)
    ensures Accounted(s, s)
  {
  }

  lemma AccountedOn(s: State, t: State, u: State)
    requires Accounted(s, t) && Accounted(t, u)
    ensures Accounted(s, u)
  {
  }

  // ---------- one fan-out per copy that resolves true ----------

  function Delivered(s: State): set<Id> {
    set id | id in s.outcomes && s.outcomes[id].ResolvedTrue?
  }

  /** Apart from a finished fan-out, no step delivers anything. */
  lemma OtherStepsDeliverNothing(s: State, e: Step)
    requires Inv(s) && Enabled(s, e) && !e.DoFinish?
    ensures After(s, e).fanouts == s.fanouts && Delivered(After(s, e)) == Delivered(s)
  {
    hide Lookup, Remember, Advance, AlreadyPassed, Settlement, DrainersOk, TablesOk, LobbiesOk, PrintsOk, Forgotten, HeldOk,
         Load, Delivered;
    match e
    case DoEnqueue(lobby, copy) => SameDelivered(s, After(s, e));
    case DoStart(lobby) =>
      AdvanceFrame(s.(queues := s.queues[lobby := s.queues[lobby].(scheduled := false, draining := true)]), lobby);
      SameDelivered(s, After(s, e));
    case DoLoad(lobby, event) =>
      CopyIsHeld(s, lobby);
      LoadOutcomes(s, lobby, event);
      NotDelivered(s, After(s, e), s.queues[lobby].stage.copy.id);
    case DoFail(lobby) =>
      CopyIsHeld(s, lobby);
      AdvanceFrame(Settle(s, s.queues[lobby].stage.copy.id, FailedCopy), lobby);
      NotDelivered(s, After(s, e), s.queues[lobby].stage.copy.id);
  }

  lemma SameDelivered(s: State, t: State)
    requires t.outcomes == s.outcomes
    ensures Delivered(t) == Delivered(s)
  {
  }

  lemma NotDelivered(s: State, t: State, id: Id)
    requires id !in s.outcomes && (id in t.outcomes ==> !t.outcomes[id].ResolvedTrue?)
    requires forall x | x in s.outcomes && x != id :: x in t.outcomes && t.outcomes[x] == s.outcomes[x]
    requires forall x | x in t.outcomes :: x in s.outcomes || x == id
    ensures Delivered(t) == Delivered(s)
  {
  }

  lemma StepDelivers(s: State, e: Step)
    requires Inv(s) && Enabled(s, e) && |Delivered(s)| == |s.fanouts|
    ensures |Delivered(After(s, e))| == |After(s, e).fanouts|
  {
    hide Inv, FinishFanout;
    if e.DoFinish? {
      CopyIsHeld(s, e.lobby);
      FinishOutcomes(s, e.lobby);
      var id := s.queues[e.lobby].stage.copy.id;
      assert Delivered(After(s, e)) == Delivered(s) + {id} && id !in Delivered(s);
    } else {
      OtherStepsDeliverNothing(s, e);
    }
  }

  /** Exactly as many copies resolve true as there are fan-outs. */
  lemma {:induction false} OneFanoutPerDelivery(steps: seq<Step>)
    requires CanRun(steps)
    ensures |Delivered(Run(steps))| == |Run(steps).fanouts|
  {
    hide Inv, After, Enabled;
    if steps == [] {
      assert Delivered(Empty) == {};
    } else {
      OneFanoutPerDelivery(steps[..|steps| - 1]);
      RunKeeps(steps[..|steps| - 1]);
      StepDelivers(Run(steps[..|steps| - 1]), steps[|steps| - 1]);
    }
  }

  // ---------- the queues as they are updated in place ----------

  class DeliveryQueues {
    var queues: map<Lobby, Queue>
    var lasts: Table<Lobby, Loaded>
    var prints: Table<(Lobby, nat), nat>
    var outcomes: map<Id, Outcome>
    ghost var held: map<Id, Lobby>
    ghost var fanouts: seq<(Lobby, Loaded)>
    ghost var forgotten: set<Lobby>

    constructor ()
      ensures Contents() == Empty
    {
      queues, lasts, prints, outcomes, held, fanouts, forgotten := map[], [], [], map[], map[], [], {};
    }

    ghost function Contents(): State
      reads this
    {
      State(queues, lasts, prints, outcomes, held, fanouts, forgotten)
    }

    method EnqueueDelivery(lobby: Lobby, copy: Copy)
      requires Enabled(Contents(), DoEnqueue(lobby, copy))
      modifies this
      ensures Contents() == After(old(Contents()), DoEnqueue(lobby, copy))
    {
      if lobby !in queues {
        queues := queues[lobby := Queue([], false, false, Lookup(lasts, lobby), Resting)];
      }
      var queue := queues[lobby];
      queue := queue.(pending := queue.pending + [copy]);
      if !queue.draining && !queue.scheduled {
        queue := queue.(scheduled := true);
      }
      queues := queues[lobby := queue];
      held := held[copy.id := lobby];
    }

    /** The scheduled callback runs. */
    method BeginDrain(lobby: Lobby)
      requires Enabled(Contents(), DoStart(lobby))
      modifies this
      ensures Contents() == After(old(Contents()), DoStart(lobby))
    {
      hide Deliveries.Advance;
      queues := queues[lobby := queues[lobby].(scheduled := false, draining := true)];
      TakeNext(lobby);
    }

    /** The head of the drain loop: the lowest copy is taken, or the queue is deleted. */
    method TakeNext(lobby: Lobby)
      requires lobby in queues
      modifies this`queues
      ensures Contents() == Advance(old(Contents()), lobby)
    {
      var queue := queues[lobby];
      if queue.pending == [] {
        queues := queues - {lobby};
        return;
      }
      var first := FindLowest(queue.pending);
      queues := queues[lobby := queue.(pending := queue.pending[..first] + queue.pending[first + 1..],
                                       stage := Loading(queue.pending[first]))];
    }

    method FindLowest(pending: seq<Copy>) returns (first: nat)
      requires pending != []
      ensures first == Lowest(pending)
    {
      first := 0;
      for i := 1 to |pending|
        invariant first == Lowest(pending[..i]) && first < i
      {
        assert pending[..i + 1][..i] == pending[..i];
        if pending[i].sequence < pending[first].sequence { first := i; }
      }
      assert pending[..|pending|] == pending;
    }

    method SettleCopy(id: Id, outcome: Outcome)
      modifies this`outcomes, this`held
      ensures Contents() == Settle(old(Contents()), id, outcome)
    {
      outcomes := outcomes[id := outcome];
      held := held - {id};
    }

    /** The event of the copy in hand was loaded, or loading it threw. */
    method EventLoaded(lobby: Lobby, event: Option<Loaded>)
      requires Enabled(Contents(), DoLoad(lobby, event))
      modifies this
      ensures Contents() == After(old(Contents()), DoLoad(lobby, event))
    {
      hide Deliveries.Advance, Lookup, Remember;
      var queue := queues[lobby];
      var copy := queue.stage.copy;
      if event.None? || event.value.sequence != copy.sequence {
        SettleCopy(copy.id, FailedCopy);
        TakeNext(lobby);
        return;
      }
      if queue.last.Some? && copy.sequence <= queue.last.value.sequence {
        var known := Lookup(prints, (lobby, copy.sequence));
        if known == Some(event.value.fingerprint) {
          prints := Remember(prints, (lobby, copy.sequence), event.value.fingerprint, Bound);
          SettleCopy(copy.id, ResolvedFalse);
        } else if known.Some? {
          SettleCopy(copy.id, Conflicting);
        } else {
          SettleCopy(copy.id, StaleSequence);
        }
        TakeNext(lobby);
        return;
      }
      queues := queues[lobby := queue.(stage := Fanning(copy, event.value.fingerprint))];
    }

    /** Every socket of the lobby was handled. */
    method FanoutDone(lobby: Lobby)
      requires Enabled(Contents(), DoFinish(lobby))
      modifies this
      ensures Contents() == After(old(Contents()), DoFinish(lobby))
    {
      hide Deliveries.Advance, Remember, Dropped;
      var queue := queues[lobby];
      var event := Loaded(queue.stage.copy.sequence, queue.stage.fingerprint);
      queues := queues[lobby := queue.(last := Some(event))];
      forgotten := Forgotten(Contents(), lobby);
      lasts := Remember(lasts, lobby, event, Bound);
      prints := Remember(prints, (lobby, event.sequence), event.fingerprint, Bound);
      fanouts := fanouts + [(lobby, event)];
      SettleCopy(queue.stage.copy.id, ResolvedTrue);
      TakeNext(lobby);
    }

    /** Listing or handling the sockets threw. */
    method FanoutFailed(lobby: Lobby)
      requires Enabled(Contents(), DoFail(lobby))
      modifies this
      ensures Contents() == After(old(Contents()), DoFail(lobby))
    {
      hide Deliveries.Advance;
      SettleCopy(queues[lobby].stage.copy.id, FailedCopy);
      TakeNext(lobby);
    }
  }
}
