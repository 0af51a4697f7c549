/** The ordered, de-duplicating delivery of lobby events: one drainer per lobby, increasing fan-outs, every copy settled once. */
module Deliveries {

  import opened Common

  // ---------- insertion-ordered bounded tables ----------

  type Table<K, V> = seq<(K, V)>

  function Lookup<K(!new, ==), V(!new)>(t: Table<K, V>, k: K): (r: Option<V>)
    ensures r.Some? ==> (k, r.value) in t
    ensures r.None? <==> forall e | e in t :: e.0 != k
  {
    if t == [] then None
    else if t[|t| - 1].0 == k then Some(t[|t| - 1].1)
    else Lookup(t[..|t| - 1], k)
  }

  function Without<K(!new, ==), V(!new)>(t: Table<K, V>, k: K): (r: Table<K, V>)
    ensures |r| <= |t|
    ensures forall e :: e in r <==> e in t && e.0 != k
  {
    if t == [] then [] else Without(t[..|t| - 1], k) + if t[|t| - 1].0 == k then [] else [t[|t| - 1]]
  }

  /** Inserts as the newest entry and drops the oldest one beyond the bound. */
  function Remember<K(!new, ==), V(!new)>(t: Table<K, V>, k: K, v: V, bound: nat): Table<K, V> {
    var u := Without(t, k) + [(k, v)];
    if |u| > bound then u[1..] else u
  }

  /** The key that remembering `k` drops, if any. */
  function Dropped<K(!new, ==), V(!new)>(t: Table<K, V>, k: K, bound: nat): Option<K> {
    var u := Without(t, k);
    if |u| + 1 > bound then (if u == [] then Some(k) else Some(u[0].0)) else None
  }

  predicate Keyed<K(==), V>(t: Table<K, V>) {
    forall i, j | 0 <= i < j < |t| :: t[i].0 != t[j].0
  }

  lemma {:induction false} WithoutKeyed<K(!new), V(!new)>(t: Table<K, V>, k: K)
    requires Keyed(t)
    ensures Keyed(Without(t, k))
  {
    if t != [] {
      var front := t[..|t| - 1];
      WithoutKeyed(front, k);
      forall e | e in Without(front, k) ensures e.0 != t[|t| - 1].0 {
        var i :| 0 <= i < |front| && front[i] == e;
      }
    }
  }

  lemma {:induction false} KeyedLookup<K(!new), V(!new)>(t: Table<K, V>, e: (K, V))
    requires Keyed(t) && e in t
    ensures Lookup(t, e.0) == Some(e.1)
  {
    var n := |t| - 1;
    if e == t[n] {
    } else {
      assert e in t[..n] by { var i :| 0 <= i < |t| && t[i] == e; assert t[..n][i] == e; }
      assert t[n].0 != e.0 by { var i :| 0 <= i < n && t[i] == e; }
      KeyedLookup(t[..n], e);
    }
  }

  lemma RememberKeyed<K(!new), V(!new)>(t: Table<K, V>, k: K, v: V, bound: nat)
    requires Keyed(t)
    ensures Keyed(Remember(t, k, v, bound)) && (|t| <= bound ==> |Remember(t, k, v, bound)| <= bound)
  {
    WithoutKeyed(t, k);
    var w := Without(t, k);
    forall i | 0 <= i < |w| ensures w[i].0 != k { assert w[i] in w; }
  }

  /** Remembering changes the entry of `k`, loses at most the dropped one, and keeps the others. */
  lemma RememberLookup<K(!new), V(!new)>(t: Table<K, V>, k: K, v: V, bound: nat, q: K)
    requires Keyed(t) && bound >= 1
    ensures Dropped(t, k, bound) != Some(q) ==>
              Lookup(Remember(t, k, v, bound), q) == if q == k then Some(v) else Lookup(t, q)
    ensures Lookup(Remember(t, k, v, bound), q).Some? ==>
              Lookup(Remember(t, k, v, bound), q) == if q == k then Some(v) else Lookup(t, q)
  {
    var w := Without(t, k);
    var u := w + [(k, v)];
    var r := Remember(t, k, v, bound);
    WithoutKeyed(t, k);
    RememberKeyed(t, k, v, bound);
    forall x: V ensures (q, x) in u <==> if q == k then x == v else (q, x) in t {}
    forall e | e in u && Dropped(t, k, bound) != Some(e.0) ensures e in r {
      var i :| 0 <= i < |u| && u[i] == e;
      if |u| > bound {
        assert u[1..][i - 1] == e;
      }
    }
    if Lookup(r, q).Some? {
      assert (q, Lookup(r, q).value) in u;
      if q != k { KeyedLookup(t, (q, Lookup(r, q).value)); }
    }
    if Dropped(t, k, bound) != Some(q) && Lookup(t, q).Some? && q != k {
      assert (q, Lookup(t, q).value) in u;
      KeyedLookup(r, (q, Lookup(t, q).value));
    }
    if Dropped(t, k, bound) != Some(k) {
      assert (k, v) in u;
      KeyedLookup(r, (k, v));
    }
  }

  // ---------- state ----------

  type Lobby = Id

  /** A copy of an event waiting for its turn; the promise it settles has the same id. */
  datatype Copy = Copy(id: Id, sequence: nat)

  /** An event and the fingerprint of its contents. */
  datatype Loaded = Loaded(sequence: nat, fingerprint: nat)

  datatype Stage = Resting | Loading(copy: Copy) | Fanning(copy: Copy, fingerprint: nat)

  datatype Queue = Queue(pending: seq<Copy>, draining: bool, scheduled: bool, last: Option<Loaded>, stage: Stage)

  datatype Outcome = ResolvedTrue | ResolvedFalse | Conflicting | StaleSequence | FailedCopy

  /** `held` are the unsettled copies, `fanouts` the completed fan-outs, `forgotten` the lobbies dropped from the table. */
  datatype State = State(
    queues: map<Lobby, Queue>,
    lasts: Table<Lobby, Loaded>,
    prints: Table<(Lobby, nat), nat>,
    outcomes: map<Id, Outcome>,
    held: map<Id, Lobby>,
    fanouts: seq<(Lobby, Loaded)>,
    forgotten: set<Lobby>)

  const Bound := 10_000

  const Empty := State(map[], [], [], map[], map[], [], {})

  // ---------- steps ----------

  /** The first of the copies with the lowest sequence, which the stable sort puts in front. */
  function Lowest(pending: seq<Copy>): (i: nat)
    requires pending != []
    ensures i < |pending|
    ensures forall j | 0 <= j < |pending| :: pending[i].sequence <= pending[j].sequence
    ensures forall j | 0 <= j < i :: pending[i].sequence < pending[j].sequence
  {
    var n := |pending| - 1;
    if n == 0 then 0 else
    var i := Lowest(pending[..n]);
    if pending[n].sequence < pending[i].sequence then n else i
  }

  /** The synchronous stretch of the drainer up to its next await: take the next copy, or end and delete the queue. */
  function Advance(s: State, lobby: Lobby): State
    requires lobby in s.queues
  {
    var q := s.queues[lobby];
    if q.pending == [] then s.(queues := s.queues - {lobby}) else
    var i := Lowest(q.pending);
    s.(queues := s.queues[lobby := q.(pending := q.pending[..i] + q.pending[i + 1..], stage := Loading(q.pending[i]))])
  }

  function Settle(s: State, id: Id, outcome: Outcome): State {
    s.(outcomes := s.outcomes[id := outcome], held := s.held - {id})
  }

  function Enqueue(s: State, lobby: Lobby, copy: Copy): State {
    var q := if lobby in s.queues then s.queues[lobby] else Queue([], false, false, Lookup(s.lasts, lobby), Resting);
    s.(queues := s.queues[lobby := q.(pending := q.pending + [copy], scheduled := q.scheduled || !q.draining)],
       held := s.held[copy.id := lobby])
  }

  function StartDrain(s: State, lobby: Lobby): State
    requires lobby in s.queues
  {
    Advance(s.(queues := s.queues[lobby := s.queues[lobby].(scheduled := false, draining := true)]), lobby)
  }

  /** How a loaded event at or below the last delivered one is settled. */
  function Settlement(s: State, lobby: Lobby, event: Loaded): Outcome {
    var known := Lookup(s.prints, (lobby, event.sequence));
    if known == Some(event.fingerprint) then ResolvedFalse else if known.Some? then Conflicting else StaleSequence
  }

  predicate AlreadyPassed(q: Queue, sequence: nat) {
    q.last.Some? && sequence <= q.last.value.sequence
  }

  /** The event was loaded; None where loading threw. */
  function Load(s: State, lobby: Lobby, event: Option<Loaded>): State
    requires lobby in s.queues && s.queues[lobby].stage.Loading?
  {
    var q := s.queues[lobby];
    var copy := q.stage.copy;
    if event.None? || event.value.sequence != copy.sequence then Advance(Settle(s, copy.id, FailedCopy), lobby)
    else if AlreadyPassed(q, copy.sequence) then
      var outcome := Settlement(s, lobby, event.value);
      var prints := if outcome.ResolvedFalse? then Remember(s.prints, (lobby, copy.sequence), event.value.fingerprint, Bound) else s.prints;
      Advance(Settle(s.(prints := prints), copy.id, outcome), lobby)
    else s.(queues := s.queues[lobby := q.(stage := Fanning(copy, event.value.fingerprint))])
  }

  function Forgotten(s: State, lobby: Lobby): set<Lobby> {
    var d := Dropped(s.lasts, lobby, Bound);
    s.forgotten + if d.Some? then {d.value} else {}
  }

  /** All sockets were handled. */
  function FinishFanout(s: State, lobby: Lobby): State
    requires lobby in s.queues && s.queues[lobby].stage.Fanning?
  {
    var q := s.queues[lobby];
    var event := Loaded(q.stage.copy.sequence, q.stage.fingerprint);
    var t := s.(queues := s.queues[lobby := q.(last := Some(event))],
                forgotten := Forgotten(s, lobby),
                lasts := Remember(s.lasts, lobby, event, Bound),
                prints := Remember(s.prints, (lobby, event.sequence), event.fingerprint, Bound),
                fanouts := s.fanouts + [(lobby, event)]);
    Advance(Settle(t, q.stage.copy.id, ResolvedTrue), lobby)
  }

  /** Listing the sockets or handling one of them threw. */
  function FailFanout(s: State, lobby: Lobby): State
    requires lobby in s.queues && s.queues[lobby].stage.Fanning?
  {
    Advance(Settle(s, s.queues[lobby].stage.copy.id, FailedCopy), lobby)
  }

  datatype Step =
    | DoEnqueue(lobby: Lobby, copy: Copy)
    | DoStart(lobby: Lobby)
    | DoLoad(lobby: Lobby, event: Option<Loaded>)
    | DoFinish(lobby: Lobby)
    | DoFail(lobby: Lobby)

  predicate Enabled(s: State, e: Step) {
    match e
    case DoEnqueue(_, copy) => copy.id !in s.held && copy.id !in s.outcomes
    case DoStart(lobby) => lobby in s.queues && s.queues[lobby].scheduled
    case DoLoad(lobby, _) => lobby in s.queues && s.queues[lobby].stage.Loading?
    case DoFinish(lobby) => lobby in s.queues && s.queues[lobby].stage.Fanning?
    case DoFail(lobby) => lobby in s.queues && s.queues[lobby].stage.Fanning?
  }

  function After(s: State, e: Step): State
    requires Enabled(s, e)
  {
    match e
    case DoEnqueue(lobby, copy) => Enqueue(s, lobby, copy)
    case DoStart(lobby) => StartDrain(s, lobby)
    case DoLoad(lobby, event) => Load(s, lobby, event)
    case DoFinish(lobby) => FinishFanout(s, lobby)
    case DoFail(lobby) => FailFanout(s, lobby)
  }

  // ---------- the invariant ----------

  /** Either one drain is scheduled, or one is running. */
  predicate OneDrainer(q: Queue) {
    && (q.draining <==> !q.stage.Resting?)
    && (q.draining <==> !q.scheduled)
    && (q.scheduled ==> q.pending != [])
  }

  function IdsOf(copies: seq<Copy>): seq<Id> {
    seq(|copies|, i requires 0 <= i < |copies| => copies[i].id)
  }

  function Unsettled(q: Queue): seq<Id> {
    IdsOf(q.pending) + if q.stage.Resting? then [] else [q.stage.copy.id]
  }

  predicate DistinctIds(s: seq<Id>) {
    forall i, j | 0 <= i < j < |s| :: s[i] != s[j]
  }

  /** The completed fan-outs of the lobby. */
  function History(fanouts: seq<(Lobby, Loaded)>, lobby: Lobby): seq<Loaded> {
    if fanouts == [] then [] else
    History(fanouts[..|fanouts| - 1], lobby)
    + if fanouts[|fanouts| - 1].0 == lobby then [fanouts[|fanouts| - 1].1] else []
  }

  predicate Increasing(h: seq<Loaded>) {
    forall i, j | 0 <= i < j < |h| :: h[i].sequence < h[j].sequence
  }

  function LastOf(h: seq<Loaded>): Option<Loaded> {
    if h == [] then None else Some(h[|h| - 1])
  }

  /** Fan-outs of a remembered lobby increase, and table and queue know the last one. */
  predicate LobbyOk(s: State, lobby: Lobby) {
    var h := History(s.fanouts, lobby);
    && Increasing(h)
    && Lookup(s.lasts, lobby) == LastOf(h)
    && (lobby in s.queues ==>
          && s.queues[lobby].last == LastOf(h)
          && (s.queues[lobby].stage.Fanning? && h != [] ==> h[|h| - 1].sequence < s.queues[lobby].stage.copy.sequence))
  }

  /** Every unsettled copy is held, once, by the queue of its lobby. */
  ghost predicate HeldOk(s: State) {
    && (forall lobby | lobby in s.queues :: DistinctIds(Unsettled(s.queues[lobby])))
    && (forall lobby, id | lobby in s.queues && id in Unsettled(s.queues[lobby]) :: id in s.held && s.held[id] == lobby)
    && (forall id | id in s.held :: s.held[id] in s.queues && id in Unsettled(s.queues[s.held[id]]))
    && s.held.Keys !! s.outcomes.Keys
  }

  predicate DrainersOk(s: State) {
    forall lobby | lobby in s.queues :: OneDrainer(s.queues[lobby])
  }

  predicate TablesOk(s: State) {
    Keyed(s.lasts) && Keyed(s.prints) && |s.lasts| <= Bound && |s.prints| <= Bound
  }

  ghost predicate LobbiesOk(s: State) {
    forall lobby | lobby !in s.forgotten :: LobbyOk(s, lobby)
  }

  /** Remembered fingerprints are those of fan-outs. */
  ghost predicate PrintsOk(s: State) {
    forall lobby, k: nat | lobby !in s.forgotten && Lookup(s.prints, (lobby, k)).Some? ::
      Loaded(k, Lookup(s.prints, (lobby, k)).value) in History(s.fanouts, lobby)
  }

  ghost predicate Inv(s: State) {
    DrainersOk(s) && HeldOk(s) && TablesOk(s) && LobbiesOk(s) && PrintsOk(s)
  }

  // ---------- held copies ----------

  lemma TakeOne(pending: seq<Copy>, i: nat)
    requires i < |pending| && DistinctIds(IdsOf(pending))
    ensures DistinctIds(IdsOf(pending[..i] + pending[i + 1..]) + [pending[i].id])
    ensures forall id :: id in IdsOf(pending) <==> id in IdsOf(pending[..i] + pending[i + 1..]) + [pending[i].id]
  {
    var rest := pending[..i] + pending[i + 1..];
    var ids := IdsOf(rest) + [pending[i].id];
    forall a, b | 0 <= a < b < |ids| ensures ids[a] != ids[b] {
      var u := if a < i then a else a + 1;
      var v := if b < i then b else if b < |rest| then b + 1 else i;
      assert ids[a] == IdsOf(pending)[u] && ids[b] == IdsOf(pending)[v] && u != v;
    }
    forall id | id in IdsOf(pending) ensures id in ids {
      var j :| 0 <= j < |pending| && pending[j].id == id;
      if j < i { assert rest[j] == pending[j] && ids[j] == id; }
      else if j > i { assert rest[j - 1] == pending[j] && ids[j - 1] == id; }
      else { assert ids[|rest|] == id; }
    }
    forall id | id in ids ensures id in IdsOf(pending) {
      var j :| 0 <= j < |ids| && ids[j] == id;
      var k := if j < i then j else if j < |rest| then j + 1 else i;
      assert IdsOf(pending)[k] == id;
    }
  }

  /** The queue of the lobby has no copy in the drainer's hands, and the rest is in order. */
  ghost predicate Between(s: State, lobby: Lobby) {
    && lobby in s.queues
    && (forall l | l in s.queues && l != lobby :: DistinctIds(Unsettled(s.queues[l])))
    && DistinctIds(IdsOf(s.queues[lobby].pending))
    && (forall l, id | l in s.queues && l != lobby && id in Unsettled(s.queues[l]) :: id in s.held && s.held[id] == l)
    && (forall id | id in IdsOf(s.queues[lobby].pending) :: id in s.held && s.held[id] == lobby)
    && (forall id | id in s.held ::
          s.held[id] in s.queues && id in if s.held[id] == lobby then IdsOf(s.queues[lobby].pending) else Unsettled(s.queues[s.held[id]]))
    && s.held.Keys !! s.outcomes.Keys
  }

  lemma TakenQueue(q: Queue, i: nat)
    requires i < |q.pending| && DistinctIds(IdsOf(q.pending))
    ensures var r := q.(pending := q.pending[..i] + q.pending[i + 1..], stage := Loading(q.pending[i]));
            DistinctIds(Unsettled(r)) && forall id :: id in Unsettled(r) <==> id in IdsOf(q.pending)
  {
    hide DistinctIds, IdsOf;
    TakeOne(q.pending, i);
  }

  lemma AdvanceHolds(s: State, lobby: Lobby)
    requires Between(s, lobby)
    ensures HeldOk(Advance(s, lobby))
  {
    hide DistinctIds, IdsOf, Unsettled, Lowest;
    var q := s.queues[lobby];
    if q.pending == [] {
      NoIds();
    } else {
      TakenQueue(q, Lowest(q.pending));
    }
  }

  lemma NoIds()
    ensures IdsOf([]) == []
  {
  }

  lemma CopyInHand(q: Queue)
    requires !q.stage.Resting? && DistinctIds(Unsettled(q))
    ensures DistinctIds(IdsOf(q.pending)) && q.stage.copy.id !in IdsOf(q.pending) && q.stage.copy.id in Unsettled(q)
    ensures forall x :: x in Unsettled(q) <==> x in IdsOf(q.pending) || x == q.stage.copy.id
  {
    hide DistinctIds;
    DistinctFront(IdsOf(q.pending), q.stage.copy.id);
  }

  lemma SettleBetween(s: State, lobby: Lobby, outcome: Outcome)
    requires HeldOk(s) && lobby in s.queues && !s.queues[lobby].stage.Resting?
    ensures Between(Settle(s, s.queues[lobby].stage.copy.id, outcome), lobby)
  {
    hide DistinctIds, IdsOf, Unsettled;
    var q := s.queues[lobby];
    var id := q.stage.copy.id;
    CopyInHand(q);
    var t := Settle(s, id, outcome);
    forall l, x | l in t.queues && l != lobby && x in Unsettled(t.queues[l]) ensures x in t.held && t.held[x] == l {
      assert s.held[x] == l;
    }
    forall x | x in IdsOf(q.pending) ensures x in t.held && t.held[x] == lobby {
      assert x in Unsettled(q);
    }
  }

  lemma DistinctFront(s: seq<Id>, x: Id)
    requires DistinctIds(s + [x])
    ensures DistinctIds(s) && x !in s
  {
    forall i, j | 0 <= i < j < |s| ensures s[i] != s[j] {
      assert (s + [x])[i] == s[i] && (s + [x])[j] == s[j];
    }
    forall i | 0 <= i < |s| ensures s[i] != x {
      assert (s + [x])[i] == s[i] && (s + [x])[|s|] == x;
    }
  }

  // ---------- every step keeps the invariant ----------

  /** Advancing touches only the queue of its lobby, and there neither the last event nor a fan-out. */
  lemma AdvanceFrame(s: State, lobby: Lobby)
    requires lobby in s.queues
    ensures var t := Advance(s, lobby);
            && t.lasts == s.lasts && t.prints == s.prints && t.fanouts == s.fanouts && t.forgotten == s.forgotten
            && t.outcomes == s.outcomes && t.held == s.held
            && (forall l | l in t.queues :: l in s.queues && (l != lobby ==> t.queues[l] == s.queues[l]))
            && (forall l | l in s.queues && l != lobby :: l in t.queues)
            && (lobby in t.queues <==> s.queues[lobby].pending != [])
            && (lobby in t.queues ==>
                  && t.queues[lobby].last == s.queues[lobby].last && t.queues[lobby].stage.Loading?
                  && t.queues[lobby].draining == s.queues[lobby].draining && t.queues[lobby].scheduled == s.queues[lobby].scheduled)
  {
  }

  lemma AdvanceKeeps(s: State, lobby: Lobby)
    requires Between(s, lobby) && TablesOk(s) && LobbiesOk(s) && PrintsOk(s)
    requires forall l | l in s.queues && l != lobby :: OneDrainer(s.queues[l])
    requires s.queues[lobby].draining && !s.queues[lobby].scheduled
    ensures Inv(Advance(s, lobby))
  {
    hide Advance, Between, HeldOk, Lookup, Keyed, Increasing;
    assert lobby in s.queues by { BetweenHas(s, lobby); }
    AdvanceFrame(s, lobby);
    AdvanceHolds(s, lobby);
    var t := Advance(s, lobby);
    forall l | l !in t.forgotten ensures LobbyOk(t, l) { assert LobbyOk(s, l); }
  }

  lemma BetweenHas(s: State, lobby: Lobby)
    requires Between(s, lobby)
    ensures lobby in s.queues
  {
  }

  lemma EnqueuedQueue(q: Queue, copy: Copy, scheduled: bool)
    requires DistinctIds(Unsettled(q)) && copy.id !in Unsettled(q)
    ensures var r := q.(pending := q.pending + [copy], scheduled := scheduled);
            DistinctIds(Unsettled(r)) && forall id :: id in Unsettled(r) <==> id in Unsettled(q) || id == copy.id
  {
    hide DistinctIds;
    var r := q.(pending := q.pending + [copy], scheduled := scheduled);
    var tail := if q.stage.Resting? then [] else [q.stage.copy.id];
    assert IdsOf(r.pending) == IdsOf(q.pending) + [copy.id];
    Between3(IdsOf(q.pending), copy.id, tail);
  }

  lemma EnqueueHeld(s: State, lobby: Lobby, copy: Copy)
    requires HeldOk(s) && copy.id !in s.held && copy.id !in s.outcomes
    ensures HeldOk(Enqueue(s, lobby, copy))
  {
    hide Lookup, Unsettled, DistinctIds;
    var q := if lobby in s.queues then s.queues[lobby] else Queue([], false, false, Lookup(s.lasts, lobby), Resting);
    if lobby !in s.queues { NothingUnsettled(q); }
    assert copy.id !in Unsettled(q);
    EnqueuedQueue(q, copy, q.scheduled || !q.draining);
  }

  lemma NothingUnsettled(q: Queue)
    requires q.pending == [] && q.stage.Resting?
    ensures Unsettled(q) == [] && DistinctIds(Unsettled(q))
  {
  }

  lemma Between3(a: seq<Id>, x: Id, b: seq<Id>)
    requires DistinctIds(a + b) && x !in a + b
    ensures DistinctIds(a + [x] + b)
    ensures forall id :: id in a + [x] + b <==> id in a + b || id == x
  {
    var s, t := a + b, a + [x] + b;
    forall i, j | 0 <= i < j < |t| ensures t[i] != t[j] {
      var u := if i < |a| then i else i - 1;
      var v := if j < |a| then j else j - 1;
      if i != |a| { assert t[i] == s[u]; }
      if j != |a| { assert t[j] == s[v]; }
    }
    forall id ensures id in t <==> id in s || id == x {
      if id in s {
        var i :| 0 <= i < |s| && s[i] == id;
        assert t[if i < |a| then i else i + 1] == id;
      }
      if id == x { assert t[|a|] == id; }
    }
  }

  lemma EnqueueKeeps(s: State, lobby: Lobby, copy: Copy)
    requires Inv(s) && Enabled(s, DoEnqueue(lobby, copy))
    ensures Inv(Enqueue(s, lobby, copy))
  {
    hide HeldOk, Lookup, Keyed, Increasing, Unsettled;
    EnqueueHeld(s, lobby, copy);
    var t := Enqueue(s, lobby, copy);
    forall l | l !in t.forgotten ensures LobbyOk(t, l) { assert LobbyOk(s, l); }
  }

  lemma StartKeeps(s: State, lobby: Lobby)
    requires Inv(s) && Enabled(s, DoStart(lobby))
    ensures Inv(StartDrain(s, lobby))
  {
    hide Lookup, Keyed, Increasing, Advance, DistinctIds, IdsOf;
    var q := s.queues[lobby];
    assert OneDrainer(q);
    var t := s.(queues := s.queues[lobby := q.(scheduled := false, draining := true)]);
    forall l | l !in t.forgotten ensures LobbyOk(t, l) { assert LobbyOk(s, l); }
    assert Unsettled(q) == IdsOf(q.pending);
    assert Between(t, lobby);
    AdvanceKeeps(t, lobby);
  }

  /** Settling the drainer's copy and going on. */
  lemma SettleKeeps(s: State, lobby: Lobby, outcome: Outcome)
    requires Inv(s) && lobby in s.queues && s.queues[lobby].draining
    ensures Inv(Advance(Settle(s, s.queues[lobby].stage.copy.id, outcome), lobby))
  {
    hide Lookup, Keyed, Increasing, Advance, Between, HeldOk, Unsettled;
    assert OneDrainer(s.queues[lobby]);
    SettleBetween(s, lobby, outcome);
    var t := Settle(s, s.queues[lobby].stage.copy.id, outcome);
    forall l | l !in t.forgotten ensures LobbyOk(t, l) { assert LobbyOk(s, l); }
    AdvanceKeeps(t, lobby);
  }

  /** Refreshing a fingerprint that is already there. */
  lemma RefreshKeeps(s: State, lobby: Lobby, k: nat, stored: nat)
    requires Inv(s) && Lookup(s.prints, (lobby, k)) == Some(stored)
    ensures Inv(s.(prints := Remember(s.prints, (lobby, k), stored, Bound)))
  {
    hide Lookup, Keyed, Increasing, Remember, HeldOk, History;
    var t := s.(prints := Remember(s.prints, (lobby, k), stored, Bound));
    HeldFrame(s, t);
    RememberKeyed(s.prints, (lobby, k), stored, Bound);
    forall l | l !in t.forgotten ensures LobbyOk(t, l) { assert LobbyOk(s, l); }
    forall l, j: nat | l !in t.forgotten && Lookup(t.prints, (l, j)).Some?
      ensures Loaded(j, Lookup(t.prints, (l, j)).value) in History(t.fanouts, l)
    {
      RememberLookup(s.prints, (lobby, k), stored, Bound, (l, j));
    }
  }

  lemma HeldFrame(s: State, t: State)
    requires HeldOk(s) && t.queues == s.queues && t.held == s.held && t.outcomes == s.outcomes
    ensures HeldOk(t)
  {
  }

  lemma LoadKeeps(s: State, lobby: Lobby, event: Option<Loaded>)
    requires Inv(s) && Enabled(s, DoLoad(lobby, event))
    ensures Inv(Load(s, lobby, event))
  {
    hide Inv, Advance, Remember, Lookup;
    var q := s.queues[lobby];
    var copy := q.stage.copy;
    DrainingHere(s, lobby);
    if event.None? || event.value.sequence != copy.sequence {
      SettleKeeps(s, lobby, FailedCopy);
    } else if AlreadyPassed(q, copy.sequence) {
      var outcome := Settlement(s, lobby, event.value);
      if outcome.ResolvedFalse? {
        RefreshKeeps(s, lobby, copy.sequence, event.value.fingerprint);
        SettleKeeps(s.(prints := Remember(s.prints, (lobby, copy.sequence), event.value.fingerprint, Bound)), lobby, outcome);
      } else {
        SettleKeeps(s, lobby, outcome);
      }
    } else {
      BeginFanoutKeeps(s, lobby, event.value);
    }
  }

  lemma DrainingHere(s: State, lobby: Lobby)
    requires Inv(s) && lobby in s.queues && !s.queues[lobby].stage.Resting?
    ensures s.queues[lobby].draining && !s.queues[lobby].scheduled
  {
    assert OneDrainer(s.queues[lobby]);
  }

  lemma BeginFanoutKeeps(s: State, lobby: Lobby, event: Loaded)
    requires Inv(s) && lobby in s.queues && s.queues[lobby].stage.Loading?
    requires event.sequence == s.queues[lobby].stage.copy.sequence && !AlreadyPassed(s.queues[lobby], event.sequence)
    ensures Inv(s.(queues := s.queues[lobby := s.queues[lobby].(stage := Fanning(s.queues[lobby].stage.copy, event.fingerprint))]))
  {
    hide Lookup, Keyed, Increasing, History;
    var q := s.queues[lobby];
    var t := s.(queues := s.queues[lobby := q.(stage := Fanning(q.stage.copy, event.fingerprint))]);
    assert OneDrainer(q);
    assert Unsettled(t.queues[lobby]) == Unsettled(q);
    forall l | l !in t.forgotten ensures LobbyOk(t, l) { assert LobbyOk(s, l); }
  }

  lemma HistorySnoc(fanouts: seq<(Lobby, Loaded)>, lobby: Lobby, event: Loaded, l: Lobby)
    ensures History(fanouts + [(lobby, event)], l) == if l == lobby then History(fanouts, l) + [event] else History(fanouts, l)
  {
    assert (fanouts + [(lobby, event)])[..|fanouts|] == fanouts;
  }

  function Fanned(s: State, lobby: Lobby, event: Loaded): State
    requires lobby in s.queues
  {
    s.(queues := s.queues[lobby := s.queues[lobby].(last := Some(event))],
       forgotten := Forgotten(s, lobby),
       lasts := Remember(s.lasts, lobby, event, Bound),
       prints := Remember(s.prints, (lobby, event.sequence), event.fingerprint, Bound),
       fanouts := s.fanouts + [(lobby, event)])
  }

  /** The state between recording a fan-out and settling its copy; the queue is not looked at again before. */
  ghost predicate FannedLobbyOk(t: State, l: Lobby) {
    var h := History(t.fanouts, l);
    && Increasing(h) && Lookup(t.lasts, l) == LastOf(h)
    && (l in t.queues ==> t.queues[l].last == LastOf(h))
  }

  lemma FannedLobby(s: State, lobby: Lobby, event: Loaded, l: Lobby, copy: Copy)
    requires Inv(s) && lobby in s.queues && s.queues[lobby].stage == Fanning(copy, event.fingerprint) && copy.sequence == event.sequence
    requires l !in Forgotten(s, lobby)
    ensures FannedLobbyOk(Fanned(s, lobby, event), l)
    ensures l != lobby && l in s.queues ==> LobbyOk(Fanned(s, lobby, event), l)
  {
    hide Lookup, Keyed, Remember, History, Dropped, HeldOk, PrintsOk, DrainersOk, Increasing;
    assert LobbyOk(s, l);
    HistorySnoc(s.fanouts, lobby, event, l);
    RememberLookup(s.lasts, lobby, event, Bound, l);
    if l == lobby { SnocIncreases(History(s.fanouts, l), event); }
  }

  lemma SnocIncreases(h: seq<Loaded>, event: Loaded)
    requires Increasing(h) && (h != [] ==> h[|h| - 1].sequence < event.sequence)
    ensures Increasing(h + [event])
  {
  }

  lemma FannedPrints(s: State, lobby: Lobby, event: Loaded)
    requires Inv(s) && lobby in s.queues
    ensures PrintsOk(Fanned(s, lobby, event))
  {
    hide Lookup, Keyed, Remember, History, Dropped, HeldOk, LobbiesOk, DrainersOk;
    var t := Fanned(s, lobby, event);
    forall l, k: nat | l !in t.forgotten && Lookup(t.prints, (l, k)).Some?
      ensures Loaded(k, Lookup(t.prints, (l, k)).value) in History(t.fanouts, l)
    {
      RememberLookup(s.prints, (lobby, event.sequence), event.fingerprint, Bound, (l, k));
      HistorySnoc(s.fanouts, lobby, event, l);
    }
  }

  lemma FinishKeeps(s: State, lobby: Lobby)
    requires Inv(s) && Enabled(s, DoFinish(lobby))
    ensures Inv(FinishFanout(s, lobby))
  {
    hide Lookup, Keyed, Remember, History, Dropped, HeldOk, Increasing, Advance, Between, Unsettled;
    var q := s.queues[lobby];
    var event := Loaded(q.stage.copy.sequence, q.stage.fingerprint);
    assert OneDrainer(q);
    var t := Fanned(s, lobby, event);
    FannedPrints(s, lobby, event);
    RememberKeyed(s.lasts, lobby, event, Bound);
    RememberKeyed(s.prints, (lobby, event.sequence), event.fingerprint, Bound);
    FannedHeld(s, lobby, event);
    SettleBetween(t, lobby, ResolvedTrue);
    var u := Settle(t, q.stage.copy.id, ResolvedTrue);
    BetweenDropsStage(u, lobby);
    var v := u.(queues := u.queues[lobby := u.queues[lobby].(stage := Loading(q.stage.copy))]);
    forall l | l !in v.forgotten ensures LobbyOk(v, l) {
      FannedLobby(s, lobby, event, l, q.stage.copy);
    }
    AdvanceKeeps(v, lobby);
    AdvanceForgets(u, lobby, Loading(q.stage.copy));
  }

  lemma FannedHeld(s: State, lobby: Lobby, event: Loaded)
    requires HeldOk(s) && lobby in s.queues
    ensures HeldOk(Fanned(s, lobby, event))
  {
    hide Remember, Dropped, DistinctIds, IdsOf;
    var t := Fanned(s, lobby, event);
    assert forall l | l in t.queues :: l in s.queues && Unsettled(t.queues[l]) == Unsettled(s.queues[l]);
  }

  lemma BetweenDropsStage(s: State, lobby: Lobby)
    requires Between(s, lobby)
    ensures lobby in s.queues
    ensures forall stage :: Between(s.(queues := s.queues[lobby := s.queues[lobby].(stage := stage)]), lobby)
  {
    hide DistinctIds, IdsOf;
  }

  /** What the drainer had in hand does not matter to the next copy. */
  lemma AdvanceForgets(s: State, lobby: Lobby, stage: Stage)
    requires lobby in s.queues
    ensures Advance(s.(queues := s.queues[lobby := s.queues[lobby].(stage := stage)]), lobby) == Advance(s, lobby)
  {
    hide Lowest;
    var q := s.queues[lobby];
    if q.pending != [] {
      var i := Lowest(q.pending);
      var next := q.(pending := q.pending[..i] + q.pending[i + 1..], stage := Loading(q.pending[i]));
      Overwritten(s.queues, lobby, q.(stage := stage), next);
    } else {
      Overwritten(s.queues, lobby, q.(stage := stage), q);
    }
  }

  lemma Overwritten(queues: map<Lobby, Queue>, lobby: Lobby, q: Queue, r: Queue)
    ensures queues[lobby := q][lobby := r] == queues[lobby := r]
    ensures queues[lobby := q] - {lobby} == queues - {lobby}
  {
  }

  lemma StepKeeps(s: State, e: Step)
    requires Inv(s) && Enabled(s, e)
    ensures Inv(After(s, e))
  {
    hide Inv, Enqueue, StartDrain, Load, FinishFanout, FailFanout;
    match e
    case DoEnqueue(lobby, copy) => EnqueueKeeps(s, lobby, copy);
    case DoStart(lobby) => StartKeeps(s, lobby);
    case DoLoad(lobby, event) => LoadKeeps(s, lobby, event);
    case DoFinish(lobby) => FinishKeeps(s, lobby);
    case DoFail(lobby) => FailKeeps(s, lobby);
  }

  lemma FailKeeps(s: State, lobby: Lobby)
    requires Inv(s) && Enabled(s, DoFail(lobby))
    ensures Inv(FailFanout(s, lobby))
  {
    hide Inv, Advance;
    DrainingHere(s, lobby);
    SettleKeeps(s, lobby, FailedCopy);
  }
}
