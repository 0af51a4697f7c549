/** Classifying database errors by searching a possibly cyclic graph, and the bounded retry of transactions. */
module Retry {

  import opened Common

  // ---------- errors ----------

  datatype Code = DeadlockCode | SerializationCode | WriteConflictCode | OtherCode

  /** What an error field refers to; anything but an object counts as nothing. */
  datatype Ref = Nothing | Object(id: Id)

  datatype ErrorObject = ErrorObject(code: Code, originalCode: Code, sqlState: Code, cause: Ref, meta: Ref, driverError: Ref)

  /** All objects that the fields refer to are there. */
  predicate Closed(heap: map<Id, ErrorObject>) {
    forall k, r | k in heap && r in Children(heap[k]) :: r.Object? ==> r.id in heap
  }

  function Children(e: ErrorObject): seq<Ref> {
    [e.cause, e.meta, e.driverError]
  }

  predicate IsDeadlock(e: ErrorObject) {
    e.code.DeadlockCode? || e.originalCode.DeadlockCode? || e.sqlState.DeadlockCode?
  }

  predicate IsConflict(e: ErrorObject) {
    e.code.WriteConflictCode? || e.code.SerializationCode? || e.originalCode.SerializationCode? || e.sqlState.SerializationCode?
  }

  /** A way from the first object along causes, metadata and driver errors. */
  predicate IsPath(heap: map<Id, ErrorObject>, path: seq<Id>) {
    && path != [] && (forall i | 0 <= i < |path| :: path[i] in heap)
    && forall i | 0 <= i < |path| - 1 :: Object(path[i + 1]) in Children(heap[path[i]])
  }

  ghost predicate Reachable(heap: map<Id, ErrorObject>, from: Ref, k: Id) {
    from.Object? && exists path :: IsPath(heap, path) && path[0] == from.id && path[|path| - 1] == k
  }

  datatype Reason = SerializationConflict | Deadlock

  /** A deadlock anywhere wins over a conflict anywhere. */
  ghost function ReasonOf(heap: map<Id, ErrorObject>, from: Ref): Option<Reason> {
    if exists k :: Reachable(heap, from, k) && k in heap && IsDeadlock(heap[k]) then Some(Deadlock)
    else if exists k :: Reachable(heap, from, k) && k in heap && IsConflict(heap[k]) then Some(SerializationConflict)
    else None
  }

  lemma ReachesItself(heap: map<Id, ErrorObject>, from: Ref)
    requires from.Object? && from.id in heap
    ensures Reachable(heap, from, from.id)
  {
    assert IsPath(heap, [from.id]);
  }

  lemma ReachesChild(heap: map<Id, ErrorObject>, from: Ref, k: Id, child: Ref)
    requires Reachable(heap, from, k) && k in heap && child in Children(heap[k]) && child.Object? && child.id in heap
    ensures Reachable(heap, from, child.id)
  {
    var path :| IsPath(heap, path) && path[0] == from.id && path[|path| - 1] == k;
    var longer := path + [child.id];
    assert IsPath(heap, longer) && longer[0] == from.id && longer[|longer| - 1] == child.id;
  }

  /** A set that holds the start and all children of its members holds everything reachable. */
  lemma {:induction false} ClosedSetHoldsPath(heap: map<Id, ErrorObject>, s: set<Id>, path: seq<Id>)
    requires IsPath(heap, path) && path[0] in s
    requires forall k, r | k in s && k in heap && r in Children(heap[k]) && r.Object? :: r.id in s
    ensures path[|path| - 1] in s
  {
    if |path| > 1 {
      var front := path[..|path| - 1];
      assert IsPath(heap, front);
      ClosedSetHoldsPath(heap, s, front);
      assert Object(path[|path| - 1]) in Children(heap[front[|front| - 1]]);
    }
  }

  lemma VisitedAll(heap: map<Id, ErrorObject>, from: Ref, visited: set<Id>, k: Id)
    requires from.Object? && from.id in visited && Reachable(heap, from, k)
    requires forall v, r | v in visited && v in heap && r in Children(heap[v]) && r.Object? :: r.id in visited
    ensures k in visited
  {
    var path :| IsPath(heap, path) && path[0] == from.id && path[|path| - 1] == k;
    ClosedSetHoldsPath(heap, visited, path);
  }

  /** Everything visited is reachable and no deadlock, and everything reachable is visited or leads through a candidate. */
  ghost predicate Searching(heap: map<Id, ErrorObject>, error: Ref, visited: set<Id>, candidates: seq<Ref>, conflict: bool) {
    && visited <= heap.Keys
    && (forall r | r in candidates && r.Object? :: r.id in heap && Reachable(heap, error, r.id))
    && (forall v | v in visited :: Reachable(heap, error, v) && !IsDeadlock(heap[v]))
    && (conflict <==> exists v | v in visited :: IsConflict(heap[v]))
    && (error.Object? ==> error.id in visited || error in candidates)
    && (forall v, r | v in visited && r in Children(heap[v]) && r.Object? :: r.id in visited || r in candidates)
  }

  lemma SkipKeeps(heap: map<Id, ErrorObject>, error: Ref, visited: set<Id>, candidates: seq<Ref>, conflict: bool)
    requires Searching(heap, error, visited, candidates, conflict) && candidates != []
    requires candidates[0] == Nothing || candidates[0].id in visited
    ensures Searching(heap, error, visited, candidates[1..], conflict)
  {
    hide Reachable, IsDeadlock, IsConflict, Children;
    assert forall r :: r in candidates <==> r == candidates[0] || r in candidates[1..];
  }

  lemma VisitKeeps(heap: map<Id, ErrorObject>, error: Ref, visited: set<Id>, candidates: seq<Ref>, conflict: bool)
    requires Closed(heap) && Searching(heap, error, visited, candidates, conflict) && candidates != [] && candidates[0].Object?
    requires candidates[0].id in heap && !IsDeadlock(heap[candidates[0].id])
    ensures var k := candidates[0].id;
            Searching(heap, error, visited + {k}, candidates[1..] + Children(heap[k]), conflict || IsConflict(heap[k]))
  {
    hide Reachable, IsDeadlock, IsConflict, Children;
    var k := candidates[0].id;
    assert candidates[0] in candidates;
    assert forall r :: r in candidates <==> r == candidates[0] || r in candidates[1..];
    forall r | r in Children(heap[k]) && r.Object? ensures r.id in heap && Reachable(heap, error, r.id) {
      ReachesChild(heap, error, k, r);
    }
  }

  lemma CandidateIsReachable(heap: map<Id, ErrorObject>, error: Ref, visited: set<Id>, candidates: seq<Ref>, conflict: bool)
    requires Searching(heap, error, visited, candidates, conflict) && candidates != [] && candidates[0].Object?
    ensures candidates[0].id in heap && Reachable(heap, error, candidates[0].id) && visited <= heap.Keys
  {
    hide Reachable, IsDeadlock, IsConflict, Children;
    assert candidates[0] in candidates;
  }

  lemma SearchedAll(heap: map<Id, ErrorObject>, error: Ref, visited: set<Id>, conflict: bool)
    requires Searching(heap, error, visited, [], conflict)
    ensures ReasonOf(heap, error) == if conflict then Some(SerializationConflict) else None
  {
    hide Reachable, IsDeadlock, IsConflict, Children;
    forall k | Reachable(heap, error, k) ensures k in visited {
      StartIsObject(heap, error, k);
      VisitedAll(heap, error, visited, k);
    }
  }

  lemma StartIsObject(heap: map<Id, ErrorObject>, error: Ref, k: Id)
    requires Reachable(heap, error, k)
    ensures error.Object?
  {
  }

  /** Searches the graph once per object, cycles or not, and stops at the first deadlock. */
  method RetryReason(heap: map<Id, ErrorObject>, error: Ref) returns (reason: Option<Reason>)
    requires Closed(heap) && (error.Object? ==> error.id in heap)
    ensures reason == ReasonOf(heap, error)
  {
    hide Reachable, IsDeadlock, IsConflict, Children, Searching, Closed;
    var visited: set<Id> := {};
    var candidates := [error];
    var conflict := false;
    SearchStarts(heap, error);
    while candidates != []
      invariant visited <= heap.Keys && Searching(heap, error, visited, candidates, conflict)
      decreases |heap.Keys - visited|, |candidates|
    {
      var current := candidates[0];
      if current == Nothing || current.id in visited {
        SkipKeeps(heap, error, visited, candidates, conflict);
        candidates := candidates[1..];
        continue;
      }
      CandidateIsReachable(heap, error, visited, candidates, conflict);
      var k := current.id;
      if IsDeadlock(heap[k]) { return Some(Deadlock); }
      VisitKeeps(heap, error, visited, candidates, conflict);
      assert heap.Keys - visited == (heap.Keys - (visited + {k})) + {k};
      visited := visited + {k};
      if IsConflict(heap[k]) { conflict := true; }
      candidates := candidates[1..] + Children(heap[k]);
    }
    SearchedAll(heap, error, visited, conflict);
    return if conflict then Some(SerializationConflict) else None;
  }

  lemma SearchStarts(heap: map<Id, ErrorObject>, error: Ref)
    requires error.Object? ==> error.id in heap
    ensures Searching(heap, error, {}, [error], false)
  {
    hide Reachable;
    if error.Object? { ReachesItself(heap, error); }
  }

  // ---------- retrying ----------

  /** What one attempt of the operation comes to. */
  datatype Attempt<T> = Returned(value: T) | Raised(error: Ref)

  datatype Notice = RetryNotice(attempt: nat, reason: Reason, delayMs: nat) | ExhaustedNotice(attempt: nat, reason: Reason)

  datatype Result<T> = Done(value: T) | Rethrown(error: Ref) | Exhausted(attempts: nat, cause: Ref) | BadLimit

  function Power(k: nat): nat {
    if k == 0 then 1 else 2 * Power(k - 1)
  }

  function Delay(attempt: nat): nat
    requires attempt >= 1
  {
    if 10 * Power(attempt - 1) < 100 then 10 * Power(attempt - 1) else 100
  }

  /** The attempts from `attempt` on fail in a way that is retried. */
  ghost predicate Retryable<T>(heap: map<Id, ErrorObject>, attempts: nat -> Attempt<T>, attempt: nat) {
    Outcome(attempts, attempt).Raised? && ReasonOf(heap, Outcome(attempts, attempt).error).Some?
  }

  function Outcome<T>(attempts: nat -> Attempt<T>, k: nat): Attempt<T> {
    attempts(k)
  }

  function Announcement(attempt: nat, maxAttempts: int, reason: Reason): Notice
    requires attempt >= 1
  {
    if attempt == maxAttempts then ExhaustedNotice(attempt, reason) else RetryNotice(attempt, reason, Delay(attempt))
  }

  /** Runs the operation until it returns, fails for good, or was tried `maxAttempts` times. */
  method RunWithRetry<T>(heap: map<Id, ErrorObject>, attempts: nat -> Attempt<T>, maxAttempts: int)
      returns (result: Result<T>, notices: seq<Notice>, used: nat)
    requires Closed(heap) && forall k :: Outcome(attempts, k).Raised? && Outcome(attempts, k).error.Object? ==> Outcome(attempts, k).error.id in heap
    ensures maxAttempts < 1 <==> result.BadLimit?
    ensures maxAttempts >= 1 ==> 1 <= used <= maxAttempts
    ensures forall k | 1 <= k < used :: Retryable(heap, attempts, k)
    ensures result.Done? ==> Outcome(attempts, used) == Returned(result.value)
    ensures result.Rethrown? ==> Outcome(attempts, used) == Raised(result.error) && ReasonOf(heap, result.error).None?
    ensures result.Exhausted? ==>
      used == maxAttempts == result.attempts && Retryable(heap, attempts, used) && Outcome(attempts, used) == Raised(result.cause)
    ensures |notices| == if result.Exhausted? then used else if used == 0 then 0 else used - 1
    ensures forall i | 0 <= i < |notices| ::
      Retryable(heap, attempts, i + 1)
      && notices[i] == Announcement(i + 1, maxAttempts, ReasonOf(heap, Outcome(attempts, i + 1).error).value)
  {
    hide ReasonOf, Closed;
    notices, used := [], 0;
    if maxAttempts < 1 { return BadLimit, notices, used; }
    for attempt := 1 to maxAttempts + 1
      invariant used == attempt - 1 && |notices| == used && used < maxAttempts
      invariant forall k | 1 <= k < attempt :: Retryable(heap, attempts, k)
      invariant forall i | 0 <= i < |notices| ::
        Retryable(heap, attempts, i + 1)
        && notices[i] == Announcement(i + 1, maxAttempts, ReasonOf(heap, Outcome(attempts, i + 1).error).value)
    {
      used := attempt;
      var outcome := Outcome(attempts, attempt);
      if outcome.Returned? { return Done(outcome.value), notices, used; }
      var reason := RetryReason(heap, outcome.error);
      if reason.None? { return Rethrown(outcome.error), notices, used; }
      notices := notices + [Announcement(attempt, maxAttempts, reason.value)];
      if attempt == maxAttempts { return Exhausted(attempt, outcome.error), notices, used; }
    }
    assert false;
  }

  /** Waits double from 10 ms and are capped at 100 ms. */
  lemma {:induction false} DelaysAreBounded(attempt: nat)
    requires attempt >= 1
    ensures 10 <= Delay(attempt) <= 100
    ensures Delay(attempt) <= Delay(attempt + 1) <= 2 * Delay(attempt)
    ensures attempt >= 5 ==> Delay(attempt) == 100
  {
    PowerGrows(attempt - 1);
    PowerGrows(attempt);
    if attempt > 5 {
      DelaysAreBounded(attempt - 1);
    }
  }

  lemma {:induction false} PowerGrows(k: nat)
    ensures Power(k) >= 1 && Power(k + 1) == 2 * Power(k)
    ensures k >= 4 ==> Power(k) >= 16
  {
    if k > 0 { PowerGrows(k - 1); }
  }
}
