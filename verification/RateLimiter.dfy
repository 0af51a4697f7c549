/** Two fixed-window rate limiters: the lazily evicting one decides as the one that scans all its buckets. */
module RateLimiter {

  import opened Common

  const WINDOW := 60_000

  datatype Bucket = Bucket(key: nat, count: nat, startedAt: Time)

  predicate Alive(b: Bucket, now: Time) {
    now < b.startedAt + WINDOW
  }

  // ---------- lazy eviction in insertion order ----------

  function Find(buckets: seq<Bucket>, key: nat): (i: Option<nat>)
    ensures i.Some? ==> i.value < |buckets| && buckets[i.value].key == key
    ensures i.None? <==> forall b | b in buckets :: b.key != key
  {
    if buckets == [] then None
    else if buckets[0].key == key then Some(0)
    else var rest := Find(buckets[1..], key); if rest.None? then None else Some(rest.value + 1)
  }

  /** Drops the oldest buckets while the table is full; false when the oldest is still alive. */
  function MakeRoom(buckets: seq<Bucket>, maximum: nat, now: Time): (seq<Bucket>, bool)
    decreases |buckets|
  {
    if |buckets| < maximum then (buckets, true)
    else if buckets == [] || Alive(buckets[0], now) then (buckets, false)
    else MakeRoom(buckets[1..], maximum, now)
  }

  function Remove(buckets: seq<Bucket>, i: nat): seq<Bucket>
    requires i < |buckets|
  {
    buckets[..i] + buckets[i + 1..]
  }

  function LazyConsume(buckets: seq<Bucket>, maximum: nat, key: nat, limit: nat, now: Time): (seq<Bucket>, bool) {
    var at := Find(buckets, key);
    if at.Some? && Alive(buckets[at.value], now) then
      var b := buckets[at.value];
      if b.count >= limit then (buckets, false) else (buckets[at.value := b.(count := b.count + 1)], true)
    else
      var rest := if at.Some? then Remove(buckets, at.value) else buckets;
      var (kept, room) := MakeRoom(rest, maximum, now);
      if room then (kept + [Bucket(key, 1, now)], true) else (kept, false)
  }

  // ---------- scanning all buckets ----------

  datatype Entry = Entry(count: nat, resetAt: Time)

  function Unexpired(table: map<nat, Entry>, now: Time): map<nat, Entry> {
    map k | k in table && now < table[k].resetAt :: table[k]
  }

  function ScanConsume(table: map<nat, Entry>, maximum: nat, key: nat, limit: nat, now: Time): (map<nat, Entry>, bool) {
    var t := Unexpired(table, now);
    if key !in t && |t| >= maximum then (t, false)
    else
      var e := if key in t then t[key] else Entry(0, now + WINDOW);
      if e.count >= limit then (t, false) else (t[key := e.(count := e.count + 1)], true)
  }

  // ---------- the relation between the two ----------

  /** One bucket per key, in the order of starting times, none of them in the future. */
  predicate Ordered(buckets: seq<Bucket>, maximum: nat, now: Time) {
    && |buckets| <= maximum
    && (forall i, j | 0 <= i < j < |buckets| :: buckets[i].key != buckets[j].key && buckets[i].startedAt <= buckets[j].startedAt)
    && (forall i | 0 <= i < |buckets| :: buckets[i].startedAt <= now)
  }

  /** The buckets alive at `now`, by key. */
  predicate SameAlive(buckets: seq<Bucket>, table: map<nat, Entry>, now: Time) {
    && (forall b | b in buckets && Alive(b, now) :: b.key in table && table[b.key] == Entry(b.count, b.startedAt + WINDOW))
    && (forall k | k in table && now < table[k].resetAt ::
          exists b | b in buckets :: b.key == k && Alive(b, now))
  }

  function AliveKeys(buckets: seq<Bucket>, now: Time): set<nat> {
    set b | b in buckets && Alive(b, now) :: b.key
  }

  lemma FindUnique(buckets: seq<Bucket>, maximum: nat, now: Time, i: nat)
    requires Ordered(buckets, maximum, now) && i < |buckets|
    ensures Find(buckets, buckets[i].key) == Some(i)
  {
    assert buckets[i] in buckets;
  }

  lemma {:induction false} KeyCount(buckets: seq<Bucket>, maximum: nat, now: Time)
    requires Ordered(buckets, maximum, now)
    ensures |AliveKeys(buckets, now)| <= |buckets|
    ensures |AliveKeys(buckets, now)| == |buckets| <==> forall b | b in buckets :: Alive(b, now)
  {
    if buckets == [] {
      assert AliveKeys(buckets, now) == {};
    } else {
      var n := |buckets| - 1;
      var front := buckets[..n];
      KeyCount(front, maximum, now);
      assert forall b :: b in buckets <==> b in front || b == buckets[n];
      assert buckets[n].key !in AliveKeys(front, now);
      if Alive(buckets[n], now) {
        assert AliveKeys(buckets, now) == AliveKeys(front, now) + {buckets[n].key};
      } else {
        assert AliveKeys(buckets, now) == AliveKeys(front, now);
      }
    }
  }

  /** The oldest bucket is alive only if all are. */
  lemma OldestFirst(buckets: seq<Bucket>, maximum: nat, now: Time)
    requires Ordered(buckets, maximum, now) && buckets != [] && Alive(buckets[0], now)
    ensures forall b | b in buckets :: Alive(b, now)
  {
    forall b | b in buckets ensures Alive(b, now) {
      var i :| 0 <= i < |buckets| && buckets[i] == b;
    }
  }

  lemma SuffixOrdered(buckets: seq<Bucket>, maximum: nat, now: Time)
    requires Ordered(buckets, maximum, now) && buckets != []
    ensures Ordered(buckets[1..], maximum, now)
    ensures forall b :: b in buckets <==> b == buckets[0] || b in buckets[1..]
  {
  }

  /** Eviction removes only expired buckets, and fails exactly when as many as allowed are alive. */
  lemma {:induction false} MakeRoomMeaning(buckets: seq<Bucket>, maximum: nat, now: Time)
    requires Ordered(buckets, maximum, now) && maximum >= 1
    ensures var (kept, room) := MakeRoom(buckets, maximum, now);
            && Ordered(kept, maximum, now)
            && (forall b :: b in kept ==> b in buckets)
            && (forall b | b in buckets && Alive(b, now) :: b in kept)
            && (room <==> |AliveKeys(buckets, now)| < maximum)
            && (room ==> |kept| < maximum)
    decreases |buckets|
  {
    hide Ordered, Alive;
    KeyCount(buckets, maximum, now);
    OrderedSize(buckets, maximum, now);
    if |buckets| >= maximum {
      if Alive(buckets[0], now) {
        OldestFirst(buckets, maximum, now);
      } else {
        SuffixOrdered(buckets, maximum, now);
        MakeRoomMeaning(buckets[1..], maximum, now);
        assert AliveKeys(buckets, now) == AliveKeys(buckets[1..], now);
      }
    }
  }

  lemma OrderedSize(buckets: seq<Bucket>, maximum: nat, now: Time)
    requires Ordered(buckets, maximum, now)
    ensures |buckets| <= maximum
  {
  }

  lemma RemoveKeeps(buckets: seq<Bucket>, maximum: nat, now: Time, i: nat)
    requires Ordered(buckets, maximum, now) && i < |buckets|
    ensures Ordered(Remove(buckets, i), maximum, now)
    ensures forall b :: b in Remove(buckets, i) <==> b in buckets && b != buckets[i]
    ensures forall b | b in Remove(buckets, i) :: b.key != buckets[i].key
  {
    var r := Remove(buckets, i);
    forall j | 0 <= j < |r| ensures r[j] == buckets[if j < i then j else j + 1] {}
    forall b | b in buckets && b != buckets[i] ensures b in r {
      var j :| 0 <= j < |buckets| && buckets[j] == b;
      assert r[if j < i then j else j - 1] == b;
    }
  }

  lemma AppendKeeps(buckets: seq<Bucket>, maximum: nat, now: Time, b: Bucket)
    requires Ordered(buckets, maximum, now) && |buckets| < maximum && b.startedAt == now && forall x | x in buckets :: x.key != b.key
    ensures Ordered(buckets + [b], maximum, now)
  {
  }

  lemma TableSize(buckets: seq<Bucket>, table: map<nat, Entry>, now: Time)
    requires SameAlive(buckets, table, now)
    ensures |Unexpired(table, now)| == |AliveKeys(buckets, now)|
    ensures Unexpired(table, now).Keys == AliveKeys(buckets, now)
  {
    assert Unexpired(table, now).Keys == AliveKeys(buckets, now);
    assert |Unexpired(table, now)| == |Unexpired(table, now).Keys|;
  }

  predicate Related(buckets: seq<Bucket>, table: map<nat, Entry>, maximum: nat, now: Time) {
    Ordered(buckets, maximum, now) && SameAlive(buckets, table, now)
  }

  lemma RelatedLater(buckets: seq<Bucket>, table: map<nat, Entry>, maximum: nat, now: Time, later: Time)
    requires Related(buckets, table, maximum, now) && now <= later
    ensures Related(buckets, table, maximum, later)
  {
    forall k | k in table && later < table[k].resetAt ensures exists b | b in buckets :: b.key == k && Alive(b, later) {
      var b :| b in buckets && b.key == k && Alive(b, now);
      assert table[k] == Entry(b.count, b.startedAt + WINDOW);
    }
  }

  lemma UpdateKeeps(buckets: seq<Bucket>, table: map<nat, Entry>, maximum: nat, now: Time, i: nat)
    requires Related(buckets, table, maximum, now) && i < |buckets| && Alive(buckets[i], now)
    ensures var more := buckets[i].(count := buckets[i].count + 1);
            Related(buckets[i := more], Unexpired(table, now)[more.key := Entry(more.count, more.startedAt + WINDOW)], maximum, now)
  {
    var more := buckets[i].(count := buckets[i].count + 1);
    var after := buckets[i := more];
    forall b ensures b in after <==> b == more || (b in buckets && b != buckets[i]) { UpdateElements(buckets, maximum, now, i, more, b); }
    forall b | b in buckets && b != buckets[i] ensures b.key != more.key {
      var j :| 0 <= j < |buckets| && buckets[j] == b;
    }
  }

  lemma PrunedRelated(buckets: seq<Bucket>, table: map<nat, Entry>, maximum: nat, now: Time)
    requires Related(buckets, table, maximum, now)
    ensures Related(buckets, Unexpired(table, now), maximum, now)
  {
    hide Ordered;
  }

  /** The key has a bucket that is alive: both count one more, or both refuse. */
  lemma SameForAlive(buckets: seq<Bucket>, table: map<nat, Entry>, maximum: nat, key: nat, limit: nat, now: Time, i: nat)
    requires Related(buckets, table, maximum, now) && i < |buckets| && buckets[i].key == key && Alive(buckets[i], now)
    ensures var (a, yes) := LazyConsume(buckets, maximum, key, limit, now);
            var (b, yes') := ScanConsume(table, maximum, key, limit, now);
            yes == yes' && Related(a, b, maximum, now)
  {
    hide Ordered;
    FindUnique(buckets, maximum, now, i);
    assert buckets[i] in buckets;
    PrunedRelated(buckets, table, maximum, now);
    UpdateKeeps(buckets, table, maximum, now, i);
    hide SameAlive;
  }

  lemma UpdateElements(buckets: seq<Bucket>, maximum: nat, now: Time, i: nat, more: Bucket, b: Bucket)
    requires Ordered(buckets, maximum, now) && i < |buckets| && more.key == buckets[i].key && more != buckets[i]
    ensures b in buckets[i := more] <==> b == more || (b in buckets && b != buckets[i])
  {
    var after := buckets[i := more];
    if b in after {
      var j :| 0 <= j < |after| && after[j] == b;
      if j != i { assert buckets[j].key != buckets[i].key; }
    }
    if b == more { assert after[i] == b; }
    if b in buckets && b != buckets[i] {
      var j :| 0 <= j < |buckets| && buckets[j] == b;
      assert after[j] == b;
    }
  }

  /** The key has no bucket alive: both open one while there is room. */
  lemma SameForNew(buckets: seq<Bucket>, table: map<nat, Entry>, maximum: nat, key: nat, limit: nat, now: Time)
    requires Related(buckets, table, maximum, now) && limit >= 1 && maximum >= 1
    requires forall b | b in buckets && b.key == key :: !Alive(b, now)
    ensures var (a, yes) := LazyConsume(buckets, maximum, key, limit, now);
            var (b, yes') := ScanConsume(table, maximum, key, limit, now);
            yes == yes' && Related(a, b, maximum, now)
  {
    hide Ordered, MakeRoom, Remove, Find, SameAlive, Unexpired, AliveKeys, Alive, WithoutKey;
    var (kept, room) := MakeRoom(WithoutKey(buckets, key), maximum, now);
    EvictionForNew(buckets, maximum, key, now);
    TableSize(buckets, table, now);
    KeyIsNew(buckets, now, key);
    AliveAmongFewer(buckets, kept, table, now, key);
    LazyShape(buckets, maximum, key, limit, now);
    if room { AppendKeeps(kept, maximum, now, Bucket(key, 1, now)); }
  }

  function WithoutKey(buckets: seq<Bucket>, key: nat): seq<Bucket> {
    var at := Find(buckets, key);
    if at.Some? then Remove(buckets, at.value) else buckets
  }

  lemma LazyShape(buckets: seq<Bucket>, maximum: nat, key: nat, limit: nat, now: Time)
    requires forall b | b in buckets && b.key == key :: !Alive(b, now)
    ensures var (kept, room) := MakeRoom(WithoutKey(buckets, key), maximum, now);
            LazyConsume(buckets, maximum, key, limit, now)
            == if room then (kept + [Bucket(key, 1, now)], true) else (kept, false)
  {
    hide MakeRoom, Remove, Alive;
    var at := Find(buckets, key);
    if at.Some? { assert buckets[at.value] in buckets; }
  }

  /** What eviction leaves for a key without a bucket alive. */
  lemma EvictionForNew(buckets: seq<Bucket>, maximum: nat, key: nat, now: Time)
    requires Ordered(buckets, maximum, now) && maximum >= 1
    requires forall b | b in buckets && b.key == key :: !Alive(b, now)
    ensures var (kept, room) := MakeRoom(WithoutKey(buckets, key), maximum, now);
            && Ordered(kept, maximum, now)
            && (forall b :: b in kept ==> b in buckets && b.key != key)
            && (forall b | b in buckets && b.key != key && Alive(b, now) :: b in kept)
            && (room <==> |AliveKeys(buckets, now)| < maximum)
            && (room ==> |kept| < maximum)
  {
    hide Ordered, MakeRoom, Remove, AliveKeys, Alive;
    var at := Find(buckets, key);
    var rest := WithoutKey(buckets, key);
    if at.Some? {
      RemoveKeeps(buckets, maximum, now, at.value);
      KeyOnce(buckets, maximum, now, at.value);
    }
    SameAliveKeys(buckets, rest, now, key);
    MakeRoomMeaning(rest, maximum, now);
  }

  lemma SameAliveKeys(buckets: seq<Bucket>, rest: seq<Bucket>, now: Time, key: nat)
    requires forall b | b in buckets && b.key == key :: !Alive(b, now)
    requires forall b :: b in rest ==> b in buckets
    requires forall b :: b in buckets && b.key != key ==> b in rest
    ensures AliveKeys(rest, now) == AliveKeys(buckets, now)
  {
  }

  lemma KeyIsNew(buckets: seq<Bucket>, now: Time, key: nat)
    requires forall b | b in buckets && b.key == key :: !Alive(b, now)
    ensures key !in AliveKeys(buckets, now)
  {
  }

  /** Dropping expired buckets and opening one for a new key keeps what is alive. */
  lemma AliveAmongFewer(buckets: seq<Bucket>, kept: seq<Bucket>, table: map<nat, Entry>, now: Time, key: nat)
    requires SameAlive(buckets, table, now)
    requires forall b | b in buckets && b.key == key :: !Alive(b, now)
    requires forall b :: b in kept ==> b in buckets
    requires forall b | b in buckets && b.key != key && Alive(b, now) :: b in kept
    ensures SameAlive(kept, Unexpired(table, now), now)
    ensures SameAlive(kept + [Bucket(key, 1, now)], Unexpired(table, now)[key := Entry(1, now + WINDOW)], now)
  {
    var after := kept + [Bucket(key, 1, now)];
    var more := Unexpired(table, now)[key := Entry(1, now + WINDOW)];
    assert after[|kept|] == Bucket(key, 1, now);
    forall k | k in more && now < more[k].resetAt ensures exists b | b in after :: b.key == k && Alive(b, now) {
      if k == key {
        assert Bucket(key, 1, now) in after && Alive(Bucket(key, 1, now), now);
      } else {
        var b :| b in buckets && b.key == k && Alive(b, now);
        assert b in kept && b in after;
      }
    }
  }

  /** On every request both limiters decide alike. */
  lemma SameDecision(buckets: seq<Bucket>, table: map<nat, Entry>, maximum: nat, key: nat, limit: nat, now: Time)
    requires Related(buckets, table, maximum, now) && limit >= 1 && maximum >= 1
    ensures var (a, yes) := LazyConsume(buckets, maximum, key, limit, now);
            var (b, yes') := ScanConsume(table, maximum, key, limit, now);
            yes == yes' && Related(a, b, maximum, now)
  {
    hide Related, LazyConsume, ScanConsume;
    if i :| 0 <= i < |buckets| && buckets[i].key == key && Alive(buckets[i], now) {
      SameForAlive(buckets, table, maximum, key, limit, now, i);
    } else {
      SameForNew(buckets, table, maximum, key, limit, now);
    }
  }

  // ---------- request sequences ----------

  datatype Request = Request(key: nat, now: Time)

  predicate InOrder(requests: seq<Request>) {
    forall i, j | 0 <= i < j < |requests| :: requests[i].now <= requests[j].now
  }

  function LazyRun(maximum: nat, limit: nat, requests: seq<Request>): (seq<Bucket>, seq<bool>) {
    if requests == [] then ([], []) else
    var n := |requests| - 1;
    var (b, answers) := LazyRun(maximum, limit, requests[..n]);
    var (b', yes) := LazyConsume(b, maximum, requests[n].key, limit, requests[n].now);
    (b', answers + [yes])
  }

  function ScanRun(maximum: nat, limit: nat, requests: seq<Request>): (map<nat, Entry>, seq<bool>) {
    if requests == [] then (map[], []) else
    var n := |requests| - 1;
    var (t, answers) := ScanRun(maximum, limit, requests[..n]);
    var (t', yes) := ScanConsume(t, maximum, requests[n].key, limit, requests[n].now);
    (t', answers + [yes])
  }

  /** On every sequence of requests in time order the two limiters give the same answers. */
  lemma {:induction false} SameAnswers(maximum: nat, limit: nat, requests: seq<Request>)
    requires InOrder(requests) && limit >= 1 && maximum >= 1
    ensures LazyRun(maximum, limit, requests).1 == ScanRun(maximum, limit, requests).1
    ensures requests != [] ==>
      Related(LazyRun(maximum, limit, requests).0, ScanRun(maximum, limit, requests).0, maximum, requests[|requests| - 1].now)
  {
    hide Related, LazyConsume, ScanConsume;
    if requests != [] {
      var n := |requests| - 1;
      SameAnswers(maximum, limit, requests[..n]);
      var b := LazyRun(maximum, limit, requests[..n]).0;
      var t := ScanRun(maximum, limit, requests[..n]).0;
      if n > 0 {
        assert requests[..n][n - 1] == requests[n - 1];
        RelatedLater(b, t, maximum, requests[n - 1].now, requests[n].now);
      } else {
        NothingRelated(maximum, requests[n].now);
      }
      SameDecision(b, t, maximum, requests[n].key, limit, requests[n].now);
    }
  }

  lemma NothingRelated(maximum: nat, now: Time)
    ensures Related([], map[], maximum, now)
  {
  }

  // ---------- at most twice the limit in any minute ----------

  /** An allowed request with the start of the bucket that counted it. */
  datatype Hit = Hit(key: nat, now: Time, start: Time)

  function CountOf(hits: seq<Hit>, key: nat, start: Time): nat {
    if hits == [] then 0 else
    var h := hits[|hits| - 1];
    CountOf(hits[..|hits| - 1], key, start) + if h.key == key && h.start == start then 1 else 0
  }

  predicate InSpan(h: Hit, key: nat, from: Time) {
    h.key == key && from <= h.now < from + WINDOW
  }

  function CountSpan(hits: seq<Hit>, key: nat, from: Time): nat {
    if hits == [] then 0 else
    CountSpan(hits[..|hits| - 1], key, from) + if InSpan(hits[|hits| - 1], key, from) then 1 else 0
  }

  function StartFor(buckets: seq<Bucket>, key: nat, now: Time): Time {
    var at := Find(buckets, key);
    if at.Some? && Alive(buckets[at.value], now) then buckets[at.value].startedAt else now
  }

  function Hits(maximum: nat, limit: nat, requests: seq<Request>): seq<Hit> {
    if requests == [] then [] else
    var n := |requests| - 1;
    var b := LazyRun(maximum, limit, requests[..n]).0;
    var r := requests[n];
    Hits(maximum, limit, requests[..n])
    + if LazyConsume(b, maximum, r.key, limit, r.now).1 then [Hit(r.key, r.now, StartFor(b, r.key, r.now))] else []
  }

  /** The requests of the key that were allowed in the minute from `from` on. */
  function AllowedIn(maximum: nat, limit: nat, requests: seq<Request>, key: nat, from: Time): nat {
    if requests == [] then 0 else
    var n := |requests| - 1;
    AllowedIn(maximum, limit, requests[..n], key, from)
    + if LazyConsume(LazyRun(maximum, limit, requests[..n]).0, maximum, requests[n].key, limit, requests[n].now).1
         && requests[n].key == key && from <= requests[n].now < from + WINDOW then 1 else 0
  }

  predicate HitsOk(hits: seq<Hit>, buckets: seq<Bucket>, limit: nat, now: Time) {
    && (forall h | h in hits :: h.start <= h.now <= now && h.now < h.start + WINDOW && CountOf(hits, h.key, h.start) <= limit)
    && (forall h, g | h in hits && g in hits && h.key == g.key :: h.start == g.start || h.start + WINDOW <= g.start || g.start + WINDOW <= h.start)
    && (forall h | h in hits && now < h.start + WINDOW :: exists b | b in buckets :: b.key == h.key && b.startedAt == h.start)
    && (forall b | b in buckets :: CountOf(hits, b.key, b.startedAt) == b.count)
    && (forall b, h | b in buckets && h in hits && h.key == b.key :: h.start == b.startedAt || h.start + WINDOW <= b.startedAt)
  }

  lemma CountSnoc(hits: seq<Hit>, h: Hit, key: nat, start: Time)
    ensures CountOf(hits + [h], key, start) == CountOf(hits, key, start) + if h.key == key && h.start == start then 1 else 0
  {
    assert (hits + [h])[..|hits|] == hits;
  }

  lemma {:induction false} NoHits(hits: seq<Hit>, key: nat, start: Time)
    requires forall h | h in hits :: h.key != key || h.start != start
    ensures CountOf(hits, key, start) == 0
  {
    if hits != [] { NoHits(hits[..|hits| - 1], key, start); }
  }

  lemma HitsOkLater(hits: seq<Hit>, buckets: seq<Bucket>, limit: nat, now: Time, later: Time)
    requires HitsOk(hits, buckets, limit, now) && now <= later
    ensures HitsOk(hits, buckets, limit, later)
  {
  }

  /** One more hit in a bucket that is alive. */
  lemma HitAgain(hits: seq<Hit>, buckets: seq<Bucket>, maximum: nat, limit: nat, now: Time, i: nat)
    requires HitsOk(hits, buckets, limit, now) && Ordered(buckets, maximum, now) && i < |buckets|
    requires Alive(buckets[i], now) && buckets[i].count < limit
    ensures var b := buckets[i];
            HitsOk(hits + [Hit(b.key, now, b.startedAt)], buckets[i := b.(count := b.count + 1)], limit, now)
  {
    var b := buckets[i];
    var more := b.(count := b.count + 1);
    var after := buckets[i := more];
    var hit := Hit(b.key, now, b.startedAt);
    assert b in buckets;
    forall x ensures x in after <==> x == more || (x in buckets && x != b) { UpdateElements(buckets, maximum, now, i, more, x); }
    forall x | x in buckets && x != b ensures x.key != b.key { var j :| 0 <= j < |buckets| && buckets[j] == x; }
    hide Ordered;
    forall key, start ensures CountOf(hits + [hit], key, start) == CountOf(hits, key, start) + if hit.key == key && hit.start == start then 1 else 0 {
      CountSnoc(hits, hit, key, start);
    }
    HitExtends(hits, hit, limit, now);
    forall h | h in hits && now < h.start + WINDOW ensures exists x | x in after :: x.key == h.key && x.startedAt == h.start {
      var x :| x in buckets && x.key == h.key && x.startedAt == h.start;
      if x == b { assert more in after; }
    }
    assert more in after;
  }

  lemma HitExtends(hits: seq<Hit>, hit: Hit, limit: nat, now: Time)
    requires forall h | h in hits :: h.start <= h.now <= now && h.now < h.start + WINDOW && CountOf(hits, h.key, h.start) <= limit
    requires hit.start <= hit.now == now < hit.start + WINDOW && CountOf(hits, hit.key, hit.start) < limit
    ensures forall h | h in hits + [hit] :: h.start <= h.now <= now && h.now < h.start + WINDOW && CountOf(hits + [hit], h.key, h.start) <= limit
  {
    forall h | h in hits + [hit] ensures h.start <= h.now <= now && h.now < h.start + WINDOW && CountOf(hits + [hit], h.key, h.start) <= limit {
      CountSnoc(hits, hit, h.key, h.start);
      assert h in hits || h == hit;
    }
  }

  /** A hit in a new bucket, for a key without one alive, after the eviction of expired ones. */
  lemma HitAnew(hits: seq<Hit>, buckets: seq<Bucket>, kept: seq<Bucket>, maximum: nat, limit: nat, now: Time, key: nat)
    requires HitsOk(hits, buckets, limit, now) && limit >= 1
    requires forall b | b in kept :: b in buckets && b.key != key
    requires forall b | b in buckets && Alive(b, now) :: b in kept
    requires forall b | b in buckets && b.key == key :: !Alive(b, now)
    ensures HitsOk(hits + [Hit(key, now, now)], kept + [Bucket(key, 1, now)], limit, now)
  {
    hide CountOf, Alive;
    var hit := Hit(key, now, now);
    NewKeyHits(hits, buckets, limit, now, key);
    NoHits(hits, key, now);
    forall k, start ensures CountOf(hits + [hit], k, start) == CountOf(hits, k, start) + if hit.key == k && hit.start == start then 1 else 0 {
      CountSnoc(hits, hit, k, start);
    }
    HitExtends(hits, hit, limit, now);
    var after := kept + [Bucket(key, 1, now)];
    assert after[|kept|] == Bucket(key, 1, now);
    forall h | h in hits && now < h.start + WINDOW ensures exists x | x in after :: x.key == h.key && x.startedAt == h.start {
      KeptBucket(hits, buckets, kept, limit, now, h);
      var x :| x in kept && x.key == h.key && x.startedAt == h.start;
      assert x in after;
    }
  }

  /** Hits of a key without a bucket alive are a window back. */
  lemma NewKeyHits(hits: seq<Hit>, buckets: seq<Bucket>, limit: nat, now: Time, key: nat)
    requires HitsOk(hits, buckets, limit, now) && forall b | b in buckets && b.key == key :: !Alive(b, now)
    ensures forall h | h in hits && h.key == key :: h.start + WINDOW <= now
  {
    hide CountOf;
    forall h | h in hits && now < h.start + WINDOW ensures h.key != key {
      var b :| b in buckets && b.key == h.key && b.startedAt == h.start;
      assert Alive(b, now);
    }
  }

  lemma KeptBucket(hits: seq<Hit>, buckets: seq<Bucket>, kept: seq<Bucket>, limit: nat, now: Time, h: Hit)
    requires HitsOk(hits, buckets, limit, now) && h in hits && now < h.start + WINDOW
    requires forall b | b in buckets && Alive(b, now) :: b in kept
    ensures exists x | x in kept :: x.key == h.key && x.startedAt == h.start
  {
    hide CountOf;
    var x :| x in buckets && x.key == h.key && x.startedAt == h.start;
    assert Alive(x, now);
  }

  lemma HitsOfFewer(hits: seq<Hit>, buckets: seq<Bucket>, kept: seq<Bucket>, limit: nat, now: Time)
    requires HitsOk(hits, buckets, limit, now)
    requires forall b | b in kept :: b in buckets
    requires forall b | b in buckets && Alive(b, now) :: b in kept
    ensures HitsOk(hits, kept, limit, now)
  {
    forall h | h in hits && now < h.start + WINDOW ensures exists x | x in kept :: x.key == h.key && x.startedAt == h.start {
      var x :| x in buckets && x.key == h.key && x.startedAt == h.start;
      assert Alive(x, now);
    }
  }

  lemma StepHits(hits: seq<Hit>, buckets: seq<Bucket>, table: map<nat, Entry>, maximum: nat, limit: nat, now: Time, key: nat)
    requires HitsOk(hits, buckets, limit, now) && Related(buckets, table, maximum, now) && limit >= 1 && maximum >= 1
    ensures var (a, yes) := LazyConsume(buckets, maximum, key, limit, now);
            HitsOk(hits + if yes then [Hit(key, now, StartFor(buckets, key, now))] else [], a, limit, now)
  {
    hide HitsOk, Ordered, MakeRoom, Remove, SameAlive;
    var at := Find(buckets, key);
    assert hits + [] == hits;
    if at.Some? && Alive(buckets[at.value], now) {
      if buckets[at.value].count < limit { HitAgain(hits, buckets, maximum, limit, now, at.value); }
    } else {
      var rest := if at.Some? then Remove(buckets, at.value) else buckets;
      if at.Some? {
        RemoveKeeps(buckets, maximum, now, at.value);
        KeyOnce(buckets, maximum, now, at.value);
      }
      MakeRoomMeaning(rest, maximum, now);
      var (kept, room) := MakeRoom(rest, maximum, now);
      if room { HitAnew(hits, buckets, kept, maximum, limit, now, key); } else { HitsOfFewer(hits, buckets, kept, limit, now); }
    }
  }

  lemma KeyOnce(buckets: seq<Bucket>, maximum: nat, now: Time, i: nat)
    requires Ordered(buckets, maximum, now) && i < |buckets|
    ensures forall b | b in buckets && b.key == buckets[i].key :: b == buckets[i]
  {
  }

  lemma {:induction false} RunHits(maximum: nat, limit: nat, requests: seq<Request>)
    requires InOrder(requests) && limit >= 1 && maximum >= 1
    ensures requests != [] ==> HitsOk(Hits(maximum, limit, requests), LazyRun(maximum, limit, requests).0, limit, requests[|requests| - 1].now)
  {
    hide HitsOk, Related, LazyConsume, ScanConsume;
    if requests != [] {
      var n := |requests| - 1;
      RunHits(maximum, limit, requests[..n]);
      SameAnswers(maximum, limit, requests[..n]);
      var b := LazyRun(maximum, limit, requests[..n]).0;
      var t := ScanRun(maximum, limit, requests[..n]).0;
      var hits := Hits(maximum, limit, requests[..n]);
      if n > 0 {
        assert requests[..n][n - 1] == requests[n - 1];
        RelatedLater(b, t, maximum, requests[n - 1].now, requests[n].now);
        HitsOkLater(hits, b, limit, requests[n - 1].now, requests[n].now);
      } else {
        NothingRelated(maximum, requests[n].now);
        NoHitsYet(limit, requests[n].now);
      }
      StepHits(hits, b, t, maximum, limit, requests[n].now, requests[n].key);
    }
  }

  lemma NoHitsYet(limit: nat, now: Time)
    ensures HitsOk([], [], limit, now)
  {
  }

  /** A span of a minute touches at most two windows of a key. */
  lemma {:induction false} SpanCount(hits: seq<Hit>, key: nat, from: Time, a: Time, b: Time)
    requires forall h | h in hits && InSpan(h, key, from) :: h.start == a || h.start == b
    ensures CountSpan(hits, key, from) <= CountOf(hits, key, a) + CountOf(hits, key, b)
  {
    if hits != [] {
      SpanCount(hits[..|hits| - 1], key, from, a, b);
      assert hits[|hits| - 1] in hits;
    }
  }

  lemma TwoWindows(hits: seq<Hit>, buckets: seq<Bucket>, limit: nat, now: Time, key: nat, from: Time)
    requires HitsOk(hits, buckets, limit, now)
    ensures CountSpan(hits, key, from) <= 2 * limit
  {
    hide CountSpan, CountOf;
    if h :| h in hits && InSpan(h, key, from) {
      if g :| g in hits && InSpan(g, key, from) && g.start != h.start {
        forall x | x in hits && InSpan(x, key, from) ensures x.start == h.start || x.start == g.start {}
        SpanCount(hits, key, from, h.start, g.start);
      } else {
        SpanCount(hits, key, from, h.start, h.start);
      }
    } else {
      NoSpan(hits, key, from);
    }
  }

  lemma {:induction false} NoSpan(hits: seq<Hit>, key: nat, from: Time)
    requires forall h | h in hits :: !InSpan(h, key, from)
    ensures CountSpan(hits, key, from) == 0
  {
    if hits != [] {
      NoSpan(hits[..|hits| - 1], key, from);
      assert hits[|hits| - 1] in hits;
    }
  }

  lemma {:induction false} AllowedAreHits(maximum: nat, limit: nat, requests: seq<Request>, key: nat, from: Time)
    ensures AllowedIn(maximum, limit, requests, key, from) == CountSpan(Hits(maximum, limit, requests), key, from)
  {
    hide LazyConsume;
    if requests != [] {
      var n := |requests| - 1;
      AllowedAreHits(maximum, limit, requests[..n], key, from);
      var hits := Hits(maximum, limit, requests[..n]);
      var b := LazyRun(maximum, limit, requests[..n]).0;
      var r := requests[n];
      var hit := Hit(r.key, r.now, StartFor(b, r.key, r.now));
      assert (hits + [hit])[..|hits|] == hits;
      assert hits + [] == hits;
    }
  }

  /** In any minute a key is allowed at most twice its limit. */
  lemma AtMostTwiceTheLimit(maximum: nat, limit: nat, requests: seq<Request>, key: nat, from: Time)
    requires InOrder(requests) && limit >= 1 && maximum >= 1
    ensures AllowedIn(maximum, limit, requests, key, from) <= 2 * limit
  {
    hide HitsOk, Hits, AllowedIn, LazyRun;
    AllowedAreHits(maximum, limit, requests, key, from);
    if requests != [] {
      RunHits(maximum, limit, requests);
      TwoWindows(Hits(maximum, limit, requests), LazyRun(maximum, limit, requests).0, limit, requests[|requests| - 1].now, key, from);
    } else {
      NothingAllowed(maximum, limit, key, from);
    }
  }

  lemma NothingAllowed(maximum: nat, limit: nat, key: nat, from: Time)
    ensures AllowedIn(maximum, limit, [], key, from) == 0
  {
  }

  // ---------- the answers, told from earlier answers alone ----------

  /** The window that counts the key now: that of the last allowed request which opened less than a minute ago. */
  function OpenStart(hits: seq<Hit>, key: nat, now: Time): Option<Time> {
    if hits == [] then None else
    var h := hits[|hits| - 1];
    if h.key == key && now < h.start + WINDOW then Some(h.start) else OpenStart(hits[..|hits| - 1], key, now)
  }

  /** The keys with an open window. */
  function OpenKeys(hits: seq<Hit>, now: Time): set<nat> {
    set h | h in hits && now < h.start + WINDOW :: h.key
  }

  /** A key with an open window is allowed up to its limit in it; another opens a window unless too many are open. */
  predicate Admits(hits: seq<Hit>, maximum: nat, key: nat, limit: nat, now: Time) {
    var open := OpenStart(hits, key, now);
    if open.Some? then CountOf(hits, key, open.value) < limit else |OpenKeys(hits, now)| < maximum
  }

  function Admitted(maximum: nat, limit: nat, requests: seq<Request>): (seq<Hit>, seq<bool>) {
    if requests == [] then ([], []) else
    var n := |requests| - 1;
    var (hits, answers) := Admitted(maximum, limit, requests[..n]);
    var r := requests[n];
    if !Admits(hits, maximum, r.key, limit, r.now) then (hits, answers + [false])
    else
      var open := OpenStart(hits, r.key, r.now);
      (hits + [Hit(r.key, r.now, if open.Some? then open.value else r.now)], answers + [true])
  }

  predicate Used(buckets: seq<Bucket>) {
    forall b | b in buckets :: b.count >= 1
  }

  lemma {:induction false} OpenStartMeaning(hits: seq<Hit>, key: nat, now: Time)
    ensures OpenStart(hits, key, now).Some? <==> exists h | h in hits :: h.key == key && now < h.start + WINDOW
    ensures OpenStart(hits, key, now).Some? ==>
              exists h | h in hits :: h.key == key && now < h.start + WINDOW && h.start == OpenStart(hits, key, now).value
  {
    if hits != [] {
      var front, last := hits[..|hits| - 1], hits[|hits| - 1];
      OpenStartMeaning(front, key, now);
      assert forall h :: h in hits <==> h in front || h == last;
    }
  }

  lemma {:induction false} SomeHit(hits: seq<Hit>, key: nat, start: Time)
    requires CountOf(hits, key, start) >= 1
    ensures exists h | h in hits :: h.key == key && h.start == start
  {
    var last := hits[|hits| - 1];
    if last.key == key && last.start == start {
      assert last in hits;
    } else {
      SomeHit(hits[..|hits| - 1], key, start);
    }
  }

  /** A bucket alive is an open window with its count. */
  lemma BucketIsWindow(hits: seq<Hit>, buckets: seq<Bucket>, maximum: nat, limit: nat, now: Time, key: nat)
    requires HitsOk(hits, buckets, limit, now) && Ordered(buckets, maximum, now) && Used(buckets)
    ensures var at := Find(buckets, key);
            var open := OpenStart(hits, key, now);
            && (at.Some? && Alive(buckets[at.value], now) <==> open.Some?)
            && (open.Some? && at.Some? ==>
                  open.value == buckets[at.value].startedAt && CountOf(hits, key, open.value) == buckets[at.value].count)
  {
    hide CountOf;
    OpenStartMeaning(hits, key, now);
    var at := Find(buckets, key);
    if at.Some? && Alive(buckets[at.value], now) {
      var b := buckets[at.value];
      assert b in buckets;
      SomeHit(hits, b.key, b.startedAt);
    }
    if OpenStart(hits, key, now).Some? {
      var h :| h in hits && h.key == key && now < h.start + WINDOW && h.start == OpenStart(hits, key, now).value;
      var b :| b in buckets && b.key == h.key && b.startedAt == h.start;
      var i :| 0 <= i < |buckets| && buckets[i] == b;
      FindUnique(buckets, maximum, now, i);
    }
  }

  lemma OpenAreAlive(hits: seq<Hit>, buckets: seq<Bucket>, limit: nat, now: Time)
    requires HitsOk(hits, buckets, limit, now) && Used(buckets)
    ensures OpenKeys(hits, now) == AliveKeys(buckets, now)
  {
    hide CountOf;
    forall k ensures k in OpenKeys(hits, now) <==> k in AliveKeys(buckets, now) {
      if h :| h in hits && now < h.start + WINDOW && h.key == k {
        var b :| b in buckets && b.key == h.key && b.startedAt == h.start;
        assert Alive(b, now);
      }
      if b :| b in buckets && Alive(b, now) && b.key == k { SomeHit(hits, b.key, b.startedAt); }
    }
  }

  /** One decision of the limiter is that of the history. */
  lemma DecidesByHistory(hits: seq<Hit>, buckets: seq<Bucket>, maximum: nat, limit: nat, now: Time, key: nat)
    requires HitsOk(hits, buckets, limit, now) && Ordered(buckets, maximum, now) && Used(buckets) && limit >= 1 && maximum >= 1
    ensures LazyConsume(buckets, maximum, key, limit, now).1 <==> Admits(hits, maximum, key, limit, now)
    ensures StartFor(buckets, key, now) == (if OpenStart(hits, key, now).Some? then OpenStart(hits, key, now).value else now)
    ensures Used(LazyConsume(buckets, maximum, key, limit, now).0)
  {
    hide HitsOk, Ordered, MakeRoom, CountOf, OpenStart, OpenKeys, AliveKeys;
    BucketIsWindow(hits, buckets, maximum, limit, now, key);
    OpenAreAlive(hits, buckets, limit, now);
    var at := Find(buckets, key);
    if at.None? || !Alive(buckets[at.value], now) {
      var rest := if at.Some? then Remove(buckets, at.value) else buckets;
      if at.Some? {
        RemoveKeeps(buckets, maximum, now, at.value);
        DeadAside(buckets, now, at.value);
      }
      MakeRoomMeaning(rest, maximum, now);
    }
  }

  lemma DeadAside(buckets: seq<Bucket>, now: Time, i: nat)
    requires i < |buckets| && !Alive(buckets[i], now)
    ensures AliveKeys(Remove(buckets, i), now) == AliveKeys(buckets, now)
    ensures forall b | b in Remove(buckets, i) :: b in buckets
  {
    var rest := Remove(buckets, i);
    forall b | b in buckets && b != buckets[i] ensures b in rest {
      var j :| 0 <= j < |buckets| && buckets[j] == b;
      assert rest[if j < i then j else j - 1] == b;
    }
  }

  lemma {:induction false} HistoryDecides(maximum: nat, limit: nat, requests: seq<Request>)
    requires InOrder(requests) && limit >= 1 && maximum >= 1
    ensures Admitted(maximum, limit, requests) == (Hits(maximum, limit, requests), LazyRun(maximum, limit, requests).1)
    ensures Used(LazyRun(maximum, limit, requests).0)
  {
    hide HitsOk, Related, LazyConsume, Admits, Used;
    if requests != [] {
      var n := |requests| - 1;
      var r := requests[n];
      HistoryDecides(maximum, limit, requests[..n]);
      RunHits(maximum, limit, requests[..n]);
      SameAnswers(maximum, limit, requests[..n]);
      var b := LazyRun(maximum, limit, requests[..n]).0;
      var hits := Hits(maximum, limit, requests[..n]);
      if n > 0 {
        assert requests[..n][n - 1] == requests[n - 1];
        HitsOkLater(hits, b, limit, requests[n - 1].now, r.now);
        RelatedLater(b, ScanRun(maximum, limit, requests[..n]).0, maximum, requests[n - 1].now, r.now);
      } else {
        NoHitsYet(limit, r.now);
        NothingRelated(maximum, r.now);
      }
      RelatedIsOrdered(b, ScanRun(maximum, limit, requests[..n]).0, maximum, r.now);
      DecidesByHistory(hits, b, maximum, limit, r.now, r.key);
      assert hits + [] == hits;
    } else {
      NothingUsed();
    }
  }

  lemma RelatedIsOrdered(buckets: seq<Bucket>, table: map<nat, Entry>, maximum: nat, now: Time)
    requires Related(buckets, table, maximum, now)
    ensures Ordered(buckets, maximum, now)
  {
  }

  lemma NothingUsed()
    ensures Used([])
  {
  }

  /** On every sequence of requests both limiters give the answers that follow from the requests allowed before. */
  lemma AnswersFollowHistory(maximum: nat, limit: nat, requests: seq<Request>)
    requires InOrder(requests) && limit >= 1 && maximum >= 1
    ensures LazyRun(maximum, limit, requests).1 == Admitted(maximum, limit, requests).1
    ensures ScanRun(maximum, limit, requests).1 == Admitted(maximum, limit, requests).1
  {
    HistoryDecides(maximum, limit, requests);
    SameAnswers(maximum, limit, requests);
  }

  // ---------- the limiters as they are updated in place ----------

  class BoundedFixedWindowRateLimiter {
    const maximumBuckets: nat
    var buckets: seq<Bucket>

    constructor (maximumBuckets: nat)
      ensures this.maximumBuckets == maximumBuckets && buckets == []
    {
      this.maximumBuckets := maximumBuckets;
      buckets := [];
    }

    method Consume(key: nat, limit: nat, now: Time) returns (allowed: bool)
      modifies this
      ensures (buckets, allowed) == LazyConsume(old(buckets), maximumBuckets, key, limit, now)
    {
      var at := Find(buckets, key);
      if at.Some? && Alive(buckets[at.value], now) {
        var existing := buckets[at.value];
        if existing.count >= limit { return false; }
        buckets := buckets[at.value := existing.(count := existing.count + 1)];
        return true;
      }
      if at.Some? { buckets := buckets[..at.value] + buckets[at.value + 1..]; }
      ghost var rest := buckets;
      while |buckets| >= maximumBuckets
        invariant MakeRoom(buckets, maximumBuckets, now) == MakeRoom(rest, maximumBuckets, now)
        decreases |buckets|
      {
        if buckets == [] || Alive(buckets[0], now) { return false; }
        buckets := buckets[1..];
      }
      buckets := buckets + [Bucket(key, 1, now)];
      return true;
    }
  }

  class ScanningRateLimiter {
    const maximumBuckets: nat
    var table: map<nat, Entry>

    constructor (maximumBuckets: nat)
      ensures this.maximumBuckets == maximumBuckets && table == map[]
    {
      this.maximumBuckets := maximumBuckets;
      table := map[];
    }

    method Consume(key: nat, limit: nat, now: Time) returns (allowed: bool)
      modifies this
      ensures (table, allowed) == ScanConsume(old(table), maximumBuckets, key, limit, now)
    {
      var rest := table.Keys;
      ghost var before := table;
      while rest != {}
        invariant rest <= before.Keys
        invariant forall k :: k in table <==> k in before && (k in rest || now < before[k].resetAt)
        invariant forall k | k in table :: table[k] == before[k]
      {
        var candidate :| candidate in rest;
        rest := rest - {candidate};
        if candidate in table && now >= table[candidate].resetAt { table := table - {candidate}; }
      }
      assert table == Unexpired(before, now);
      if key !in table && |table| >= maximumBuckets { return false; }
      var bucket := if key in table then table[key] else Entry(0, now + WINDOW);
      if bucket.count >= limit { return false; }
      table := table[key := bucket.(count := bucket.count + 1)];
      return true;
    }
  }
}
