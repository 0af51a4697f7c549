/** Rejection sampling over bytes, and the in-place Fisher-Yates shuffle. */
module Randomness {

  import opened Common

  type Byte = b: nat | b < 256

  /** The bytes that the random source hands out, one after the other. */
  type Tape = nat -> Byte

  const BYTE_VALUES := 256
  const MAX_ATTEMPTS := 256

  function UnbiasedLimit(bound: nat): nat
    requires bound >= 1
  {
    BYTE_VALUES - BYTE_VALUES % bound
  }

  function ByteAt(tape: Tape, from: nat, k: nat): Byte {
    tape(from + k)
  }

  /** The first of the next attempts whose byte is accepted, or None when all are rejected. */
  function Accepted(bound: nat, tape: Tape, from: nat, attempts: nat): (k: Option<nat>)
    requires bound >= 1
    ensures k.Some? ==> k.value < attempts && ByteAt(tape, from, k.value) < UnbiasedLimit(bound)
    ensures k.Some? ==> forall j | 0 <= j < k.value :: ByteAt(tape, from, j) >= UnbiasedLimit(bound)
    ensures k.None? ==> forall j | 0 <= j < attempts :: ByteAt(tape, from, j) >= UnbiasedLimit(bound)
  {
    if attempts == 0 then None
    else
      var earlier := Accepted(bound, tape, from, attempts - 1);
      if earlier.Some? then earlier
      else if ByteAt(tape, from, attempts - 1) < UnbiasedLimit(bound) then Some(attempts - 1)
      else None
  }

  lemma {:induction false} AcceptedStays(bound: nat, tape: Tape, from: nat, attempts: nat, more: nat)
    requires bound >= 1 && attempts <= more && Accepted(bound, tape, from, attempts).Some?
    ensures Accepted(bound, tape, from, more) == Accepted(bound, tape, from, attempts)
  {
    if attempts < more {
      AcceptedStays(bound, tape, from, attempts, more - 1);
    }
  }

  /** An index below `bound` from the first accepted byte; None when 256 bytes in a row are rejected, which throws. */
  method RandomIndex(bound: nat, tape: Tape, from: nat) returns (index: Option<nat>, next: nat)
    requires bound >= 1
    ensures var k := Accepted(bound, tape, from, MAX_ATTEMPTS);
            if k.Some? then index == Some(ByteAt(tape, from, k.value) % bound) && next == from + k.value + 1 else index.None?
    ensures index.Some? ==> index.value < bound
  {
    var limit := UnbiasedLimit(bound);
    var attempt := 0;
    while attempt < MAX_ATTEMPTS
      invariant 0 <= attempt <= MAX_ATTEMPTS
      invariant Accepted(bound, tape, from, attempt).None?
    {
      var value := ByteAt(tape, from, attempt);
      if value < limit {
        AcceptedStays(bound, tape, from, attempt + 1, MAX_ATTEMPTS);
        return Some(value % bound), from + attempt + 1;
      }
      attempt := attempt + 1;
    }
    return None, from + attempt;
  }

  /** The accepted byte values with the given residue. */
  function Residues(limit: nat, bound: nat, r: nat): set<nat>
    requires bound >= 1
  {
    set v | 0 <= v < limit && v % bound == r
  }

  lemma {:induction false} ResidueCount(q: nat, bound: nat, r: nat)
    requires bound >= 1 && r < bound
    ensures |Residues(q * bound, bound, r)| == q
  {
    if q == 0 {
      assert Residues(0, bound, r) == {};
    } else {
      ResidueCount(q - 1, bound, r);
      var below := (q - 1) * bound;
      assert q * bound == below + bound;
      forall v ensures v in Residues(q * bound, bound, r) <==> v in Residues(below, bound, r) || v == below + r {
        ResidueInBlock(q - 1, bound, r, v);
      }
      assert Residues(q * bound, bound, r) == Residues(below, bound, r) + {below + r};
    }
  }

  lemma ResidueInBlock(q: nat, bound: nat, r: nat, v: int)
    requires bound >= 1 && r < bound
    ensures q * bound <= v < q * bound + bound ==> (v % bound == r <==> v == q * bound + r)
  {
    if q * bound <= v < q * bound + bound {
      RemainderIs(v, q, bound, v - q * bound);
    }
  }

  lemma {:induction false} Blocks(q: nat, p: nat, b: nat)
    ensures q > p ==> q * b >= p * b + b
  {
    if q > p {
      Blocks(q - 1, p, b);
      assert q * b == (q - 1) * b + b;
    }
  }

  lemma RemainderIs(x: nat, q: nat, b: nat, r: nat)
    requires x == q * b + r && r < b
    ensures x % b == r
  {
    var p := x / b;
    assert x == p * b + x % b;
    Blocks(q, p, b);
    Blocks(p, q, b);
  }

  /** Every index is the outcome of equally many accepted bytes, and at least one. */
  lemma SamplingIsUnbiased(bound: nat, r: nat)
    requires 1 <= bound <= BYTE_VALUES && r < bound
    ensures |Residues(UnbiasedLimit(bound), bound, r)| == BYTE_VALUES / bound
    ensures BYTE_VALUES / bound >= 1
  {
    var q := BYTE_VALUES / bound;
    assert BYTE_VALUES == q * bound + BYTE_VALUES % bound;
    ResidueCount(q, bound, r);
  }

  // ---------- shuffling ----------

  function Swap<T>(s: seq<T>, i: nat, j: nat): (r: seq<T>)
    requires i < |s| && j < |s|
    ensures |r| == |s| && r[i] == s[j] && r[j] == s[i]
    ensures forall k | 0 <= k < |s| && k != i && k != j :: r[k] == s[k]
  {
    s[i := s[j]][j := s[i]]
  }

  /** `choices[k]` is the index chosen for position n - 1 - k. */
  predicate ValidChoices(n: nat, choices: seq<nat>) {
    |choices| == (if n == 0 then 0 else n - 1) && forall k | 0 <= k < |choices| :: choices[k] <= n - 1 - k
  }

  /** The values after the first `k` swaps. */
  function AfterSwaps<T>(s: seq<T>, choices: seq<nat>, k: nat): (r: seq<T>)
    requires k <= |choices| && k < |s| + 1 && forall i | 0 <= i < k :: choices[i] <= |s| - 1 - i
    ensures |r| == |s|
  {
    if k == 0 then s else Swap(AfterSwaps(s, choices, k - 1), |s| - k, choices[k - 1])
  }

  /** The shuffle by choices, from the last position down. */
  function Shuffle<T>(s: seq<T>, choices: seq<nat>): (r: seq<T>)
    requires ValidChoices(|s|, choices)
    ensures |r| == |s|
    decreases |s|
  {
    if |s| <= 1 then s else
    var t := Swap(s, |s| - 1, choices[0]);
    Shuffle(t[..|s| - 1], choices[1..]) + [t[|s| - 1]]
  }

  predicate Distinct<T(==)>(s: seq<T>) {
    forall i, j | 0 <= i < j < |s| :: s[i] != s[j]
  }

  lemma SwapIsPermutation<T>(s: seq<T>, i: nat, j: nat)
    requires i < |s| && j < |s|
    ensures multiset(Swap(s, i, j)) == multiset(s)
  {
  }

  lemma SplitLast<T>(s: seq<T>)
    requires s != []
    ensures multiset(s) == multiset(s[..|s| - 1]) + multiset{s[|s| - 1]}
  {
    assert s == s[..|s| - 1] + [s[|s| - 1]];
  }

  /** Every shuffle is a permutation. */
  lemma {:induction false} ShuffleIsPermutation<T>(s: seq<T>, choices: seq<nat>)
    requires ValidChoices(|s|, choices)
    ensures multiset(Shuffle(s, choices)) == multiset(s)
    decreases |s|
  {
    if |s| > 1 {
      var t := Swap(s, |s| - 1, choices[0]);
      SwapIsPermutation(s, |s| - 1, choices[0]);
      ShuffleIsPermutation(t[..|s| - 1], choices[1..]);
      SplitLast(t);
    }
  }

  lemma DistinctFromMultiset<T>(s: seq<T>)
    requires Distinct(s)
    ensures forall x | x in s :: multiset(s)[x] == 1
    decreases |s|
  {
    if s != [] {
      var front := s[..|s| - 1];
      DistinctFromMultiset(front);
      SplitLast(s);
      forall x | x in s ensures multiset(s)[x] == 1 {
        if x == s[|s| - 1] {
          assert x !in front;
        } else {
          assert x in front;
        }
      }
    }
  }

  /** A permutation of distinct values is distinct. */
  lemma {:induction false} PermutationIsDistinct<T>(s: seq<T>, t: seq<T>)
    requires Distinct(s) && multiset(s) == multiset(t)
    ensures Distinct(t)
  {
    DistinctFromMultiset(s);
    forall i, j | 0 <= i < j < |t| ensures t[i] != t[j] {
      assert t[i] in multiset(t);
      assert t[i] in s;
      TwoOccurrences(t, i, j);
    }
  }

  lemma TwoOccurrences<T>(t: seq<T>, i: nat, j: nat)
    requires i < j < |t|
    ensures t[i] == t[j] ==> multiset(t)[t[i]] >= 2
  {
    assert t == t[..j] + [t[j]] + t[j + 1..];
    assert t[..j][i] == t[i];
    assert t[i] in multiset(t[..j]);
  }

  function IndexIn<T(==)>(s: seq<T>, x: T): (i: nat)
    requires x in s
    ensures i < |s| && s[i] == x
  {
    if s[0] == x then 0 else 1 + IndexIn(s[1..], x)
  }

  lemma LastIsThere<T>(s: seq<T>, t: seq<T>)
    requires multiset(s) == multiset(t) && t != []
    ensures |s| == |t| && t[|t| - 1] in s
  {
    assert |multiset(s)| == |s| && |multiset(t)| == |t|;
    assert t[|t| - 1] in multiset(t);
  }

  /** The choices that shuffle `s` into its permutation `t`. */
  function ChoicesFor<T(==)>(s: seq<T>, t: seq<T>): (choices: seq<nat>)
    requires multiset(s) == multiset(t)
    ensures ValidChoices(|s|, choices)
    decreases |s|
  {
    if |s| <= 1 then [] else
    SplitsAlike(s, t);
    var n := |s| - 1;
    var c := IndexIn(s, t[n]);
    var rest := ChoicesFor(Swap(s, n, c)[..n], t[..n]);
    [c] + rest
  }

  lemma SplitsAlike<T>(s: seq<T>, t: seq<T>)
    requires multiset(s) == multiset(t) && |s| > 1
    ensures |t| == |s| && t[|s| - 1] in s
    ensures multiset(Swap(s, |s| - 1, IndexIn(s, t[|s| - 1]))[..|s| - 1]) == multiset(t[..|s| - 1])
  {
    hide Swap;
    LastIsThere(s, t);
    var c := IndexIn(s, t[|s| - 1]);
    SwapIsPermutation(s, |s| - 1, c);
    SameFront(Swap(s, |s| - 1, c), t);
  }

  lemma SameFront<T>(u: seq<T>, t: seq<T>)
    requires u != [] && |u| == |t| && multiset(u) == multiset(t) && u[|u| - 1] == t[|t| - 1]
    ensures multiset(u[..|u| - 1]) == multiset(t[..|t| - 1])
  {
    SplitLast(u);
    SplitLast(t);
    assert multiset(u[..|u| - 1]) == multiset(u) - multiset{u[|u| - 1]};
  }

  lemma ShuffleStep<T>(s: seq<T>, choices: seq<nat>)
    requires |s| > 1 && ValidChoices(|s|, choices)
    ensures choices != [] && choices[0] < |s| && ValidChoices(|s| - 1, choices[1..])
    ensures Shuffle(s, choices) == Shuffle(Swap(s, |s| - 1, choices[0])[..|s| - 1], choices[1..]) + [s[choices[0]]]
  {
  }

  lemma ShortIsItself<T>(s: seq<T>, t: seq<T>)
    requires multiset(s) == multiset(t) && |s| <= 1
    ensures s == t
  {
    SameLength(s, t);
    if |s| == 1 { LastIsThere(s, t); }
  }

  lemma ShortShuffle<T>(s: seq<T>, t: seq<T>)
    requires multiset(s) == multiset(t) && |s| <= 1
    ensures Shuffle(s, ChoicesFor(s, t)) == s
  {
  }

  /** Every permutation is the shuffle by its choices. */
  lemma {:induction false} EveryPermutationIsReached<T>(s: seq<T>, t: seq<T>)
    requires multiset(s) == multiset(t)
    ensures Shuffle(s, ChoicesFor(s, t)) == t
    decreases |s|
  {
    SameLength(s, t);
    hide Swap, Shuffle, ChoicesFor, IndexIn;
    if |s| <= 1 {
      ShortIsItself(s, t);
      ShortShuffle(s, t);
    } else {
      SplitsAlike(s, t);
      var n := |s| - 1;
      EveryPermutationIsReached(Swap(s, n, IndexIn(s, t[n]))[..n], t[..n]);
      ReachedLast(s, t);
    }
  }

  lemma ReachedLast<T>(s: seq<T>, t: seq<T>)
    requires multiset(s) == multiset(t) && |s| > 1 && |t| == |s| && t[|s| - 1] in s
    requires var u := Swap(s, |s| - 1, IndexIn(s, t[|s| - 1]))[..|s| - 1];
             multiset(u) == multiset(t[..|s| - 1]) && Shuffle(u, ChoicesFor(u, t[..|s| - 1])) == t[..|s| - 1]
    ensures Shuffle(s, ChoicesFor(s, t)) == t
  {
    hide Swap, Shuffle, ChoicesFor, IndexIn;
    ChoicesSplit(s, t);
    ShuffleStep(s, ChoicesFor(s, t));
    Together(t, t[..|t| - 1]);
  }

  lemma Together<T>(t: seq<T>, front: seq<T>)
    requires t != [] && front == t[..|t| - 1]
    ensures front + [t[|t| - 1]] == t
  {
  }

  lemma SameLength<T>(s: seq<T>, t: seq<T>)
    requires multiset(s) == multiset(t)
    ensures |s| == |t|
  {
    assert |multiset(s)| == |s| && |multiset(t)| == |t|;
  }

  lemma ChoicesSplit<T>(s: seq<T>, t: seq<T>)
    requires multiset(s) == multiset(t) && |s| > 1
    ensures |t| == |s| && t[|s| - 1] in s && ChoicesFor(s, t) != []
    ensures var n := |s| - 1;
            var c := IndexIn(s, t[n]);
            && multiset(Swap(s, n, c)[..n]) == multiset(t[..n])
            && ChoicesFor(s, t)[0] == c && ChoicesFor(s, t)[1..] == ChoicesFor(Swap(s, n, c)[..n], t[..n])
  {
    hide Swap;
    SplitsAlike(s, t);
  }

  /** Of distinct values, no permutation is reached by two vectors of choices. */
  lemma {:induction false} ChoicesAreUnique<T>(s: seq<T>, choices: seq<nat>)
    requires Distinct(s) && ValidChoices(|s|, choices)
    ensures multiset(s) == multiset(Shuffle(s, choices))
    ensures ChoicesFor(s, Shuffle(s, choices)) == choices
    decreases |s|
  {
    ShuffleIsPermutation(s, choices);
    if |s| > 1 {
      var n := |s| - 1;
      var t := Swap(s, n, choices[0]);
      SwapIsPermutation(s, n, choices[0]);
      PermutationIsDistinct(s, t);
      PrefixDistinct(t, n);
      ChoicesAreUnique(t[..n], choices[1..]);
      var r := Shuffle(s, choices);
      assert r[n] == s[choices[0]];
      SplitsAlike(s, r);
      SameIndex(s, IndexIn(s, r[n]), choices[0]);
      assert r[..n] == Shuffle(t[..n], choices[1..]);
    }
  }

  lemma PrefixDistinct<T>(s: seq<T>, n: nat)
    requires Distinct(s) && n <= |s|
    ensures Distinct(s[..n])
  {
  }

  lemma SameIndex<T>(s: seq<T>, i: nat, j: nat)
    requires Distinct(s) && i < |s| && j < |s| && s[i] == s[j]
    ensures i == j
  {
  }

  // ---------- the loop is the shuffle ----------

  lemma FirstSwap<T>(s: seq<T>, choices: seq<nat>)
    requires ValidChoices(|s|, choices) && |s| > 1
    ensures var n := |s| - 1;
            var t := Swap(s, n, choices[0]);
            AfterSwaps(s, choices, 1) == t && t == AfterSwaps(t[..n], choices[1..], 0) + [t[n]]
  {
    hide Swap;
    var t := Swap(s, |s| - 1, choices[0]);
    assert AfterSwaps(s, choices, 0) == s;
  }

  lemma {:induction false} SwapsSplit<T>(s: seq<T>, choices: seq<nat>, k: nat)
    requires ValidChoices(|s|, choices) && |s| > 1 && k < |choices|
    ensures var n := |s| - 1;
            var t := Swap(s, n, choices[0]);
            && AfterSwaps(s, choices, k + 1) == AfterSwaps(t[..n], choices[1..], k) + [t[n]]
  {
    hide Swap;
    if k == 0 {
      FirstSwap(s, choices);
    } else {
      var n := |s| - 1;
      var t := Swap(s, n, choices[0]);
      SwapsSplit(s, choices, k - 1);
      var before := AfterSwaps(t[..n], choices[1..], k - 1);
      assert choices[1..][k - 1] == choices[k];
      SwapBelow(before, t[n], n - k, choices[k]);
    }
  }

  lemma SwapBelow<T>(s: seq<T>, x: T, i: nat, j: nat)
    requires i < |s| && j < |s|
    ensures Swap(s + [x], i, j) == Swap(s, i, j) + [x]
  {
  }

  lemma {:induction false} SwapsAreShuffle<T>(s: seq<T>, choices: seq<nat>)
    requires ValidChoices(|s|, choices)
    ensures AfterSwaps(s, choices, |choices|) == Shuffle(s, choices)
    decreases |s|
  {
    if |s| > 1 {
      var n := |s| - 1;
      var t := Swap(s, n, choices[0]);
      SwapsSplit(s, choices, |choices| - 1);
      SwapsAreShuffle(t[..n], choices[1..]);
    }
  }

  lemma {:induction false} SwapsPrefix<T>(s: seq<T>, choices: seq<nat>, c: nat, k: nat)
    requires k <= |choices| && k <= |s| && forall i | 0 <= i < k :: choices[i] <= |s| - 1 - i
    ensures AfterSwaps(s, choices + [c], k) == AfterSwaps(s, choices, k)
  {
    if k > 0 {
      SwapsPrefix(s, choices, c, k - 1);
    }
  }

  lemma NoSwaps<T>(s: seq<T>)
    ensures AfterSwaps(s, [], 0) == s
  {
  }

  lemma OneMoreSwap<T>(s: seq<T>, choices: seq<nat>, c: nat)
    requires |choices| < |s| && (forall i | 0 <= i < |choices| :: choices[i] <= |s| - 1 - i) && c <= |s| - 1 - |choices|
    ensures forall i | 0 <= i < |choices| + 1 :: (choices + [c])[i] <= |s| - 1 - i
    ensures AfterSwaps(s, choices + [c], |choices| + 1) == Swap(AfterSwaps(s, choices, |choices|), |s| - 1 - |choices|, c)
  {
    SwapsPrefix(s, choices, c, |choices|);
  }

  /** The index sampled from here on, and where the tape is read next. */
  function NextIndex(bound: nat, tape: Tape, from: nat): (r: Option<(nat, nat)>)
    requires bound >= 1
    ensures r.Some? ==> r.value.0 < bound
  {
    var k := Accepted(bound, tape, from, MAX_ATTEMPTS);
    if k.None? then None else Some((ByteAt(tape, from, k.value) % bound, from + k.value + 1))
  }

  /** The choices for a shuffle of `n` values, sampled one after the other; None where sampling throws. */
  function Draws(n: nat, tape: Tape, from: nat): (r: Option<(seq<nat>, nat)>)
    ensures r.Some? ==> ValidChoices(n, r.value.0)
  {
    if n <= 1 then Some(([], from)) else
    var index := NextIndex(n, tape, from);
    if index.None? then None else
    var rest := Draws(n - 1, tape, index.value.1);
    if rest.None? then None else Some(([index.value.0] + rest.value.0, rest.value.1))
  }

  function Onto(front: seq<nat>, rest: Option<(seq<nat>, nat)>): Option<(seq<nat>, nat)> {
    if rest.None? then None else Some((front + rest.value.0, rest.value.1))
  }

  lemma OneMoreDraw(n: nat, tape: Tape, from: nat, front: seq<nat>)
    requires n >= 2
    ensures NextIndex(n, tape, from).None? ==> Onto(front, Draws(n, tape, from)).None?
    ensures NextIndex(n, tape, from).Some? ==>
              var (index, next) := NextIndex(n, tape, from).value;
              Onto(front, Draws(n, tape, from)) == Onto(front + [index], Draws(n - 1, tape, next))
  {
    hide NextIndex;
    if NextIndex(n, tape, from).Some? && Draws(n, tape, from).Some? {
      var (index, next) := NextIndex(n, tape, from).value;
      assert front + ([index] + Draws(n - 1, tape, next).value.0) == front + [index] + Draws(n - 1, tape, next).value.0;
    }
  }

  lemma NoMoreDraws(n: nat, tape: Tape, from: nat, front: seq<nat>)
    requires n <= 1
    ensures Onto(front, Draws(n, tape, from)) == Some((front, from))
  {
    assert front + [] == front;
  }

  lemma OntoNothing(rest: Option<(seq<nat>, nat)>)
    ensures Onto([], rest) == rest
  {
    if rest.Some? { assert [] + rest.value.0 == rest.value.0; }
  }

  /** Within any 256 bytes one is low enough for every bound up to 75. */
  ghost predicate Lively(tape: Tape) {
    forall from: nat :: HasLowByte(tape, from)
  }

  predicate HasLowByte(tape: Tape, from: nat) {
    exists k: nat | k < MAX_ATTEMPTS :: ByteAt(tape, from, k) < 182
  }

  /** On such a tape no sampling throws. */
  lemma {:induction false} DrawsSucceed(n: nat, tape: Tape, from: nat)
    requires n <= 75 && Lively(tape)
    ensures Draws(n, tape, from).Some?
  {
    if n > 1 {
      assert UnbiasedLimit(n) >= 182 && HasLowByte(tape, from);
      var k: nat :| k < MAX_ATTEMPTS && ByteAt(tape, from, k) < 182;
      assert Accepted(n, tape, from, MAX_ATTEMPTS).Some?;
      DrawsSucceed(n - 1, tape, NextIndex(n, tape, from).value.1);
    }
  }

  /** Shuffles a copy of the values in place with one random index per position; None when sampling throws. */
  method ShuffledValues<T>(values: seq<T>, tape: Tape, from: nat)
      returns (shuffled: Option<seq<T>>, ghost choices: seq<nat>, next: nat)
    ensures shuffled.Some? ==> ValidChoices(|values|, choices) && shuffled.value == Shuffle(values, choices)
    ensures shuffled.Some? ==> multiset(shuffled.value) == multiset(values)
    ensures |values| <= 1 ==> shuffled == Some(values)
    ensures shuffled.Some? ==> Draws(|values|, tape, from) == Some((choices, next))
    ensures shuffled.None? ==> Draws(|values|, tape, from).None?
  {
    hide Shuffle, AfterSwaps, Accepted, Draws, Onto;
    next := from;
    choices := [];
    OntoNothing(Draws(|values|, tape, from));
    NoSwaps(values);
    var a := new T[|values|](i requires 0 <= i < |values| => values[i]);
    assert a[..] == values;
    var index := |values| - 1;
    while index > 0
      invariant -1 <= index < |values| && (index == -1 ==> values == [])
      invariant |choices| == (if values == [] then 0 else |values| - 1 - index)
      invariant forall k | 0 <= k < |choices| :: choices[k] <= |values| - 1 - k
      invariant a[..] == AfterSwaps(values, choices, |choices|)
      invariant Draws(|values|, tape, from) == Onto(choices, Draws(index + 1, tape, next))
    {
      OneMoreDraw(index + 1, tape, next, choices);
      var swapIndex;
      swapIndex, next := RandomIndex(index + 1, tape, next);
      if swapIndex.None? { return None, choices, next; }
      OneMoreSwap(values, choices, swapIndex.value);
      ghost var before := a[..];
      a[index], a[swapIndex.value] := a[swapIndex.value], a[index];
      assert a[..] == Swap(before, index, swapIndex.value);
      choices := choices + [swapIndex.value];
      index := index - 1;
    }
    NoMoreDraws(index + 1, tape, next, choices);
    SwapsAreShuffle(values, choices);
    ShuffleIsPermutation(values, choices);
    return Some(a[..]), choices, next;
  }
}
