/**
  The two calls the dataset builder makes into Python's `random` module,
  written as CPython performs them: `shuffle` is the Fisher-Yates pass
  from the last position down, and `sample` is the pool algorithm that
  moves the last unused element into the slot of each one drawn.

  The generator itself is not modelled.  An `Rng` holds an arbitrary
  stream of raw draws and a count of the draws used so far; the draw
  below `n` is the next raw draw modulo `n`.  Since the stream is
  arbitrary, a shuffle may produce any permutation and a sample any
  selection of distinct positions.
*/
module Random {

  /** The shared generator state that successive calls advance. */
  class Rng {
    const stream: nat -> nat
    var drawn: nat

    constructor (stream: nat -> nat)
      ensures this.stream == stream && drawn == 0
    {
      this.stream := stream;
      drawn := 0;
    }

    /** `randbelow(n)`: the next draw, reduced below `n`. */
    method Below(n: nat) returns (r: nat)
      requires n > 0
      modifies this
      ensures r == stream(old(drawn)) % n && r < n
      ensures drawn == old(drawn) + 1
    {
      r := stream(drawn) % n;
      drawn := drawn + 1;
    }
  }

  /** `s` with the elements at `i` and `j` exchanged. */
  function Swap<T>(s: seq<T>, i: nat, j: nat): (r: seq<T>)
    requires i < |s| && j < |s|
    ensures |r| == |s|
  {
    s[i := s[j]][j := s[i]]
  }

  /** Exchanging two elements keeps the multiset of elements. */
  lemma SwapPermutes<T>(s: seq<T>, i: nat, j: nat)
    requires i < |s| && j < |s|
    ensures multiset(Swap(s, i, j)) == multiset(s)
  {
    UpdateMultiset(s, i, s[j]);
    UpdateMultiset(s[i := s[j]], j, s[i]);
  }

  /** Overwriting one element trades it for the new value. */
  lemma UpdateMultiset<T>(s: seq<T>, i: nat, v: T)
    requires i < |s|
    ensures multiset(s[i := v]) == multiset(s) - multiset{s[i]} + multiset{v}
  {
    assert s == s[..i] + [s[i]] + s[i + 1..];
    assert s[i := v] == s[..i] + [v] + s[i + 1..];
  }

  /** The Fisher-Yates pass at positions `i` down to 1, using the draws from number `d` on. */
  function ShuffledFrom<T>(s: seq<T>, i: nat, stream: nat -> nat, d: nat): seq<T>
    requires i < |s|
    decreases i
  {
    if i == 0 then s
    else ShuffledFrom(Swap(s, i, stream(d) % (i + 1)), i - 1, stream, d + 1)
  }

  /** What `random.shuffle` leaves in a list holding `s`, when the next draw is number `d`. */
  function Shuffled<T>(s: seq<T>, stream: nat -> nat, d: nat): seq<T> {
    if |s| == 0 then s else ShuffledFrom(s, |s| - 1, stream, d)
  }

  /** The number of draws a shuffle of `n` elements uses. */
  function ShuffleDraws(n: nat): nat {
    if n == 0 then 0 else n - 1
  }

  lemma {:induction false} ShuffledFromPermutes<T>(s: seq<T>, i: nat, stream: nat -> nat, d: nat)
    requires i < |s|
    ensures |ShuffledFrom(s, i, stream, d)| == |s|
    ensures multiset(ShuffledFrom(s, i, stream, d)) == multiset(s)
    decreases i
  {
    if i > 0 {
      SwapPermutes(s, i, stream(d) % (i + 1));
      ShuffledFromPermutes(Swap(s, i, stream(d) % (i + 1)), i - 1, stream, d + 1);
    }
  }

  /** A shuffle rearranges the elements and neither adds nor drops any. */
  lemma ShuffledPermutes<T>(s: seq<T>, stream: nat -> nat, d: nat)
    ensures |Shuffled(s, stream, d)| == |s|
    ensures multiset(Shuffled(s, stream, d)) == multiset(s)
  {
    if |s| > 0 {
      ShuffledFromPermutes(s, |s| - 1, stream, d);
    }
  }

  /** One exchange of the Fisher-Yates pass. */
  lemma ShuffleStep<T>(s: seq<T>, i: nat, stream: nat -> nat, d: nat, j: nat, next: seq<T>, i': nat, d': nat)
    requires 0 < i < |s| && j == stream(d) % (i + 1) && next == Swap(s, i, j)
    requires i' == i - 1 && d' == d + 1
    ensures ShuffledFrom(s, i, stream, d) == ShuffledFrom(next, i', stream, d')
  {}

  /** `random.shuffle(a)`: permutes `a` in place. */
  method Shuffle<T>(a: array<T>, rng: Rng)
    modifies a, rng
    ensures a[..] == Shuffled(old(a[..]), rng.stream, old(rng.drawn))
    ensures rng.drawn == old(rng.drawn) + ShuffleDraws(a.Length)
  {
    if a.Length == 0 {
      return;
    }
    ghost var goal := Shuffled(a[..], rng.stream, rng.drawn);
    ghost var d0 := rng.drawn;
    var i := a.Length - 1;
    while i > 0
      invariant 0 <= i < a.Length
      invariant rng.drawn == d0 + (a.Length - 1 - i)
      invariant goal == ShuffledFrom(a[..], i, rng.stream, rng.drawn)
      decreases i
    {
      ghost var before := a[..];
      ghost var d := rng.drawn;
      var j := rng.Below(i + 1);
      SwapInPlace(a, i, j);
      ShuffleStep(before, i, rng.stream, d, j, a[..], i - 1, rng.drawn);
      i := i - 1;
    }
  }

  method SwapInPlace<T>(a: array<T>, i: nat, j: nat)
    requires i < a.Length && j < a.Length
    modifies a
    ensures a[..] == Swap(old(a[..]), i, j)
  {
    var t := a[i];
    a[i] := a[j];
    a[j] := t;
  }

  /**
    The first `k` picks of the pool algorithm on `pool`, using the draws
    from number `d` on: draw a position below the pool's size, take its
    element, and move the pool's last element into that position.
  */
  function Picked<T>(pool: seq<T>, k: nat, stream: nat -> nat, d: nat): seq<T>
    requires k <= |pool|
    decreases k
  {
    if k == 0 then []
    else
      var n := |pool|;
      var j := stream(d) % n;
      [pool[j]] + Picked(pool[j := pool[n - 1]][..n - 1], k - 1, stream, d + 1)
  }

  /** One pick of the pool algorithm. */
  lemma PickedStep<T>(r: seq<T>, pool: seq<T>, k: nat, stream: nat -> nat, d: nat, j: nat, next: seq<T>, k': nat, d': nat)
    requires 0 < k <= |pool| && j == stream(d) % |pool|
    requires next == pool[j := pool[|pool| - 1]][..|pool| - 1]
    requires k' == k - 1 && d' == d + 1
    ensures r + Picked(pool, k, stream, d) == (r + [pool[j]]) + Picked(next, k', stream, d')
  {
    assert Picked(pool, k, stream, d) == [pool[j]] + Picked(next, k - 1, stream, d + 1);
  }

  /** Removing a pick from the pool leaves the other elements. */
  lemma PickRest<T>(pool: seq<T>, j: nat)
    requires j < |pool|
    ensures multiset(pool[j := pool[|pool| - 1]][..|pool| - 1]) + multiset{pool[j]} == multiset(pool)
  {
    var n := |pool|;
    if j == n - 1 {
      assert pool[j := pool[n - 1]] == pool;
      assert pool == pool[..n - 1] + [pool[n - 1]];
    } else {
      var rest := pool[j := pool[n - 1]][..n - 1];
      assert pool == pool[..j] + [pool[j]] + pool[j + 1..n - 1] + [pool[n - 1]];
      assert rest == pool[..j] + [pool[n - 1]] + pool[j + 1..n - 1];
    }
  }

  /** A sample has `k` elements, all drawn from distinct positions of the pool. */
  lemma {:induction false} PickedSubMultiset<T>(pool: seq<T>, k: nat, stream: nat -> nat, d: nat)
    requires k <= |pool|
    ensures |Picked(pool, k, stream, d)| == k
    ensures multiset(Picked(pool, k, stream, d)) <= multiset(pool)
    decreases k
  {
    if k > 0 {
      var n := |pool|;
      var j := stream(d) % n;
      var rest := pool[j := pool[n - 1]][..n - 1];
      PickRest(pool, j);
      PickedSubMultiset(rest, k - 1, stream, d + 1);
    }
  }

  /** `random.sample(population, k)`, pool variant. */
  method Sample<T>(population: seq<T>, k: nat, rng: Rng) returns (r: seq<T>)
    requires k <= |population|
    modifies rng
    ensures r == Picked(population, k, rng.stream, old(rng.drawn))
    ensures rng.drawn == old(rng.drawn) + k
  {
    var pool := population;
    ghost var goal := Picked(population, k, rng.stream, rng.drawn);
    ghost var d0 := rng.drawn;
    r := [];
    var i := 0;
    while i < k
      invariant 0 <= i <= k && |pool| == |population| - i
      invariant rng.drawn == d0 + i
      invariant goal == r + Picked(pool, k - i, rng.stream, rng.drawn)
      decreases k - i
    {
      ghost var d := rng.drawn;
      var j := rng.Below(|pool|);
      var next := pool[j := pool[|pool| - 1]][..|pool| - 1];
      PickedStep(r, pool, k - i, rng.stream, d, j, next, k - (i + 1), rng.drawn);
      r := r + [pool[j]];
      pool := next;
      i := i + 1;
    }
  }



}
