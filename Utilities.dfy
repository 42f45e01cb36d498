/**
 * The game's random utilities: `rand` and the in-place Fisher–Yates
 * `shuffleArray`, plus the `Math.min`/`Math.max` the engine uses.
 *
 * Every value `Math.random()` returns is passed in as a `Unit`, a real in
 * [0, 1); the arithmetic around it is exact (floating-point rounding is not
 * modelled).
 */
module Utilities {

  /** A value returned by Math.random(). */
  type Unit = r: real | 0.0 <= r < 1.0

  datatype Option<T> = None | Some(value: T)

  /** Math.min of two numbers: the smaller one. */
  function Min(a: int, b: int): (m: int)
    ensures m <= a && m <= b && (m == a || m == b)
  {
    if a <= b then a else b
  }

  /** Math.max of two numbers: the larger one. */
  function Max(a: int, b: int): (m: int)
    ensures m >= a && m >= b && (m == a || m == b)
  {
    if a >= b then a else b
  }

  /**
   * u * n for a draw u, written as n-fold addition so that it stays linear
   * in u; ScaleIsProduct shows it is the product.
   */
  function Scale(u: Unit, n: nat): (r: real)
    ensures 0.0 <= r && (n > 0 ==> r < n as real)
  {
    if n == 0 then 0.0 else Scale(u, n - 1) + u
  }

  lemma {:induction false} ScaleIsProduct(u: Unit, n: nat)
    ensures Scale(u, n) == u * n as real
  {
    if n > 0 {
      ScaleIsProduct(u, n - 1);
      assert u * n as real == u * (n - 1) as real + u;
    }
  }

  /**
   * rand(lo, hi) = Math.floor(Math.random() * (hi - lo + 1)) + lo. The floor is
   * computed by counting down from hi - lo to the first k with u * n >= k;
   * RandIsFloor shows this is the formula.
   */
  function Rand(lo: int, hi: int, u: Unit): (r: int)
    requires lo <= hi
    ensures lo <= r <= hi
  {
    lo + FloorBelow(u, hi - lo + 1, hi - lo)
  }

  /** The largest j <= k with u * n >= j (0 when there is none). */
  function FloorBelow(u: Unit, n: nat, k: nat): (r: nat)
    ensures r <= k
  {
    if k == 0 || Scale(u, n) >= k as real then k else FloorBelow(u, n, k - 1)
  }

  lemma {:induction false} FloorBelowIsFloor(u: Unit, n: nat, k: nat)
    requires Scale(u, n) < (k + 1) as real
    ensures FloorBelow(u, n, k) == Scale(u, n).Floor
  {
    if k > 0 && Scale(u, n) < k as real {
      FloorBelowIsFloor(u, n, k - 1);
    }
  }

  /** rand's result is exactly floor(u * (hi - lo + 1)) + lo. */
  lemma RandIsFloor(lo: int, hi: int, u: Unit)
    requires lo <= hi
    ensures Rand(lo, hi, u) == (u * (hi - lo + 1) as real).Floor + lo
  {
    ScaleIsProduct(u, hi - lo + 1);
    FloorBelowIsFloor(u, hi - lo + 1, hi - lo);
  }

  /** Every value of the range is the outcome of some draw, so rand can return any of them. */
  lemma RandReachesEveryValue(lo: int, hi: int, k: int)
    requires lo <= k <= hi
    ensures 0.0 <= (k - lo) as real / (hi - lo + 1) as real < 1.0
    ensures Rand(lo, hi, (k - lo) as real / (hi - lo + 1) as real) == k
  {
    var n := (hi - lo + 1) as real;
    var u := (k - lo) as real / n;
    assert u * n == (k - lo) as real;
    assert u < 1.0 by {
      assert (k - lo) as real < n;
    }
    RandIsFloor(lo, hi, u);
  }

  /** rand is monotone in the draw: a larger draw never gives a smaller value. */
  lemma RandMonotone(lo: int, hi: int, u: Unit, v: Unit)
    requires lo <= hi && u <= v
    ensures Rand(lo, hi, u) <= Rand(lo, hi, v)
  {
    ScaleMonotone(u, v, hi - lo + 1);
    FloorBelowMonotone(u, v, hi - lo + 1, hi - lo);
  }

  lemma {:induction false} ScaleMonotone(u: Unit, v: Unit, n: nat)
    requires u <= v
    ensures Scale(u, n) <= Scale(v, n)
  {
    if n > 0 {
      ScaleMonotone(u, v, n - 1);
    }
  }

  lemma {:induction false} FloorBelowMonotone(u: Unit, v: Unit, n: nat, k: nat)
    requires Scale(u, n) <= Scale(v, n)
    ensures FloorBelow(u, n, k) <= FloorBelow(v, n, k)
  {
    if k > 0 && Scale(v, n) < k as real {
      FloorBelowMonotone(u, v, n, k - 1);
    }
  }

  /**
   * The first n elements of s, or all of s when it is shorter: what slice(0, n)
   * returns for the non-negative counts the game passes (script.js:176, 180).
   */
  function Take<T>(s: seq<T>, n: nat): (r: seq<T>)
    ensures |r| == Min(n, |s|)
    ensures forall i :: 0 <= i < |r| ==> r[i] == s[i]
  {
    s[..Min(n, |s|)]
  }

  /** A prefix of a prefix is a prefix. */
  lemma PrefixOfPrefix<T>(a: seq<T>, b: seq<T>, c: seq<T>)
    requires |a| <= |b| <= |c| && c[..|b|] == b && b[..|a|] == a
    ensures c[..|a|] == a
  {
    assert c[..|a|] == c[..|b|][..|a|];
  }

  /** The number of swaps (and draws) shuffleArray makes on n elements: i runs from n-1 down to 1. */
  function SwapCount(n: nat): (c: nat) { if n == 0 then 0 else n - 1 }

  /** The sequence with the elements at i and j exchanged. */
  function Swap<T>(s: seq<T>, i: nat, j: nat): (r: seq<T>)
    requires i < |s| && j < |s|
    ensures |r| == |s| && r[i] == s[j] && r[j] == s[i]
    ensures forall k :: 0 <= k < |s| && k != i && k != j ==> r[k] == s[k]
  {
    s[i := s[j]][j := s[i]]
  }

  lemma SwapPermutes<T>(s: seq<T>, i: nat, j: nat)
    requires i < |s| && j < |s|
    ensures multiset(Swap(s, i, j)) == multiset(s)
  {
  }

  /**
   * The loop of shuffleArray from index i down to 1: each step draws
   * j = rand(0, i) from the next draw and swaps positions i and j.
   */
  function FisherYates<T>(s: seq<T>, i: int, ds: seq<Unit>): (r: seq<T>)
    requires i < |s|
    requires |ds| >= Max(i, 0)
    ensures |r| == |s|
    decreases i
  {
    if i <= 0 then s
    else FisherYates(Swap(s, i, Rand(0, i, ds[0])), i - 1, ds[1..])
  }

  /** The result of shuffleArray on s, given the draws in the order it makes them. */
  function Shuffle<T>(s: seq<T>, ds: seq<Unit>): (r: seq<T>)
    requires |ds| >= SwapCount(|s|)
    ensures |r| == |s|
  {
    FisherYates(s, |s| - 1, ds)
  }

  lemma {:induction false} FisherYatesPermutes<T>(s: seq<T>, i: int, ds: seq<Unit>)
    requires i < |s|
    requires |ds| >= Max(i, 0)
    ensures |FisherYates(s, i, ds)| == |s|
    ensures multiset(FisherYates(s, i, ds)) == multiset(s)
    decreases i
  {
    if i > 0 {
      var t := Swap(s, i, Rand(0, i, ds[0]));
      SwapPermutes(s, i, Rand(0, i, ds[0]));
      FisherYatesPermutes(t, i - 1, ds[1..]);
    }
  }

  /** A shuffle is a permutation of its input: same length, same multiset of elements. */
  lemma ShufflePermutes<T>(s: seq<T>, ds: seq<Unit>)
    requires |ds| >= SwapCount(|s|)
    ensures |Shuffle(s, ds)| == |s|
    ensures multiset(Shuffle(s, ds)) == multiset(s)
  {
    FisherYatesPermutes(s, |s| - 1, ds);
  }

  /** A shuffle keeps exactly the elements of its input. */
  lemma ShuffleSameElements<T>(s: seq<T>, ds: seq<Unit>)
    requires |ds| >= SwapCount(|s|)
    ensures forall x :: x in Shuffle(s, ds) <==> x in s
  {
    ShufflePermutes(s, ds);
    forall x ensures x in Shuffle(s, ds) <==> x in s {
      assert x in Shuffle(s, ds) <==> x in multiset(Shuffle(s, ds));
      assert x in s <==> x in multiset(s);
    }
  }

  /**
   * shuffleArray: swaps a[i] with a[j], j = rand(0, i), for i from a.length - 1
   * down to 1, and returns the array it was given.
   */
  method ShuffleArray<T>(a: array<T>, ds: seq<Unit>) returns (r: array<T>)
    requires |ds| >= SwapCount(a.Length)
    modifies a
    ensures r == a
    ensures a[..] == Shuffle(old(a[..]), ds)
  {
    var i := a.Length - 1;
    var used := 0;
    while i > 0
      invariant -1 <= i < a.Length
      invariant used == a.Length - 1 - i
      invariant used <= |ds| && |ds| - used >= Max(i, 0)
      invariant FisherYates(a[..], i, ds[used..]) == Shuffle(old(a[..]), ds)
    {
      ghost var before := a[..];
      var j := Rand(0, i, ds[used]);
      a[i], a[j] := a[j], a[i];
      assert a[..] == Swap(before, i, j);
      assert ds[used..][1..] == ds[used + 1..];
      i := i - 1;
      used := used + 1;
    }
    r := a;
  }
}
