/** Petal-count snapping to the nearest Fibonacci number (src/lib/mandala-math.ts). */
module MandalaMath {

  /** The fixed, ordered list of admissible petal counts. */
  const FibonacciNumbers: seq<int> := [3, 5, 8, 13, 21, 34, 55, 89]

  function Abs(x: int): nat {
    if x < 0 then -x else x
  }

  /** The reducer: the candidate replaces the running best only when it is strictly closer to n. */
  function Closer(n: int, prev: int, curr: int): int {
    if Abs(curr - n) < Abs(prev - n) then curr else prev
  }

  /** Left fold of Closer over xs, starting from acc (Array.prototype.reduce). */
  function Reduce(n: int, acc: int, xs: seq<int>): int
    decreases |xs|
  {
    if xs == [] then acc else Reduce(n, Closer(n, acc, xs[0]), xs[1..])
  }

  /** getNearestFibonacci: reduce without a seed takes the first element as the seed. */
  function NearestFibonacci(n: int): int {
    Reduce(n, FibonacciNumbers[0], FibonacciNumbers[1..])
  }

  /** The first element of s whose distance to n is minimal among all elements of s. */
  ghost predicate IsFirstNearest(n: int, s: seq<int>, k: int) {
    && 0 <= k < |s|
    && (forall j :: 0 <= j < |s| ==> Abs(s[k] - n) <= Abs(s[j] - n))
    && (forall j :: 0 <= j < k ==> Abs(s[k] - n) < Abs(s[j] - n))
  }

  /** One step of the fold keeps "the running best is the first nearest element seen so far". */
  lemma FoldStep(n: int, p: seq<int>, k: int, x: int) returns (k': int)
    requires IsFirstNearest(n, p, k)
    ensures IsFirstNearest(n, p + [x], k') && (p + [x])[k'] == Closer(n, p[k], x)
  {
    var q := p + [x];
    assert forall j :: 0 <= j < |p| ==> q[j] == p[j];
    if Abs(x - n) < Abs(p[k] - n) {
      k' := |p|;
    } else {
      k' := k;
    }
  }

  /**
   * Folding the rest xs into a running best that is the first nearest element of
   * the prefix p yields the first nearest element of p + xs.
   */
  lemma {:induction false} FoldFirstNearest(n: int, p: seq<int>, k: int, xs: seq<int>) returns (K: int)
    requires IsFirstNearest(n, p, k)
    ensures IsFirstNearest(n, p + xs, K) && (p + xs)[K] == Reduce(n, p[k], xs)
    decreases |xs|
  {
    if xs == [] {
      assert p + xs == p;
      K := k;
    } else {
      var k' := FoldStep(n, p, k, xs[0]);
      assert (p + [xs[0]]) + xs[1..] == p + xs;
      K := FoldFirstNearest(n, p + [xs[0]], k', xs[1..]);
    }
  }

  /**
   * getNearestFibonacci returns the first Fibonacci number attaining the minimal
   * distance to n: it belongs to the list, no list element is closer, and every
   * earlier element is strictly farther (so ties go to the smaller value).
   */
  lemma NearestIsFirstClosest(n: int)
    ensures exists k :: IsFirstNearest(n, FibonacciNumbers, k) && FibonacciNumbers[k] == NearestFibonacci(n)
  {
    var F := FibonacciNumbers;
    assert IsFirstNearest(n, [F[0]], 0);
    assert [F[0]] + F[1..] == F;
    var K := FoldFirstNearest(n, [F[0]], 0, F[1..]);
  }

  /** Membership and minimal distance, stated without the index. */
  lemma NearestIsMemberAndMinimal(n: int)
    ensures NearestFibonacci(n) in FibonacciNumbers
    ensures forall f :: f in FibonacciNumbers ==> Abs(NearestFibonacci(n) - n) <= Abs(f - n)
  {
    NearestIsFirstClosest(n);
  }

  /** A Fibonacci number of the list snaps to itself. */
  lemma NearestOfMember(n: int)
    requires n in FibonacciNumbers
    ensures NearestFibonacci(n) == n
  {
    NearestIsMemberAndMinimal(n);
  }

  /** Snapping twice is the same as snapping once. */
  lemma NearestIdempotent(n: int)
    ensures NearestFibonacci(NearestFibonacci(n)) == NearestFibonacci(n)
  {
    NearestIsMemberAndMinimal(n);
    NearestOfMember(NearestFibonacci(n));
  }

  /** Inputs at or below the smallest element snap to 3, at or above the largest to 89. */
  lemma NearestClamps(n: int)
    ensures n <= 3 ==> NearestFibonacci(n) == 3
    ensures n >= 89 ==> NearestFibonacci(n) == 89
  {
    NearestIsMemberAndMinimal(n);
    assert 3 in FibonacciNumbers && 89 in FibonacciNumbers;
  }

  /** The list is strictly increasing. */
  lemma FibonacciIncreasing(i: int, j: int)
    requires 0 <= i < j < |FibonacciNumbers|
    ensures FibonacciNumbers[i] < FibonacciNumbers[j]
  {
    var F := FibonacciNumbers;
    assert F[0] < F[1] < F[2] < F[3] < F[4] < F[5] < F[6] < F[7];
  }

  /** Snapping preserves order: a larger input never snaps to a smaller Fibonacci number. */
  lemma NearestMonotone(n: int, m: int)
    requires n <= m
    ensures NearestFibonacci(n) <= NearestFibonacci(m)
  {
    NearestIsFirstClosest(n);
    NearestIsFirstClosest(m);
    var F := FibonacciNumbers;
    var kn :| IsFirstNearest(n, F, kn) && F[kn] == NearestFibonacci(n);
    var km :| IsFirstNearest(m, F, km) && F[km] == NearestFibonacci(m);
    if km < kn {
      // F[kn] > F[km] is strictly closer to n, so n lies above their midpoint;
      // F[km] is no farther from m, so m lies at or below it: m < n
      FibonacciIncreasing(km, kn);
      assert false;
    } else if km > kn {
      FibonacciIncreasing(kn, km);
    }
  }

  /** The first nearest element is unique, so it determines getNearestFibonacci's result. */
  lemma NearestIsTheFirstNearest(n: int, k: int)
    requires IsFirstNearest(n, FibonacciNumbers, k)
    ensures NearestFibonacci(n) == FibonacciNumbers[k]
  {
    NearestIsFirstClosest(n);
    var F := FibonacciNumbers;
    var k' :| IsFirstNearest(n, F, k') && F[k'] == NearestFibonacci(n);
    // whichever of k, k' comes first is strictly closer than the other, so neither does
    assert k == k';
  }

  /** The fold written out over the literal list, so that it evaluates on literal inputs. */
  lemma NearestUnrolled(n: int)
    ensures NearestFibonacci(n) == Reduce(n, 3, [5, 8, 13, 21, 34, 55, 89])
  {
    assert FibonacciNumbers[1..] == [5, 8, 13, 21, 34, 55, 89];
  }

  /** The spot values pinned by the repository's tests, including the tie 4 -> 3. */
  lemma NearestSpotValues()
    ensures NearestFibonacci(1) == 3 && NearestFibonacci(3) == 3 && NearestFibonacci(4) == 3
    ensures NearestFibonacci(5) == 5 && NearestFibonacci(6) == 5 && NearestFibonacci(7) == 8
    ensures NearestFibonacci(10) == 8 && NearestFibonacci(11) == 13 && NearestFibonacci(12) == 13
    ensures NearestFibonacci(13) == 13 && NearestFibonacci(21) == 21 && NearestFibonacci(89) == 89
    ensures NearestFibonacci(100) == 89
  {
    NearestUnrolled(1);
    NearestUnrolled(3);
    NearestUnrolled(4);
    NearestUnrolled(5);
    NearestUnrolled(6);
    NearestUnrolled(7);
    NearestUnrolled(10);
    NearestUnrolled(11);
    NearestUnrolled(12);
    NearestUnrolled(13);
    NearestUnrolled(21);
    NearestUnrolled(89);
    NearestUnrolled(100);
  }
}
