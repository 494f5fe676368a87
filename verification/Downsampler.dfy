/**
 Thinning a trend for display (src/utils/chart/Downsampler.cpp): first and last point, each
 bucket's minimum and maximum, and every alarm point survive.
 */
module Downsampler {
  import opened Prelude

  datatype Point = Point(x: int, y: real)

  // ---- Buckets ----------------------------------------------------------------------

  function BucketCount(maxPoints: int): int requires maxPoints >= 4 { (maxPoints - 2) / 2 }

  /** Where bucket b begins; it ends where the next one begins. */
  function Bound(n: nat, k: int, b: nat): int requires k > 0 { 1 + Times(b, n - 2) / k }

  function Times(a: int, b: int): int { a * b }

  lemma {:induction false} TimesMonotone(k: int, p: int, q: int)
    requires k >= 0 && p <= q
    ensures Times(k, p) <= Times(k, q)
    ensures Times(k, p + 1) == Times(k, p) + k
    decreases q - p
  {
    if p < q {
      TimesMonotone(k, p, q - 1);
      assert Times(k, q) == Times(k, q - 1) + k;
    }
  }

  lemma DivUnique(a: int, k: int, q: int, r: int)
    requires a == Times(k, q) + r && 0 <= r < k
    ensures a / k == q
  {
    var p := a / k;
    assert a == Times(k, p) + a % k;
    if p > q { TimesMonotone(k, q + 1, p); TimesMonotone(k, q, q); }
    if q > p { TimesMonotone(k, p + 1, q); TimesMonotone(k, p, p); }
  }

  lemma DivGrows(x: int, y: int, k: int)
    requires k > 0 && x <= y
    ensures x / k <= y / k && (y >= x + k ==> x / k < y / k)
  {
    var q, p := x / k, y / k;
    assert x == Times(k, q) + x % k && y == Times(k, p) + y % k;
    if p < q {
      TimesMonotone(k, p + 1, q);
      TimesMonotone(k, p, p);
    }
  }

  /** When points must go, no bucket is empty, and the buckets follow on from 1 to n - 2. */
  lemma BucketsFollowOn(n: nat, maxPoints: int, b: nat)
    requires n > maxPoints >= 4 && b < BucketCount(maxPoints)
    ensures var k := BucketCount(maxPoints);
            1 == Bound(n, k, 0) <= Bound(n, k, b) < Bound(n, k, b + 1) <= Bound(n, k, k) == n - 1
  {
    var k := BucketCount(maxPoints);
    TimesMonotone(n - 2, 0, b);
    TimesMonotone(n - 2, b, b + 1);
    TimesMonotone(n - 2, b + 1, k);
    assert Times(b, n - 2) == Times(n - 2, b) && Times(b + 1, n - 2) == Times(n - 2, b + 1)
           && Times(k, n - 2) == Times(n - 2, k);
    DivGrows(0, Times(b, n - 2), k);
    DivGrows(Times(b, n - 2), Times(b + 1, n - 2), k);
    DivGrows(Times(b + 1, n - 2), Times(k, n - 2), k);
    DivUnique(Times(k, n - 2), k, n - 2, 0);
  }

  /** The bucket of an inner point. */
  lemma {:induction false} BucketOf(n: nat, maxPoints: int, i: int, upTo: nat) returns (b: nat)
    requires n > maxPoints >= 4 && upTo <= BucketCount(maxPoints)
    requires 1 <= i < Bound(n, BucketCount(maxPoints), upTo)
    ensures b < upTo && Bound(n, BucketCount(maxPoints), b) <= i < Bound(n, BucketCount(maxPoints), b + 1)
  {
    if upTo == 0 {
      BucketsFollowOn(n, maxPoints, 0);
      assert false;
    }
    b := upTo - 1;
    if i < Bound(n, BucketCount(maxPoints), b) {
      b := BucketOf(n, maxPoints, i, b);
    }
  }

  lemma {:induction false} BoundsGrow(n: nat, maxPoints: int, a: nat, b: nat)
    requires n > maxPoints >= 4 && a <= b <= BucketCount(maxPoints)
    ensures Bound(n, BucketCount(maxPoints), a) <= Bound(n, BucketCount(maxPoints), b)
    decreases b
  {
    if a < b {
      BoundsGrow(n, maxPoints, a, b - 1);
      BucketsFollowOn(n, maxPoints, b - 1);
    }
  }

  predicate Inner(n: nat, i: int) { 1 <= i <= n - 2 }

  ghost predicate InBucket(n: nat, k: int, b: nat, i: int)
    requires k > 0
  {
    b < k && Bound(n, k, b) <= i < Bound(n, k, b + 1)
  }

  /** The buckets partition the inner points: each lies in exactly one of them, and none is empty. */
  lemma BucketsPartition(n: nat, maxPoints: int)
    requires n > maxPoints >= 4
    ensures var k := BucketCount(maxPoints);
            && (forall i :: Inner(n, i) <==> exists b: nat :: InBucket(n, k, b, i))
            && (forall i, b: nat, c: nat :: InBucket(n, k, b, i) && InBucket(n, k, c, i) ==> b == c)
            && (forall b: nat :: b < k ==> InBucket(n, k, b, Bound(n, k, b)))
  {
    var k := BucketCount(maxPoints);
    BucketsFollowOn(n, maxPoints, 0);
    forall i | Inner(n, i) ensures exists b: nat :: InBucket(n, k, b, i) {
      var b := BucketOf(n, maxPoints, i, k);
      assert InBucket(n, k, b, i);
    }
    forall i, b: nat | InBucket(n, k, b, i) ensures Inner(n, i) {
      BucketsFollowOn(n, maxPoints, b);
    }
    forall i, b: nat, c: nat | InBucket(n, k, b, i) && InBucket(n, k, c, i) ensures b == c {
      if b < c { BoundsGrow(n, maxPoints, b + 1, c); }
      if c < b { BoundsGrow(n, maxPoints, c + 1, b); }
    }
    forall b: nat | b < k ensures InBucket(n, k, b, Bound(n, k, b)) {
      BucketsFollowOn(n, maxPoints, b);
    }
  }

  /** Every product the loop forms fits 32 bits for the largest trend and the display's limit. */
  lemma ProductsFit(n: nat, maxPoints: int, b: nat)
    requires 4 <= maxPoints <= 800 && maxPoints < n <= 200_000 && b <= BucketCount(maxPoints)
    ensures 0 <= b * (n - 2) <= 399 * 199_998 <= 0x7fff_ffff
  {
    TimesMonotone(n - 2, 0, b);
    TimesMonotone(n - 2, b, 399);
    assert Times(n - 2, b) == b * (n - 2) && Times(n - 2, 0) == 0 && Times(n - 2, 399) == 399 * (n - 2);
  }

  // ---- What is kept ----------------------------------------------------------------------

  ghost predicate FirstMin(input: seq<Point>, lo: int, hi: int, i: int)
    requires 0 <= lo <= hi <= |input|
  {
    && lo <= i < hi
    && (forall j :: lo <= j < hi ==> input[i].y <= input[j].y)
    && (forall j :: lo <= j < i ==> input[i].y < input[j].y)
  }

  ghost predicate FirstMax(input: seq<Point>, lo: int, hi: int, i: int)
    requires 0 <= lo <= hi <= |input|
  {
    && lo <= i < hi
    && (forall j :: lo <= j < hi ==> input[j].y <= input[i].y)
    && (forall j :: lo <= j < i ==> input[j].y < input[i].y)
  }

  ghost predicate Extreme(input: seq<Point>, maxPoints: int, b: nat, i: int)
    requires |input| > maxPoints >= 4
  {
    var n, k := |input|, BucketCount(maxPoints);
    && b < k
    && 0 <= Bound(n, k, b) <= Bound(n, k, b + 1) <= n
    && (FirstMin(input, Bound(n, k, b), Bound(n, k, b + 1), i)
        || FirstMax(input, Bound(n, k, b), Bound(n, k, b + 1), i))
  }

  predicate Alarmed(isAlarm: seq<bool>, i: int) { 0 <= i < |isAlarm| && isAlarm[i] }

  /** Nothing need go. */
  predicate Whole(n: nat, maxPoints: int) { if maxPoints < 4 then n <= 2 else n <= maxPoints }

  /** Which points the reader of the chart can rely on, and no others are drawn. */
  ghost predicate Keep(input: seq<Point>, maxPoints: int, isAlarm: seq<bool>, i: int) {
    0 <= i < |input| &&
    (Whole(|input|, maxPoints) || i == 0 || i == |input| - 1 || Alarmed(isAlarm, i) ||
     (maxPoints >= 4 && exists b: nat :: Extreme(input, maxPoints, b, i)))
  }

  ghost predicate Increasing(s: seq<int>) { forall i, j :: 0 <= i < j < |s| ==> s[i] < s[j] }

  /** The result is the kept points in their order, each once. */
  ghost predicate Thinned(input: seq<Point>, maxPoints: int, isAlarm: seq<bool>, kept: seq<int>, out: seq<Point>) {
    && Increasing(kept)
    && (forall i :: i in kept <==> Keep(input, maxPoints, isAlarm, i))
    && |out| == |kept|
    && forall j :: 0 <= j < |out| ==> 0 <= kept[j] < |input| && out[j] == input[kept[j]]
  }

  function AlarmCount(isAlarm: seq<bool>, n: nat): nat
    requires n <= |isAlarm|
  {
    if n == 0 then 0 else AlarmCount(isAlarm, n - 1) + if isAlarm[n - 1] then 1 else 0
  }

  // ---- The algorithm ---------------------------------------------------------------------

  /** A number put where it belongs, unless it is there already. */
  method InsertOnce(r: seq<int>, x: int) returns (q: seq<int>)
    requires Increasing(r)
    ensures Increasing(q) && |q| <= |r| + 1
    ensures forall i :: i in q <==> i in r || i == x
  {
    var p := 0;
    while p < |r| && r[p] < x
      invariant 0 <= p <= |r|
      invariant forall j :: 0 <= j < p ==> r[j] < x
    {
      p := p + 1;
    }
    if p < |r| && r[p] == x { return r; }
    q := r[..p] + [x] + r[p..];
    assert r == r[..p] + r[p..];
  }

  /** Sorting and then dropping repeats: the same numbers, each once, in order. */
  method SortUnique(s: seq<int>) returns (r: seq<int>)
    ensures Increasing(r) && |r| <= |s|
    ensures forall i :: i in r <==> i in s
  {
    r := [];
    for k := 0 to |s|
      invariant Increasing(r) && |r| <= k
      invariant forall i :: i in r <==> i in s[..k]
    {
      assert s[..k + 1] == s[..k] + [s[k]];
      r := InsertOnce(r, s[k]);
    }
    assert s[..|s|] == s;
  }

  method Extremes(input: seq<Point>, lo: int, hi: int) returns (minIdx: int, maxIdx: int)
    requires 0 <= lo < hi <= |input|
    ensures FirstMin(input, lo, hi, minIdx) && FirstMax(input, lo, hi, maxIdx)
  {
    minIdx, maxIdx := lo, lo;
    for i := lo + 1 to hi
      invariant FirstMin(input, lo, i, minIdx) && FirstMax(input, lo, i, maxIdx)
    {
      if input[i].y < input[minIdx].y { minIdx := i; }
      if input[i].y > input[maxIdx].y { maxIdx := i; }
    }
  }

  method AppendAlarms(kept: seq<int>, isAlarm: seq<bool>, n: nat) returns (r: seq<int>)
    ensures forall i :: i in r <==> i in kept || (Alarmed(isAlarm, i) && i < n)
    ensures |r| == |kept| + AlarmCount(isAlarm, Min(|isAlarm|, n))
  {
    var m := Min(|isAlarm|, n);
    r := kept;
    for i := 0 to m
      invariant forall j :: j in r <==> j in kept || (Alarmed(isAlarm, j) && j < i)
      invariant |r| == |kept| + AlarmCount(isAlarm, i)
    {
      if isAlarm[i] { r := r + [i]; }
    }
  }

  method Pick(input: seq<Point>, kept: seq<int>) returns (out: seq<Point>)
    requires forall i :: i in kept ==> 0 <= i < |input|
    ensures |out| == |kept| && forall j :: 0 <= j < |out| ==> 0 <= kept[j] < |input| && out[j] == input[kept[j]]
  {
    out := [];
    for j := 0 to |kept|
      invariant |out| == j && forall i :: 0 <= i < j ==> 0 <= kept[i] < |input| && out[i] == input[kept[i]]
    {
      assert kept[j] in kept;
      out := out + [input[kept[j]]];
    }
  }

  lemma FirstMinIsUnique(input: seq<Point>, lo: int, hi: int, i: int, j: int)
    requires 0 <= lo < hi <= |input| && FirstMin(input, lo, hi, i) && FirstMin(input, lo, hi, j)
    ensures i == j
  {
    var a, b := input[i], input[j];
    assert a.y <= b.y <= a.y;
  }

  lemma FirstMaxIsUnique(input: seq<Point>, lo: int, hi: int, i: int, j: int)
    requires 0 <= lo < hi <= |input| && FirstMax(input, lo, hi, i) && FirstMax(input, lo, hi, j)
    ensures i == j
  {
    var a, b := input[i], input[j];
    assert a.y <= b.y <= a.y;
  }

  /** The extremes of all buckets, after the first point. */
  method BucketExtremes(input: seq<Point>, maxPoints: int) returns (kept: seq<int>)
    requires |input| > maxPoints >= 4
    ensures forall i :: i in kept <==> i == 0 || exists b: nat :: Extreme(input, maxPoints, b, i)
    ensures |kept| <= maxPoints - 1
  {
    var n, k := |input|, BucketCount(maxPoints);
    kept := [0];
    for b := 0 to k
      invariant forall i :: i in kept <==> i == 0 || exists c: nat :: c < b && Extreme(input, maxPoints, c, i)
      invariant |kept| <= 1 + 2 * b
    {
      BucketsFollowOn(n, maxPoints, b);
      var lo, hi := Bound(n, k, b), Bound(n, k, b + 1);
      var minIdx, maxIdx := Extremes(input, lo, hi);
      forall i ensures Extreme(input, maxPoints, b, i) <==> i == minIdx || i == maxIdx {
        if FirstMin(input, lo, hi, i) { FirstMinIsUnique(input, lo, hi, i, minIdx); }
        if FirstMax(input, lo, hi, i) { FirstMaxIsUnique(input, lo, hi, i, maxIdx); }
      }
      ghost var before := kept;
      if minIdx == maxIdx {
        kept := kept + [minIdx];
      } else if minIdx < maxIdx {
        kept := kept + [minIdx, maxIdx];
      } else {
        kept := kept + [maxIdx, minIdx];
      }
      assert forall i :: i in kept <==> i in before || i == minIdx || i == maxIdx;
      forall i ensures i in kept <==> i == 0 || exists c: nat :: c < b + 1 && Extreme(input, maxPoints, c, i) {
        if Extreme(input, maxPoints, b, i) { assert i in kept; }
      }
    }
  }

  /** minMax. kept holds the indices behind the points returned. */
  method MinMax(input: seq<Point>, maxPoints: int, isAlarm: seq<bool>) returns (out: seq<Point>, kept: seq<int>)
    ensures Thinned(input, maxPoints, isAlarm, kept, out)
    ensures maxPoints >= 4 ==> |out| <= maxPoints + AlarmCount(isAlarm, Min(|isAlarm|, |input|))
  {
    var n := |input|;
    if n == 0 { return [], []; }
    if Whole(n, maxPoints) {
      kept := seq(n, i => i);
      forall i ensures i in kept <==> Keep(input, maxPoints, isAlarm, i) {
        if 0 <= i < n { assert kept[i] == i; }
      }
      return input, kept;
    }
    if maxPoints < 4 {
      kept := [0, n - 1];
    } else {
      kept := BucketExtremes(input, maxPoints);
      BucketsPartition(n, maxPoints);
      kept := kept + [n - 1];
    }
    kept := AppendAlarms(kept, isAlarm, n);
    kept := SortUnique(kept);
    out := Pick(input, kept);
  }

  // ---- What the picture still shows ----------------------------------------------------------

  lemma {:induction false} SomeFirstMin(input: seq<Point>, lo: int, hi: int) returns (low: int, high: int)
    requires 0 <= lo < hi <= |input|
    ensures FirstMin(input, lo, hi, low) && FirstMax(input, lo, hi, high)
    decreases hi
  {
    low, high := lo, lo;
    if hi - 1 > lo {
      low, high := SomeFirstMin(input, lo, hi - 1);
      if input[hi - 1].y < input[low].y { low := hi - 1; }
      if input[hi - 1].y > input[high].y { high := hi - 1; }
    }
  }

  /**
   The envelope is kept: every point lies between two kept points' values, and for an inner
   point of a thinned trend those two come from its own bucket. First, last and alarm points
   are kept themselves.
   */
  lemma EnvelopeIsKept(input: seq<Point>, maxPoints: int, isAlarm: seq<bool>, i: int)
    requires maxPoints >= 4 && 0 <= i < |input|
    ensures exists low, high ::
              && Keep(input, maxPoints, isAlarm, low) && Keep(input, maxPoints, isAlarm, high)
              && input[low].y <= input[i].y <= input[high].y
              && (!Keep(input, maxPoints, isAlarm, i) ==>
                    exists b: nat :: InBucket(|input|, BucketCount(maxPoints), b, i) &&
                                     InBucket(|input|, BucketCount(maxPoints), b, low)
                                     && InBucket(|input|, BucketCount(maxPoints), b, high))
    ensures i == 0 || i == |input| - 1 || Alarmed(isAlarm, i) ==> Keep(input, maxPoints, isAlarm, i)
  {
    if !Keep(input, maxPoints, isAlarm, i) {
      var n, k := |input|, BucketCount(maxPoints);
      BucketsFollowOn(n, maxPoints, 0);
      var b := BucketOf(n, maxPoints, i, k);
      BucketsFollowOn(n, maxPoints, b);
      var low, high := SomeFirstMin(input, Bound(n, k, b), Bound(n, k, b + 1));
      assert Extreme(input, maxPoints, b, low) && Extreme(input, maxPoints, b, high);
      assert Keep(input, maxPoints, isAlarm, low) && Keep(input, maxPoints, isAlarm, high);
      assert InBucket(n, k, b, i) && InBucket(n, k, b, low) && InBucket(n, k, b, high);
    }
  }

  lemma {:induction false} IncreasingIsUnique(s: seq<int>, t: seq<int>)
    requires Increasing(s) && Increasing(t) && forall i :: i in s <==> i in t
    ensures s == t
  {
    assert s != [] ==> s[0] in s;
    assert t != [] ==> t[0] in t;
    if s != [] && t != [] {
      var x, y := s[|s| - 1], t[|t| - 1];
      assert x in t && y in s;
      assert x == y;
      var s', t' := s[..|s| - 1], t[..|t| - 1];
      forall i ensures i in s' <==> i in t' {
        assert i in s' <==> i in s && i != x;
        assert i in t' <==> i in t && i != y;
      }
      IncreasingIsUnique(s', t');
      assert s == s' + [x] && t == t' + [y];
    }
  }

  /** What is kept determines the result: points, order and number. */
  lemma ThinningIsDetermined(input: seq<Point>, maxPoints: int, isAlarm: seq<bool>,
                             kept: seq<int>, out: seq<Point>, kept': seq<int>, out': seq<Point>)
    requires Thinned(input, maxPoints, isAlarm, kept, out) && Thinned(input, maxPoints, isAlarm, kept', out')
    ensures kept == kept' && out == out'
  {
    IncreasingIsUnique(kept, kept');
  }
}
