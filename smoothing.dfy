/** The smoothing filter of the meter: a reading is floored to hundredths,
    pushed into a bounded window, and the window is reduced to an integer
    average by `getAverage`.

    Every reading is kept as a whole number of hundredths `h`, which stands for
    the JavaScript number `h / 100`. */
module Smoothing {

  /** Capacity of the sample window (`var max = 12`). */
  const Max: nat := 12

  /** `Math.floor(payload.val * 100)`, the reading in whole hundredths. */
  function Sample(val: real): (h: int)
    ensures h as real <= val * 100.0 < h as real + 1.0
  {
    (val * 100.0).Floor
  }

  /** `parseInt(h / 100)`: the integer part of the reading, truncated toward
      zero (so -0.5 gives 0, not -1, unlike Dafny's own division). */
  function TruncUnits(h: int): (u: int)
    ensures 0 <= h ==> 0 <= 100 * u <= h < 100 * u + 100
    ensures h < 0 ==> 100 * u - 100 < h <= 100 * u <= 0
  {
    if h >= 0 then h / 100 else -((-h) / 100)
  }

  /** `Math.round(s / n)`: the integer nearest to s/n, halves rounded up. */
  function RoundHalfUp(s: int, n: int): (r: int)
    requires n > 0
    ensures n * (2 * r - 1) <= 2 * s < n * (2 * r + 1)
  {
    var r := (2 * s + n) / (2 * n);
    DivisionBounds(2 * s + n, 2 * n);
    r
  }

  lemma DivisionBounds(a: int, b: int)
    requires b > 0
    ensures b * (a / b) <= a < b * (a / b) + b
  {
  }

  /** The rounding is unique: only one integer lies within half of s/n. */
  lemma RoundHalfUpUnique(s: int, n: int, r: int)
    requires n > 0
    requires n * (2 * r - 1) <= 2 * s < n * (2 * r + 1)
    ensures RoundHalfUp(s, n) == r
  {
    var q := RoundHalfUp(s, n);
    MulCancel(n, 2 * q - 1, 2 * r + 1);
    MulCancel(n, 2 * r - 1, 2 * q + 1);
  }

  lemma MulSucc(n: int, a: int)
    ensures (n + 1) * a == n * a + a
  {
  }

  lemma MulCancel(n: int, a: int, b: int)
    requires n > 0 && n * a < n * b
    ensures a < b
  {
  }

  /** `numbers.filter(Boolean)`: the window with its zero entries removed. */
  function NonZero(w: seq<int>): (r: seq<int>)
    ensures |r| <= |w|
  {
    if w == [] then []
    else (if w[0] != 0 then [w[0]] else []) + NonZero(w[1..])
  }

  /** The filter keeps exactly the non-zero entries. */
  lemma {:induction false} NonZeroMembers(w: seq<int>)
    ensures forall x :: x in NonZero(w) <==> x in w && x != 0
    decreases |w|
  {
    if w != [] {
      NonZeroMembers(w[1..]);
      assert w == [w[0]] + w[1..];
    }
  }

  /** The filter keeps every non-zero entry as often as it occurs, so the
      divisor of the mean is the number of non-zero entries. */
  lemma {:induction false} NonZeroCounts(w: seq<int>)
    ensures forall x :: multiset(NonZero(w))[x] == if x == 0 then 0 else multiset(w)[x]
    decreases |w|
  {
    if w != [] {
      var rest := w[1..];
      NonZeroCounts(rest);
      var head := if w[0] != 0 then [w[0]] else [];
      assert NonZero(w) == head + NonZero(rest);
      assert multiset(NonZero(w)) == multiset(head) + multiset(NonZero(rest));
      assert w == [w[0]] + rest;
      assert multiset(w) == multiset([w[0]]) + multiset(rest);
    }
  }

  /** A window of zeros filters to nothing. */
  lemma {:induction false} NonZeroOfZeros(w: seq<int>)
    requires forall i :: 0 <= i < |w| ==> w[i] == 0
    ensures NonZero(w) == []
    decreases |w|
  {
    if w != [] {
      var rest := w[1..];
      assert forall i :: 0 <= i < |rest| ==> rest[i] == w[i + 1];
      NonZeroOfZeros(rest);
      assert NonZero(w) == NonZero(rest);
    }
  }

  /** A window without zero entries passes the filter unchanged. */
  lemma {:induction false} NonZeroKeepsNonZero(w: seq<int>)
    requires forall i :: 0 <= i < |w| ==> w[i] != 0
    ensures NonZero(w) == w
    decreases |w|
  {
    if w != [] {
      var rest := w[1..];
      assert forall i :: 0 <= i < |rest| ==> rest[i] == w[i + 1];
      NonZeroKeepsNonZero(rest);
      assert NonZero(w) == [w[0]] + NonZero(rest);
      assert [w[0]] + rest == w;
    }
  }

  /** The sum of the `parseInt`-truncated entries. */
  function TruncSum(s: seq<int>): int {
    if s == [] then 0 else TruncSum(s[..|s| - 1]) + TruncUnits(s[|s| - 1])
  }

  /** `getAverage(numbers)`: 0 when the truncated entries sum to 0, otherwise
      the rounded mean of the truncated non-zero entries. */
  function Average(w: seq<int>): int {
    var nz := NonZero(w);
    var s := TruncSum(nz);
    if s == 0 then 0 else RoundHalfUp(s, |nz|)
  }

  /** The loop of `getAverage`: an accumulator decremented by each truncated
      non-zero entry, negated at the end. */
  method GetAverage(numbers: seq<int>) returns (avg: int)
    ensures avg == Average(numbers)
  {
    var total := 0;
    var nonZero := NonZero(numbers);
    var i := 0;
    while i < |nonZero|
      invariant 0 <= i <= |nonZero|
      invariant total == -TruncSum(nonZero[..i])
    {
      assert nonZero[..i + 1][..i] == nonZero[..i];
      total := total - TruncUnits(nonZero[i]);
      i := i + 1;
    }
    assert nonZero[..i] == nonZero;
    avg := if total == 0 then 0 else RoundHalfUp(-1 * total, |nonZero|);
  }

  /** With no non-zero entry (an empty or all-zero window) the average is 0. */
  lemma AverageOfNothing(w: seq<int>)
    requires forall i :: 0 <= i < |w| ==> w[i] == 0
    ensures Average(w) == 0
  {
    NonZeroOfZeros(w);
  }

  /** Whenever there is a non-zero entry, the average is `Math.round` of the
      mean of the truncated entries: the `total === 0` guard only matters for
      windows without non-zero entries. */
  lemma AverageIsRoundedMean(w: seq<int>)
    requires NonZero(w) != []
    ensures var n, s := |NonZero(w)|, TruncSum(NonZero(w));
      n * (2 * Average(w) - 1) <= 2 * s < n * (2 * Average(w) + 1)
  {
    var n, s := |NonZero(w)|, TruncSum(NonZero(w));
    if s == 0 {
      RoundHalfUpUnique(0, n, 0);
    }
  }

  lemma {:induction false} TruncSumBounds(s: seq<int>, lo: int, hi: int)
    requires forall i :: 0 <= i < |s| ==> lo <= TruncUnits(s[i]) <= hi
    ensures |s| * lo <= TruncSum(s) <= |s| * hi
    decreases |s|
  {
    if s != [] {
      var p := s[..|s| - 1];
      assert forall i :: 0 <= i < |p| ==> p[i] == s[i];
      TruncSumBounds(p, lo, hi);
      var n := |p|;
      assert |s| == n + 1;
      MulSucc(n, lo);
      MulSucc(n, hi);
    }
  }

  /** A rounded mean is no smaller than a lower bound of the mean. */
  lemma RoundedMeanAbove(s: int, n: int, r: int, lo: int)
    requires n > 0 && n * lo <= s
    requires 2 * s < n * (2 * r + 1)
    ensures lo <= r
  {
    assert n * (2 * lo) == 2 * (n * lo);
    MulCancel(n, 2 * lo, 2 * r + 1);
  }

  /** A rounded mean is no larger than an upper bound of the mean. */
  lemma RoundedMeanBelow(s: int, n: int, r: int, hi: int)
    requires n > 0 && s <= n * hi
    requires n * (2 * r - 1) <= 2 * s
    ensures r <= hi
  {
    assert n * (2 * hi + 1) == 2 * (n * hi) + n;
    MulCancel(n, 2 * r - 1, 2 * hi + 1);
  }

  /** The average lies between the smallest and the largest truncated
      non-zero entry. */
  lemma AverageWithinRange(w: seq<int>, lo: int, hi: int)
    requires NonZero(w) != []
    requires forall i :: 0 <= i < |NonZero(w)| ==> lo <= TruncUnits(NonZero(w)[i]) <= hi
    ensures lo <= Average(w) <= hi
  {
    var nz := NonZero(w);
    TruncSumBounds(nz, lo, hi);
    AverageIsRoundedMean(w);
    RoundedMeanAbove(TruncSum(nz), |nz|, Average(w), lo);
    RoundedMeanBelow(TruncSum(nz), |nz|, Average(w), hi);
  }

  lemma {:induction false} TruncSumNonNegative(s: seq<int>)
    requires forall i :: 0 <= i < |s| ==> s[i] >= 0
    ensures TruncSum(s) >= 0
    decreases |s|
  {
    if s != [] {
      var p := s[..|s| - 1];
      assert forall i :: 0 <= i < |p| ==> p[i] == s[i];
      TruncSumNonNegative(p);
    }
  }

  /** The average is 0 exactly when there is no non-zero entry or the
      truncated mean rounds to 0, that is, lies in [-1/2, 1/2). For readings
      that are never negative the lower bound always holds, so a window such
      as [1, 0.5, 0.5] averages to 0 although its truncated sum is 1. */
  lemma AverageZeroWhenSmall(w: seq<int>)
    ensures Average(w) == 0 <==>
      NonZero(w) == [] || -|NonZero(w)| <= 2 * TruncSum(NonZero(w)) < |NonZero(w)|
  {
    var nz := NonZero(w);
    if nz != [] {
      var n, s := |nz|, TruncSum(nz);
      if -n <= 2 * s < n {
        if s != 0 {
          RoundHalfUpUnique(s, n, 0);
        }
      } else {
        AverageIsRoundedMean(w);
      }
    }
  }

  /** A steady load: three readings of 10 average to 10. */
  lemma SteadyExample()
    ensures Average([1000, 1000, 1000]) == 10
  {
    NonZeroKeepsNonZero([1000, 1000, 1000]);
    assert [1000, 1000, 1000][..2] == [1000, 1000];
    assert [1000, 1000][..1] == [1000];
    assert TruncSum([1000, 1000, 1000]) == 30;
  }

  /** Zero entries are skipped: 0, 10 and 20 average to 15, not to 10. */
  lemma AverageExamples()
    ensures Average([0, 1000, 2000]) == 15
  {
    assert [0, 1000, 2000][1..] == [1000, 2000];
    assert NonZero([0, 1000, 2000]) == NonZero([1000, 2000]);
    NonZeroKeepsNonZero([1000, 2000]);
    assert [1000, 2000][..1] == [1000];
    assert TruncSum([1000, 2000]) == 30;
  }

  /** Worked examples of the truncation: a lone 0.5 truncates to 0, and
      1, 0.5, 0.5 truncate to 1, 0, 0, whose mean 1/3 rounds to 0; an empty
      window averages to 0 as well. */
  lemma TruncationExamples()
    ensures Average([50]) == 0
    ensures Average([100, 50, 50]) == 0
    ensures Average([]) == 0
  {
    assert Average([50]) == 0 by {
      NonZeroKeepsNonZero([50]);
    }
    NonZeroKeepsNonZero([100, 50, 50]);
    assert [100, 50, 50][..2] == [100, 50];
    assert [100, 50][..1] == [100];
  }

  /** The window after a reading: the reading is appended and, beyond
      capacity, the oldest entry dropped. */
  function Slide(w: seq<int>, h: int): seq<int> {
    var pushed := w + [h];
    if |pushed| > Max then pushed[1..] else pushed
  }

  /** A window within capacity stays within capacity; the new reading is last;
      at most the oldest entry is dropped and the others keep their order. */
  lemma SlideShape(w: seq<int>, h: int)
    requires |w| <= Max
    ensures var r := Slide(w, h);
      && |r| <= Max
      && r[|r| - 1] == h
      && (if |w| < Max then r == w + [h] else r == w[1..] + [h])
  {
  }

  /** The last `Max` elements of a sequence (all of it when shorter). */
  function Latest(s: seq<int>): (r: seq<int>)
    ensures |r| <= Max && |r| <= |s|
    ensures forall i :: 0 <= i < |r| ==> r[i] == s[|s| - |r| + i]
  {
    if |s| <= Max then s else s[|s| - Max..]
  }

  /** One slide of a window within capacity keeps the latest readings. */
  lemma SlideIsLatest(w: seq<int>, h: int)
    requires |w| <= Max
    ensures Slide(w, h) == Latest(w + [h])
  {
  }

  /** Feeding readings one at a time into the window. */
  function SlideAll(w: seq<int>, hs: seq<int>): seq<int>
    decreases |hs|
  {
    if hs == [] then w else SlideAll(Slide(w, hs[0]), hs[1..])
  }

  /** Keeping the latest readings before appending more changes nothing about
      the latest readings afterwards. */
  lemma LatestOfLatest(a: seq<int>, b: seq<int>)
    ensures Latest(Latest(a) + b) == Latest(a + b)
  {
    var la := Latest(a);
    var x, y := Latest(la + b), Latest(a + b);
    assert |x| == |y|;
    forall i | 0 <= i < |x| ensures x[i] == y[i] {
      var k := |la| + |b| - |x| + i;
      var k' := |a| + |b| - |y| + i;
      assert x[i] == (la + b)[k] && y[i] == (a + b)[k'];
      if k < |la| {
        assert k' == |a| - |la| + k;
        assert (la + b)[k] == la[k] == a[|a| - |la| + k];
      } else {
        assert (la + b)[k] == b[k - |la|] == (a + b)[k'];
      }
    }
  }

  /** FIFO: starting from a window within capacity, the window always holds
      exactly the most recent `Max` readings, in arrival order. */
  lemma {:induction false} WindowIsLatest(w: seq<int>, hs: seq<int>)
    requires |w| <= Max
    ensures SlideAll(w, hs) == Latest(w + hs)
    decreases |hs|
  {
    if hs == [] {
      assert w + hs == w;
    } else {
      var pushed := w + [hs[0]];
      var w' := Slide(w, hs[0]);
      calc {
        SlideAll(w, hs);
        SlideAll(w', hs[1..]);
        { SlideShape(w, hs[0]); WindowIsLatest(w', hs[1..]); }
        Latest(w' + hs[1..]);
        { SlideIsLatest(w, hs[0]); }
        Latest(Latest(pushed) + hs[1..]);
        { LatestOfLatest(pushed, hs[1..]); }
        Latest(pushed + hs[1..]);
        { assert pushed + hs[1..] == w + hs; }
        Latest(w + hs);
      }
    }
  }
}
