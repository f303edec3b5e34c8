/** The delta engine: daily increments from a cumulative series.
    `Diff` is pandas' `diff().fillna(0)`; `Clamped` adds `clip(lower=0)`. */
module Deltas {

  /** Sum of a sequence, peeled from the end. */
  function Sum(s: seq<int>): int {
    if s == [] then 0 else Sum(s[..|s| - 1]) + s[|s| - 1]
  }

  /** `diff().fillna(0)`: no predecessor for the first day, so 0 there. */
  function Diff(c: seq<int>): (d: seq<int>)
    ensures |d| == |c|
  {
    seq(|c|, i requires 0 <= i < |c| => if i == 0 then 0 else c[i] - c[i - 1])
  }

  /** `clip(lower=0)`: negative entries become 0. */
  function ClipAtZero(d: seq<int>): (e: seq<int>)
    ensures |e| == |d|
  {
    seq(|d|, i requires 0 <= i < |d| => if d[i] < 0 then 0 else d[i])
  }

  /** `diff().fillna(0).clip(lower=0)`: each day's increase, downward
      revisions counted as no change. */
  function Clamped(c: seq<int>): (d: seq<int>)
    ensures |d| == |c|
    ensures |c| > 0 ==> d[0] == 0
    ensures forall i :: 0 <= i < |c| ==> d[i] >= 0
    ensures forall i :: 0 < i < |c| ==> d[i] >= c[i] - c[i - 1]
    ensures forall i :: 0 < i < |c| ==> d[i] == 0 || d[i] == c[i] - c[i - 1]
  {
    ClipAtZero(Diff(c))
  }

  /** The inverse of `Diff`: start from `x0` and add up the increments after
      the first one. */
  function Accumulate(x0: int, d: seq<int>): (c: seq<int>)
    ensures |c| == |d|
  {
    seq(|d|, i requires 0 <= i < |d| => x0 + Sum(d[1..i + 1]))
  }

  predicate NonDecreasing(c: seq<int>) {
    forall i, j :: 0 <= i <= j < |c| ==> c[i] <= c[j]
  }

  // ---------------------------------------------------------------------
  // Sums

  lemma {:induction false} SumAppend(a: seq<int>, b: seq<int>)
    ensures Sum(a + b) == Sum(a) + Sum(b)
  {
    if b == [] {
      assert a + b == a;
    } else {
      assert (a + b)[..|a + b| - 1] == a + b[..|b| - 1];
      SumAppend(a, b[..|b| - 1]);
    }
  }

  lemma SumFront(s: seq<int>)
    requires s != []
    ensures Sum(s) == s[0] + Sum(s[1..])
  {
    assert s == [s[0]] + s[1..];
    SumAppend([s[0]], s[1..]);
    assert [s[0]][..0] == [];
  }

  // ---------------------------------------------------------------------
  // The unclamped series telescopes.

  /** The first `i + 1` increments add up to the growth since day 0. */
  lemma {:induction false} DiffPrefixSum(c: seq<int>, i: nat)
    requires i < |c|
    ensures Sum(Diff(c)[..i + 1]) == c[i] - c[0]
  {
    var d := Diff(c);
    if i == 0 {
      assert d[..1] == [0];
      assert [0][..0] == [];
    } else {
      DiffPrefixSum(c, i - 1);
      assert d[..i + 1][..i] == d[..i];
    }
  }

  /** Round trip: `C[0]` plus the increments of days `1..i` gives back `C[i]`. */
  lemma DiffRoundTrip(c: seq<int>, i: nat)
    requires i < |c|
    ensures c[0] + Sum(Diff(c)[1..i + 1]) == c[i]
  {
    var d := Diff(c);
    DiffPrefixSum(c, i);
    SumFront(d[..i + 1]);
    assert d[..i + 1][1..] == d[1..i + 1];
  }

  /** All increments together add up to `C[last] - C[0]`. */
  lemma DiffTotal(c: seq<int>)
    requires |c| > 0
    ensures Sum(Diff(c)) == c[|c| - 1] - c[0]
  {
    DiffPrefixSum(c, |c| - 1);
    assert Diff(c)[..|c|] == Diff(c);
  }

  /** The unclamped increments and the first value rebuild the series. */
  lemma AccumulateDiff(c: seq<int>)
    requires |c| > 0
    ensures Accumulate(c[0], Diff(c)) == c
  {
    forall i | 0 <= i < |c| ensures Accumulate(c[0], Diff(c))[i] == c[i] {
      DiffRoundTrip(c, i);
    }
  }

  /** In the other direction, differencing an accumulated series gives the
      increments back, except the first, which `Diff` always sets to 0. */
  lemma DiffAccumulate(x0: int, d: seq<int>)
    requires |d| > 0
    ensures Diff(Accumulate(x0, d)) == [0] + d[1..]
  {
    var c := Accumulate(x0, d);
    forall i | 0 < i < |d| ensures Diff(c)[i] == d[i] {
      assert d[1..i + 1][..i - 1] == d[1..i];
    }
  }

  /** Equal first values and equal increments mean equal series. */
  lemma DiffDeterminesSeries(a: seq<int>, b: seq<int>)
    requires |a| == |b| > 0 && a[0] == b[0] && Diff(a) == Diff(b)
    ensures a == b
  {
    AccumulateDiff(a);
    AccumulateDiff(b);
  }

  // ---------------------------------------------------------------------
  // The clamped series

  /** Clipping can only raise a total, and leaves it unchanged exactly when
      nothing was negative. */
  lemma {:induction false} ClipGap(d: seq<int>)
    ensures Sum(ClipAtZero(d)) >= Sum(d)
    ensures Sum(ClipAtZero(d)) == Sum(d) <==> forall i :: 0 <= i < |d| ==> d[i] >= 0
  {
    if d != [] {
      var n := |d| - 1;
      ClipGap(d[..n]);
      assert ClipAtZero(d)[..n] == ClipAtZero(d[..n]);
      if Sum(ClipAtZero(d)) == Sum(d) {
        forall i | 0 <= i < |d| ensures d[i] >= 0 {
          if i < n { assert d[..n][i] == d[i]; }
        }
      }
    }
  }

  lemma {:induction false} AdjacentNonDecreasing(c: seq<int>)
    ensures NonDecreasing(c) <==> forall i :: 0 < i < |c| ==> c[i - 1] <= c[i]
  {
    if forall i :: 0 < i < |c| ==> c[i - 1] <= c[i] {
      forall i, j | 0 <= i <= j < |c| ensures c[i] <= c[j] {
        StepsUp(c, i, j);
      }
    }
  }

  lemma {:induction false} StepsUp(c: seq<int>, i: nat, j: nat)
    requires i <= j < |c|
    requires forall k :: 0 < k < |c| ==> c[k - 1] <= c[k]
    ensures c[i] <= c[j]
    decreases j - i
  {
    if i < j {
      StepsUp(c, i, j - 1);
    }
  }

  /** The clamped total is at least the net growth `C[last] - C[0]`. */
  lemma ClampedSumLowerBound(c: seq<int>)
    requires |c| > 0
    ensures Sum(Clamped(c)) >= c[|c| - 1] - c[0]
  {
    ClipGap(Diff(c));
    DiffTotal(c);
  }

  /** The bound is met exactly when the series never decreases, that is,
      when no downward revision was absorbed. */
  lemma ClampedSumExact(c: seq<int>)
    requires |c| > 0
    ensures Sum(Clamped(c)) == c[|c| - 1] - c[0] <==> NonDecreasing(c)
  {
    ClipGap(Diff(c));
    DiffTotal(c);
    AdjacentNonDecreasing(c);
    var d := Diff(c);
    assert (forall i :: 0 <= i < |d| ==> d[i] >= 0) <==> (forall i :: 0 < i < |c| ==> c[i - 1] <= c[i]) by {
      if forall i :: 0 < i < |c| ==> c[i - 1] <= c[i] {
        forall i | 0 <= i < |d| ensures d[i] >= 0 {
          if i > 0 { assert c[i - 1] <= c[i]; }
        }
      }
      if forall i :: 0 <= i < |d| ==> d[i] >= 0 {
        forall i | 0 < i < |c| ensures c[i - 1] <= c[i] {
          assert d[i] >= 0;
        }
      }
    }
  }

  /** Clamping changes nothing exactly on series that never decrease. */
  lemma ClampedIsDiffIffNonDecreasing(c: seq<int>)
    ensures Clamped(c) == Diff(c) <==> NonDecreasing(c)
  {
    AdjacentNonDecreasing(c);
    if Clamped(c) == Diff(c) {
      forall i | 0 < i < |c| ensures c[i - 1] <= c[i] {
        assert Diff(c)[i] >= 0;
      }
    }
    if NonDecreasing(c) {
      forall i | 0 <= i < |c| ensures Clamped(c)[i] == Diff(c)[i] {
        if i > 0 { assert c[i - 1] <= c[i]; }
      }
    }
  }

  /** The revision in `[0, 0, 5, 5, 3]` is absorbed by the clamp. */
  lemma ClampedRevisionExample()
    ensures Clamped([0, 0, 5, 5, 3]) == [0, 0, 5, 0, 0]
    ensures Diff([0, 0, 5, 5, 3]) == [0, 0, 5, 0, -2]
  {
  }

  /** The clamped total is not bounded above by the last cumulative value:
      a dip and a recovery count the recovery twice. */
  lemma ClampedTotalCanExceedLast()
    ensures Sum(Clamped([0, 5, 3, 5])) == 7
  {
    assert Clamped([0, 5, 3, 5]) == [0, 5, 0, 2];
    assert [0, 5, 0, 2][..3] == [0, 5, 0];
    assert [0, 5, 0][..2] == [0, 5];
    assert [0, 5][..1] == [0];
    assert [0][..0] == [];
    assert Sum([0, 5]) == 5;
    assert Sum([0, 5, 0]) == 5;
  }
}
