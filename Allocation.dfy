/**
 * Splitting an integer number of tokens into `size` integer shares
 * (get_distribution_by_sum in utilities/py_tools.py).
 *
 * The source draws a flat Dirichlet proportion vector, scales it by the total
 * and rounds it; that draw is modelled as an arbitrary integer vector
 * `rounded`. It then draws |sum - Sum(rounded)| random positions; those are
 * modelled as an arbitrary sequence `indexes` of positions below `size`.
 * What is modelled exactly is the correction loop that nudges the rounded
 * vector one unit at a time.
 */
module Allocation {
  import opened Common

  function Abs(x: int): (r: nat)
    ensures r == x || r == -x
  {
    if x < 0 then -x else x
  }

  /** What the random part of the source can hand to the correction loop. */
  predicate DrawFits(sum: int, size: nat, rounded: seq<int>, indexes: seq<int>)
  {
    && |rounded| == size
    && |indexes| == Abs(sum - Sum(rounded))
    && forall k :: 0 <= k < |indexes| ==> 0 <= indexes[k] < size
  }

  /** Adds `step` to the entry at each position of `indexes`, in order. */
  function Nudged(v: seq<int>, indexes: seq<int>, step: int): (r: seq<int>)
    requires forall k :: 0 <= k < |indexes| ==> 0 <= indexes[k] < |v|
    ensures |r| == |v|
  {
    if |indexes| == 0 then v
    else
      var w := Nudged(v, indexes[..|indexes| - 1], step);
      var i := indexes[|indexes| - 1];
      w[i := w[i] + step]
  }

  /** Changing one entry by x changes the sum by x. */
  lemma {:induction false} SumUpdate(v: seq<int>, i: int, x: int)
    requires 0 <= i < |v|
    ensures Sum(v[i := v[i] + x]) == Sum(v) + x
  {
    var w := v[i := v[i] + x];
    var inc := seq(|v|, j => if j == i then x else 0);
    assert forall j :: 0 <= j < |v| ==> w[j] == v[j] + inc[j];
    SumPointwise(v, inc, w);
    SumOneNonzero(inc, i, x);
  }

  /** n + 1 steps of `step` are n steps and one more. */
  lemma StepTimes(step: int, n: nat)
    ensures step * (n + 1) == step * n + step
  {
  }

  /** Every nudge moves the total by `step`. */
  lemma {:induction false} NudgedSum(v: seq<int>, indexes: seq<int>, step: int)
    requires forall k :: 0 <= k < |indexes| ==> 0 <= indexes[k] < |v|
    ensures Sum(Nudged(v, indexes, step)) == Sum(v) + step * |indexes|
    decreases |indexes|
  {
    if |indexes| > 0 {
      var n := |indexes| - 1;
      var w := Nudged(v, indexes[..n], step);
      NudgedSum(v, indexes[..n], step);
      assert Sum(w) == Sum(v) + step * n;
      SumUpdate(w, indexes[n], step);
      assert Nudged(v, indexes, step) == w[indexes[n] := w[indexes[n]] + step];
      StepTimes(step, n);
    }
  }

  /** Upward nudges never lower an entry. */
  lemma {:induction false} NudgedUpGrows(v: seq<int>, indexes: seq<int>, step: int)
    requires step >= 0
    requires forall k :: 0 <= k < |indexes| ==> 0 <= indexes[k] < |v|
    ensures forall i :: 0 <= i < |v| ==> Nudged(v, indexes, step)[i] >= v[i]
    decreases |indexes|
  {
    if |indexes| > 0 {
      NudgedUpGrows(v, indexes[..|indexes| - 1], step);
    }
  }

  /**
   * The split as the source computes it: the loop adds 1 while the total is
   * below `sum`, and its `elif` repeats the same `<` test, so an overshoot
   * is never taken back.
   */
  function AsWrittenSplit(sum: int, rounded: seq<int>, indexes: seq<int>): seq<int>
    requires DrawFits(sum, |rounded|, rounded, indexes)
  {
    if Sum(rounded) <= sum then Nudged(rounded, indexes, 1) else rounded
  }

  /** The split with the evident intent: subtract 1 while the total is above `sum`. */
  function CorrectedSplit(sum: int, rounded: seq<int>, indexes: seq<int>): seq<int>
    requires DrawFits(sum, |rounded|, rounded, indexes)
  {
    if Sum(rounded) <= sum then Nudged(rounded, indexes, 1) else Nudged(rounded, indexes, -1)
  }

  /**
   * get_distribution_by_sum as written. The vector is updated in place, one
   * random position per iteration, after re-reading its total.
   */
  method GetDistributionBySum(sum: int, size: nat, rounded: seq<int>, indexes: seq<int>)
    returns (distr: seq<int>)
    requires DrawFits(sum, size, rounded, indexes)
    ensures |distr| == size
    ensures distr == AsWrittenSplit(sum, rounded, indexes)
  {
    var a := new int[size](i requires 0 <= i < size => rounded[i]);
    var under := Sum(rounded) <= sum;
    for k := 0 to |indexes|
      invariant under ==> a[..] == Nudged(rounded, indexes[..k], 1)
      invariant under ==> Sum(a[..]) == Sum(rounded) + k
      invariant !under ==> a[..] == rounded
    {
      var index := indexes[k];
      var total := Sum(a[..]);
      if total < sum {
        ghost var before := Nudged(rounded, indexes[..k], 1);
        assert indexes[..k + 1][..k] == indexes[..k];
        assert Nudged(rounded, indexes[..k + 1], 1) == before[index := before[index] + 1];
        a[index] := a[index] + 1;
        SumUpdate(before, index, 1);
      } else if total < sum {
        // The source decrements distr[index] here; the branch repeats the
        // test that just failed, so it is never taken.
        assert false;
      }
    }
    assert indexes[..|indexes|] == indexes;
    distr := a[..];
  }

  /** get_distribution_by_sum with the `elif` testing for an overshoot. */
  method GetDistributionBySumCorrected(sum: int, size: nat, rounded: seq<int>, indexes: seq<int>)
    returns (distr: seq<int>)
    requires DrawFits(sum, size, rounded, indexes)
    ensures |distr| == size
    ensures distr == CorrectedSplit(sum, rounded, indexes)
  {
    var a := new int[size](i requires 0 <= i < size => rounded[i]);
    var under := Sum(rounded) <= sum;
    var step := if under then 1 else -1;
    for k := 0 to |indexes|
      invariant a[..] == Nudged(rounded, indexes[..k], step)
      invariant Sum(a[..]) == if under then Sum(rounded) + k else Sum(rounded) - k
    {
      var index := indexes[k];
      var total := Sum(a[..]);
      ghost var before := Nudged(rounded, indexes[..k], step);
      assert indexes[..k + 1][..k] == indexes[..k];
      assert Nudged(rounded, indexes[..k + 1], step) == before[index := before[index] + step];
      if under {
        assert total < sum;
      } else {
        assert total > sum;
      }
      if total < sum {
        a[index] := a[index] + 1;
      } else if total > sum {
        a[index] := a[index] - 1;
      }
      SumUpdate(before, index, step);
    }
    assert indexes[..|indexes|] == indexes;
    distr := a[..];
  }

  /**
   * When the rounded draw does not exceed the total, the source's split has
   * exactly `sum` in it and no share is lower than its rounded value, so
   * non-negative draws give non-negative shares.
   */
  lemma AsWrittenExactWhenUnder(sum: int, rounded: seq<int>, indexes: seq<int>)
    requires DrawFits(sum, |rounded|, rounded, indexes)
    requires Sum(rounded) <= sum
    ensures |AsWrittenSplit(sum, rounded, indexes)| == |rounded|
    ensures Sum(AsWrittenSplit(sum, rounded, indexes)) == sum
    ensures forall i :: 0 <= i < |rounded| ==> AsWrittenSplit(sum, rounded, indexes)[i] >= rounded[i]
  {
    NudgedSum(rounded, indexes, 1);
    NudgedUpGrows(rounded, indexes, 1);
  }

  /** When the rounded draw exceeds the total, the source returns it unchanged, above the total. */
  lemma AsWrittenOvershoot(sum: int, rounded: seq<int>, indexes: seq<int>)
    requires DrawFits(sum, |rounded|, rounded, indexes)
    requires Sum(rounded) > sum
    ensures AsWrittenSplit(sum, rounded, indexes) == rounded
    ensures Sum(AsWrittenSplit(sum, rounded, indexes)) > sum
  {
  }

  /**
   * Two tokens over three shares drawn in proportions (0.3, 0.3, 0.4) round
   * to [1, 1, 1]; the one drawn position changes nothing and the split
   * totals 3.
   */
  lemma OvershootExample()
    ensures DrawFits(2, 3, [1, 1, 1], [0])
    ensures AsWrittenSplit(2, [1, 1, 1], [0]) == [1, 1, 1]
    ensures Sum(AsWrittenSplit(2, [1, 1, 1], [0])) == 3
  {
    assert [1, 1, 1][..2] == [1, 1] && [1, 1][..1] == [1] && [1][..0] == [];
    assert Sum([1, 1, 1]) == 3;
  }

  /** The corrected split always has exactly `sum` in it and `size` shares. */
  lemma CorrectedExact(sum: int, rounded: seq<int>, indexes: seq<int>)
    requires DrawFits(sum, |rounded|, rounded, indexes)
    ensures |CorrectedSplit(sum, rounded, indexes)| == |rounded|
    ensures Sum(CorrectedSplit(sum, rounded, indexes)) == sum
  {
    if Sum(rounded) <= sum {
      NudgedSum(rounded, indexes, 1);
    } else {
      NudgedSum(rounded, indexes, -1);
    }
  }

  /**
   * The corrected split can give a share below zero: two tokens over four
   * shares drawn in proportions (0.3, 0.3, 0.399, 0.001) round to
   * [1, 1, 1, 0], and a decrement drawn at position 3 leaves -1 there.
   */
  lemma CorrectedNegativeExample()
    ensures DrawFits(2, 4, [1, 1, 1, 0], [3])
    ensures CorrectedSplit(2, [1, 1, 1, 0], [3]) == [1, 1, 1, -1]
    ensures CorrectedSplit(2, [1, 1, 1, 0], [3])[3] < 0
  {
    assert [1, 1, 1, 0][..3] == [1, 1, 1] && [1, 1, 1][..2] == [1, 1] && [1, 1][..1] == [1] && [1][..0] == [];
    assert Sum([1, 1, 1, 0]) == 3;
  }
}
