/** Small value types shared by the ledger modules. */
module Common {

  /** A value that may be absent, as a Python function that may return None. */
  datatype Option<+T> = None | Some(value: T)

  /** Sum of a sequence of integers, left to right. */
  function Sum(s: seq<int>): int
  {
    if |s| == 0 then 0 else Sum(s[..|s| - 1]) + s[|s| - 1]
  }

  /** Adding a sequence of increments position by position adds their sum. */
  lemma {:induction false} SumPointwise(s: seq<int>, inc: seq<int>, r: seq<int>)
    requires |s| == |inc| == |r|
    requires forall i :: 0 <= i < |r| ==> r[i] == s[i] + inc[i]
    ensures Sum(r) == Sum(s) + Sum(inc)
    decreases |r|
  {
    if |r| > 0 {
      var n := |r| - 1;
      SumPointwise(s[..n], inc[..n], r[..n]);
    }
  }

  /** A sequence of zeros sums to zero. */
  lemma {:induction false} ZeroSum(s: seq<int>)
    requires forall j :: 0 <= j < |s| ==> s[j] == 0
    ensures Sum(s) == 0
    decreases |s|
  {
    if |s| > 0 {
      ZeroSum(s[..|s| - 1]);
    }
  }

  /** Two sequences that agree position by position have the same sum. */
  lemma SumSame(s: seq<int>, r: seq<int>)
    requires |s| == |r|
    requires forall i :: 0 <= i < |r| ==> r[i] == s[i]
    ensures Sum(r) == Sum(s)
  {
    assert s == r;
  }

  /** A sequence that is zero except for x at position i sums to x. */
  lemma {:induction false} SumOneNonzero(s: seq<int>, i: int, x: int)
    requires 0 <= i < |s|
    requires forall j :: 0 <= j < |s| ==> s[j] == (if j == i then x else 0)
    ensures Sum(s) == x
    decreases |s|
  {
    var n := |s| - 1;
    if n == i {
      ZeroSum(s[..n]);
    } else {
      SumOneNonzero(s[..n], i, x);
    }
  }
}
