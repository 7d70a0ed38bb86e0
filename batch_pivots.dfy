/**
 * Full-window pivot detection of the batch engine (src/engine/stochDivPro.ts, pivothigh
 * and pivotlow). A pivot is reported at its own index; equal neighbours do not
 * disqualify it.
 */
module BatchPivots {
  import opened Common

  /** Index i is a pivot high: its whole window [i-left, i+right] lies inside the series and no other value of it is greater. */
  predicate IsPivotHigh(src: seq<real>, left: int, right: int, i: int) {
    0 <= i < |src| && 0 <= i - left && i + right < |src|
    && forall j :: i - left <= j <= i + right && j != i ==> src[j] <= src[i]
  }

  predicate IsPivotLow(src: seq<real>, left: int, right: int, i: int) {
    0 <= i < |src| && 0 <= i - left && i + right < |src|
    && forall j :: i - left <= j <= i + right && j != i ==> src[i] <= src[j]
  }

  function PivotHighSpec(src: seq<real>, left: int, right: int): seq<Option<int>> {
    seq(|src|, i => if IsPivotHigh(src, left, right, i) then Some(i) else None)
  }

  function PivotLowSpec(src: seq<real>, left: int, right: int): seq<Option<int>> {
    seq(|src|, i => if IsPivotLow(src, left, right, i) then Some(i) else None)
  }

  method PivotHigh(src: seq<real>, left: int, right: int) returns (out: seq<Option<int>>)
    ensures out == PivotHighSpec(src, left, right)
  {
    var n := |src|;
    var res := new Option<int>[n](_ => None);
    for i := 0 to n
      invariant forall t :: 0 <= t < i ==> res[t] == PivotHighSpec(src, left, right)[t]
      invariant forall t :: i <= t < n ==> res[t] == None
    {
      var lo := i - left;
      var hi := i + right;
      if lo < 0 || hi >= n {
        continue;
      }
      var ok := true;
      var j := lo;
      while j <= hi
        invariant lo <= j && (j <= hi + 1 || j == lo)
        invariant ok
        invariant forall q :: lo <= q < j && q != i ==> src[q] <= src[i]
        modifies {}
      {
        if src[i] < src[j] && j != i {
          ok := false;
          break;
        }
        j := j + 1;
      }
      if ok {
        res[i] := Some(i);
      }
    }
    out := res[..];
  }

  method PivotLow(src: seq<real>, left: int, right: int) returns (out: seq<Option<int>>)
    ensures out == PivotLowSpec(src, left, right)
  {
    var n := |src|;
    var res := new Option<int>[n](_ => None);
    for i := 0 to n
      invariant forall t :: 0 <= t < i ==> res[t] == PivotLowSpec(src, left, right)[t]
      invariant forall t :: i <= t < n ==> res[t] == None
    {
      var lo := i - left;
      var hi := i + right;
      if lo < 0 || hi >= n {
        continue;
      }
      var ok := true;
      var j := lo;
      while j <= hi
        invariant lo <= j && (j <= hi + 1 || j == lo)
        invariant ok
        invariant forall q :: lo <= q < j && q != i ==> src[i] <= src[q]
        modifies {}
      {
        if src[i] > src[j] && j != i {
          ok := false;
          break;
        }
        j := j + 1;
      }
      if ok {
        res[i] := Some(i);
      }
    }
    out := res[..];
  }

  /** A pivot high is the maximum of its own window. */
  lemma PivotHighIsWindowMax(src: seq<real>, left: int, right: int, i: int)
    requires left >= 0 && right >= 0 && 0 <= i < |src| && PivotHighSpec(src, left, right)[i].Some?
    ensures WinMax(src, i - left, i + right + 1) == src[i]
  {
    WinMaxIs(src, i - left, i + right + 1, i);
  }

  lemma PivotLowIsWindowMin(src: seq<real>, left: int, right: int, i: int)
    requires left >= 0 && right >= 0 && 0 <= i < |src| && PivotLowSpec(src, left, right)[i].Some?
    ensures WinMin(src, i - left, i + right + 1) == src[i]
  {
    WinMinIs(src, i - left, i + right + 1, i);
  }

  /** Ties stand: on a plateau of two equal highs both bars are pivot highs. */
  lemma PivotHighTiesStand()
    ensures PivotHighSpec([1.0, 2.0, 2.0, 1.0], 1, 1) == [None, Some(1), Some(2), None]
  {
    var s := [1.0, 2.0, 2.0, 1.0];
    assert !IsPivotHigh(s, 1, 1, 0) && !IsPivotHigh(s, 1, 1, 3);
    assert IsPivotHigh(s, 1, 1, 1) && IsPivotHigh(s, 1, 1, 2);
  }
}
