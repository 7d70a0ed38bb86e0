/**
 * Module-level helpers of the forward bar-loop engine
 * (src/engine/pine_port/stoch_div_pro_nison.ts): the pivot detectors that report a
 * pivot `right` bars late, highest / lowest over a truncated window, and the
 * crossover tests. Also the bar data and settings the engine runs on.
 */
module PineHelpers {
  import opened Common

  /**
   * The series the engine reads. %K, %D and the volume average come from the charting
   * runtime and are taken as given; any of their values may be undefined.
   */
  datatype Bars = Bars(
    open: seq<real>, high: seq<real>, low: seq<real>, close: seq<real>, volume: seq<real>,
    k: seq<Num>, d: seq<Num>, avgVol: seq<Num>)

  predicate WellFormed(b: Bars) {
    var n := |b.close|;
    |b.open| == n && |b.high| == n && |b.low| == n && |b.volume| == n
    && |b.k| == n && |b.d| == n && |b.avgVol| == n
  }

  /** The inputs the bar loop consults. */
  datatype Config = Config(
    overSold: real, overBought: real,
    pivotLeft: int, pivotRight: int, priceTolerance: real, minBarsBetweenPivots: int,
    enableFullEarlySignal: bool, showDoublePatternLabels: bool, waitForCrossover: bool,
    showStrengthLabel: bool, trendLookback: int)

  /** The input declarations give each of these a minimum of 1. */
  predicate ValidConfig(c: Config) {
    c.pivotLeft >= 1 && c.pivotRight >= 1 && c.minBarsBetweenPivots >= 1
  }

  /** The defaults of the input declarations. */
  const DefaultConfig := Config(20.0, 80.0, 5, 1, 0.012, 7, true, true, true, true, 10)

  // ---------------------------------------------------------------- pivots

  /**
   * At bar i the bar p = i - right is confirmed as a pivot high: it is strictly above each
   * of its `left` predecessors and at least as high as each of its `right` successors.
   */
  predicate ConfirmedHigh(series: seq<real>, left: int, right: int, i: int)
    requires left >= 0 && right >= 0
  {
    left + right <= i < |series|
    && (forall t :: i - right - left <= t < i - right ==> series[i - right] > series[t])
    && (forall t :: i - right < t <= i ==> series[i - right] >= series[t])
  }

  predicate ConfirmedLow(series: seq<real>, left: int, right: int, i: int)
    requires left >= 0 && right >= 0
  {
    left + right <= i < |series|
    && (forall t :: i - right - left <= t < i - right ==> series[i - right] < series[t])
    && (forall t :: i - right < t <= i ==> series[i - right] <= series[t])
  }

  /** The result of pivothigh: the pivot's value at the bar that confirms it, NaN elsewhere. */
  function ConfirmedHighSpec(series: seq<real>, left: int, right: int): seq<Num>
    requires left >= 0 && right >= 0
  {
    seq(|series|, i requires 0 <= i < |series| =>
      if ConfirmedHigh(series, left, right, i) then Avail(series[i - right]) else NotYet)
  }

  function ConfirmedLowSpec(series: seq<real>, left: int, right: int): seq<Num>
    requires left >= 0 && right >= 0
  {
    seq(|series|, i requires 0 <= i < |series| =>
      if ConfirmedLow(series, left, right, i) then Avail(series[i - right]) else NotYet)
  }

  /** The two look-around loops of pivothigh for the candidate bar confirmed at bar i. */
  method IsPivotHighAt(series: seq<real>, left: int, right: int, i: int) returns (isPivot: bool)
    requires left >= 0 && right >= 0 && left + right <= i < |series|
    ensures isPivot == ConfirmedHigh(series, left, right, i)
  {
    var p := i - right;
    isPivot := true;
    var j := 1;
    while j <= left
      invariant 1 <= j <= left + 1
      invariant isPivot
      invariant forall t :: p - j < t < p ==> series[p] > series[t]
    {
      if series[p] <= series[p - j] {
        isPivot := false;
        break;
      }
      j := j + 1;
    }
    ghost var leftOk := isPivot;
    assert leftOk <==> forall t :: p - left <= t < p ==> series[p] > series[t];
    j := 1;
    while j <= right
      invariant 1 <= j <= right + 1
      invariant isPivot == leftOk
      invariant forall t :: p < t < p + j ==> series[p] >= series[t]
    {
      if series[p] < series[p + j] {
        isPivot := false;
        break;
      }
      j := j + 1;
    }
  }

  method PivotHigh(series: seq<real>, left: int, right: int) returns (out: seq<Num>)
    requires left >= 0 && right >= 0
    ensures out == ConfirmedHighSpec(series, left, right)
  {
    var n := |series|;
    var res := new Num[n](_ => NotYet);
    var i := left + right;
    while i < n
      invariant left + right <= i
      invariant forall t :: 0 <= t < n && t < i ==> res[t] == ConfirmedHighSpec(series, left, right)[t]
      invariant forall t :: i <= t < n ==> res[t] == NotYet
    {
      var isPivot := IsPivotHighAt(series, left, right, i);
      if isPivot {
        res[i] := Avail(series[i - right]);
      }
      i := i + 1;
    }
    out := res[..];
  }

  /** The two look-around loops of pivotlow for the candidate bar confirmed at bar i. */
  method IsPivotLowAt(series: seq<real>, left: int, right: int, i: int) returns (isPivot: bool)
    requires left >= 0 && right >= 0 && left + right <= i < |series|
    ensures isPivot == ConfirmedLow(series, left, right, i)
  {
    var p := i - right;
    isPivot := true;
    var j := 1;
    while j <= left
      invariant 1 <= j <= left + 1
      invariant isPivot
      invariant forall t :: p - j < t < p ==> series[p] < series[t]
    {
      if series[p] >= series[p - j] {
        isPivot := false;
        break;
      }
      j := j + 1;
    }
    ghost var leftOk := isPivot;
    assert leftOk <==> forall t :: p - left <= t < p ==> series[p] < series[t];
    j := 1;
    while j <= right
      invariant 1 <= j <= right + 1
      invariant isPivot == leftOk
      invariant forall t :: p < t < p + j ==> series[p] <= series[t]
    {
      if series[p] > series[p + j] {
        isPivot := false;
        break;
      }
      j := j + 1;
    }
  }

  method PivotLow(series: seq<real>, left: int, right: int) returns (out: seq<Num>)
    requires left >= 0 && right >= 0
    ensures out == ConfirmedLowSpec(series, left, right)
  {
    var n := |series|;
    var res := new Num[n](_ => NotYet);
    var i := left + right;
    while i < n
      invariant left + right <= i
      invariant forall t :: 0 <= t < n && t < i ==> res[t] == ConfirmedLowSpec(series, left, right)[t]
      invariant forall t :: i <= t < n ==> res[t] == NotYet
    {
      var isPivot := IsPivotLowAt(series, left, right, i);
      if isPivot {
        res[i] := Avail(series[i - right]);
      }
      i := i + 1;
    }
    out := res[..];
  }

  /**
   * A pivot high confirmed at bar i is the highest value of [p - left, p + right], p = i - right.
   * Equal predecessors disqualify it, equal successors do not.
   */
  lemma ConfirmedHighIsWindowMax(series: seq<real>, left: int, right: int, i: int)
    requires left >= 0 && right >= 0 && ConfirmedHigh(series, left, right, i)
    ensures WinMax(series, i - right - left, i + 1) == series[i - right]
  {
    var p := i - right;
    WinMaxIs(series, p - left, i + 1, p);
  }

  lemma ConfirmedLowIsWindowMin(series: seq<real>, left: int, right: int, i: int)
    requires left >= 0 && right >= 0 && ConfirmedLow(series, left, right, i)
    ensures WinMin(series, i - right - left, i + 1) == series[i - right]
  {
    var p := i - right;
    WinMinIs(series, p - left, i + 1, p);
  }

  /**
   * An equal predecessor disqualifies a pivot high and an equal successor does not: on a
   * plateau of two equal highs only the earlier bar is a pivot. The batch engine reports both.
   */
  lemma ConfirmedHighTieExample()
    ensures ConfirmedHigh([1.0, 2.0, 2.0, 1.0], 1, 1, 2)
    ensures !ConfirmedHigh([1.0, 2.0, 2.0, 1.0], 1, 1, 3)
  {
    var s := [1.0, 2.0, 2.0, 1.0];
    assert s[1] == s[2];
  }

  // ---------------------------------------------------------------- highest / lowest

  /**
   * highest(series, len, i): the largest value of the window [max(0, i-len+1), i]. For
   * len < 1 the window is empty and the source returns -Infinity, written None here.
   */
  method Highest(series: seq<real>, len: int, i: int) returns (h: Option<real>)
    requires 0 <= i < |series|
    ensures h.Some? <==> len >= 1
    ensures h.Some? ==> h.value == WinMax(series, Max(0, i - len + 1), i + 1)
  {
    var start := Max(0, i - len + 1);
    h := None;
    var j := start;
    while j <= i
      invariant start <= j && (j <= i + 1 || j == start)
      invariant h == if j == start then None else Some(WinMax(series, start, j))
    {
      h := Some(if h.None? then series[j] else RMax(h.value, series[j]));
      j := j + 1;
    }
  }

  method Lowest(series: seq<real>, len: int, i: int) returns (l: Option<real>)
    requires 0 <= i < |series|
    ensures l.Some? <==> len >= 1
    ensures l.Some? ==> l.value == WinMin(series, Max(0, i - len + 1), i + 1)
  {
    var start := Max(0, i - len + 1);
    l := None;
    var j := start;
    while j <= i
      invariant start <= j && (j <= i + 1 || j == start)
      invariant l == if j == start then None else Some(WinMin(series, start, j))
    {
      l := Some(if l.None? then series[j] else RMin(l.value, series[j]));
      j := j + 1;
    }
  }

  /** high[i] === highest(high, len, i): bar i is a high of its truncated window. */
  predicate AtHighest(series: seq<real>, len: int, i: int)
    requires 0 <= i < |series|
  {
    len >= 1 && WinMax(series, Max(0, i - len + 1), i + 1) == series[i]
  }

  predicate AtLowest(series: seq<real>, len: int, i: int)
    requires 0 <= i < |series|
  {
    len >= 1 && WinMin(series, Max(0, i - len + 1), i + 1) == series[i]
  }

  lemma AtHighestIff(series: seq<real>, len: int, i: int)
    requires 0 <= i < |series| && len >= 1
    ensures AtHighest(series, len, i) <==> forall j :: Max(0, i - len + 1) <= j <= i ==> series[j] <= series[i]
  {
    if forall j :: Max(0, i - len + 1) <= j <= i ==> series[j] <= series[i] {
      WinMaxIs(series, Max(0, i - len + 1), i + 1, i);
    }
  }

  lemma AtLowestIff(series: seq<real>, len: int, i: int)
    requires 0 <= i < |series| && len >= 1
    ensures AtLowest(series, len, i) <==> forall j :: Max(0, i - len + 1) <= j <= i ==> series[i] <= series[j]
  {
    if forall j :: Max(0, i - len + 1) <= j <= i ==> series[i] <= series[j] {
      WinMinIs(series, Max(0, i - len + 1), i + 1, i);
    }
  }

  // ---------------------------------------------------------------- crossings

  /** A crosses above B between the previous and the current bar. */
  function CrossOver(prevA: Num, currA: Num, prevB: Num, currB: Num): (r: bool)
    ensures r ==> prevA.Avail? && currA.Avail? && prevB.Avail? && currB.Avail?
  {
    Le(prevA, prevB) && Gt(currA, currB)
  }

  /** A crosses below B; never on the same four values as a crossover. */
  function CrossUnder(prevA: Num, currA: Num, prevB: Num, currB: Num): (r: bool)
    ensures r ==> !CrossOver(prevA, currA, prevB, currB)
    ensures r ==> prevA.Avail? && currA.Avail? && prevB.Avail? && currB.Avail?
  {
    Ge(prevA, prevB) && Lt(currA, currB)
  }
}
