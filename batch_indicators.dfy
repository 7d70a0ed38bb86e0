/**
 * Rolling statistics and the stochastic oscillator of the batch engine
 * (src/engine/stochDivPro.ts, functions sma, rollingMin, rollingMax and stoch).
 * Each method keeps the source's loop and is proved equal to a reference function
 * that states the value at every index directly.
 */
module BatchIndicators {
  import opened Common

  predicate AllAvail(s: seq<Num>) {
    forall j :: 0 <= j < |s| ==> s[j].Avail?
  }

  /** Sum of a run of available values. */
  function SumOf(s: seq<Num>): real
    requires AllAvail(s)
    decreases |s|
  {
    if |s| == 0 then 0.0 else SumOf(s[..|s| - 1]) + s[|s| - 1].v
  }

  lemma SumSnoc(s: seq<Num>, a: int, b: int)
    requires 0 <= a <= b < |s| && AllAvail(s[a..b + 1])
    ensures AllAvail(s[a..b])
    ensures SumOf(s[a..b + 1]) == SumOf(s[a..b]) + s[b].v
  {
    assert s[a..b + 1][..b - a] == s[a..b];
  }

  lemma {:induction false} SumDropFirst(t: seq<Num>)
    requires |t| > 0 && AllAvail(t)
    ensures AllAvail(t[1..])
    ensures SumOf(t) == t[0].v + SumOf(t[1..])
    decreases |t|
  {
    if |t| == 1 {
      assert t[1..] == [];
    } else {
      var u := t[..|t| - 1];
      SumDropFirst(u);
      assert u[1..] == t[1..][..|t| - 2];
    }
  }

  // ---------------------------------------------------------------- sma

  /**
   * Value of sma(arr, len) at index i. A window length of at most 1 copies the input.
   * Otherwise the value is undefined until the window is full, and undefined for good once
   * any earlier input was undefined: the running sum of the source never sheds a NaN.
   */
  function SmaAt(arr: seq<Num>, len: int, i: int): Num
    requires 0 <= i < |arr|
  {
    if len <= 1 then arr[i]
    else if i < len - 1 || !AllAvail(arr[..i + 1]) then NotYet
    else Avail(SumOf(arr[i - len + 1..i + 1]) / (len as real))
  }

  function SmaSpec(arr: seq<Num>, len: int): seq<Num> {
    seq(|arr|, i requires 0 <= i < |arr| => SmaAt(arr, len, i))
  }

  /** What the source's running sum holds once indices 0..i-1 have been added. */
  function RunningSum(arr: seq<Num>, len: int, i: int): Num
    requires 1 < len && 0 <= i <= |arr|
  {
    if AllAvail(arr[..i]) then Avail(SumOf(arr[Max(0, i - len)..i])) else NotYet
  }

  /** One iteration of the sma loop: add arr[i], then drop arr[i-len] once the window is full. */
  lemma RunningSumStep(arr: seq<Num>, len: int, i: int)
    requires 1 < len && 0 <= i < |arr|
    ensures RunningSum(arr, len, i + 1)
         == (var s := Add(RunningSum(arr, len, i), arr[i]); if i >= len then Sub(s, arr[i - len]) else s)
  {
    assert arr[..i + 1][..i] == arr[..i];
    if AllAvail(arr[..i + 1]) {
      RunningSumAvail(arr, len, i);
    } else if AllAvail(arr[..i]) {
      assert !arr[i].Avail? by {
        forall j | 0 <= j < i ensures arr[..i + 1][j] == arr[..i][j] { }
      }
    }
  }

  /** Once the window is full, the value written at i is the running sum over len. */
  lemma SmaFromRunningSum(arr: seq<Num>, len: int, i: int)
    requires 1 < len && 0 <= i < |arr|
    ensures i >= len - 1 ==>
              SmaAt(arr, len, i)
              == (var r := RunningSum(arr, len, i + 1); if r.Avail? then Avail(r.v / (len as real)) else NotYet)
  {
    if i >= len - 1 {
      assert Max(0, i + 1 - len) == i - len + 1;
    }
  }

  /** The step of RunningSumStep while every input so far is defined. */
  lemma RunningSumAvail(arr: seq<Num>, len: int, i: int)
    requires 1 < len && 0 <= i < |arr| && AllAvail(arr[..i + 1])
    ensures AllAvail(arr[..i])
    ensures RunningSum(arr, len, i + 1) == Avail(SumOf(arr[Max(0, i + 1 - len)..i + 1]))
    ensures RunningSum(arr, len, i) == Avail(SumOf(arr[Max(0, i - len)..i]))
    ensures SumOf(arr[Max(0, i + 1 - len)..i + 1])
         == SumOf(arr[Max(0, i - len)..i]) + arr[i].v - (if i >= len then arr[i - len].v else 0.0)
  {
    assert arr[..i + 1][..i] == arr[..i];
    assert AllAvail(arr[..i]) by {
      forall j | 0 <= j < i ensures arr[..i][j].Avail? { assert arr[..i][j] == arr[..i + 1][j]; }
    }
    var lo := Max(0, i - len);
    assert AllAvail(arr[lo..i + 1]) by {
      forall j | lo <= j <= i ensures arr[j].Avail? {
        assert arr[..i + 1][j] == arr[j];
      }
    }
    SumSnoc(arr, lo, i);
    if i >= len {
      SumDropFirst(arr[i - len..i + 1]);
      assert arr[i - len..i + 1][1..] == arr[i - len + 1..i + 1];
    }
  }

  method Sma(arr: seq<Num>, len: int) returns (out: seq<Num>)
    ensures out == SmaSpec(arr, len)
  {
    var res := new Num[|arr|](_ => NotYet);
    if len <= 1 {
      assert arr == SmaSpec(arr, len);
      return arr;
    }
    var sum := Avail(0.0);
    for i := 0 to |arr|
      invariant sum == RunningSum(arr, len, i)
      invariant forall j :: 0 <= j < i ==> res[j] == SmaAt(arr, len, j)
      invariant forall j :: i <= j < |arr| ==> res[j] == NotYet
    {
      RunningSumStep(arr, len, i);
      SmaFromRunningSum(arr, len, i);
      sum := Add(sum, arr[i]);
      if i >= len {
        sum := Sub(sum, arr[i - len]);
      }
      if i >= len - 1 {
        res[i] := if sum.Avail? then Avail(sum.v / (len as real)) else NotYet;
      }
    }
    out := res[..];
  }

  /** Once an input of a window longer than 1 is undefined, every later mean is undefined. */
  lemma SmaNeverRecovers(arr: seq<Num>, len: int, j: int, i: int)
    requires len > 1 && 0 <= j <= i < |arr| && arr[j] == NotYet
    ensures SmaSpec(arr, len)[i] == NotYet
  {
    assert arr[..i + 1][j] == NotYet;
  }

  /** A defined mean is the mean of the last len inputs. */
  lemma SmaIsWindowMean(arr: seq<Num>, len: int, i: int)
    requires len > 1 && 0 <= i < |arr| && SmaSpec(arr, len)[i].Avail?
    ensures i >= len - 1 && AllAvail(arr[i - len + 1..i + 1])
    ensures SmaSpec(arr, len)[i].v * (len as real) == SumOf(arr[i - len + 1..i + 1])
  {
    assert forall j :: i - len + 1 <= j <= i ==> arr[..i + 1][j] == arr[j];
  }

  lemma SmaOfUndefined(arr: seq<Num>, len: int)
    requires forall j :: 0 <= j < |arr| ==> arr[j] == NotYet
    ensures forall j :: 0 <= j < |arr| ==> SmaSpec(arr, len)[j] == NotYet
  {
    forall j | 0 <= j < |arr| ensures SmaSpec(arr, len)[j] == NotYet {
      if len > 1 && j >= len - 1 {
        assert arr[..j + 1][0] == NotYet;
      }
    }
  }

  // ------------------------------------------------------- rollingMin / rollingMax

  /** Number of bars the deque window really covers: a length below 1 acts as 1. */
  function Span(len: int): int { if len >= 1 then len else 1 }

  function RollingMinAt(arr: seq<real>, len: int, i: int): Num
    requires 0 <= i < |arr|
  {
    if i < len - 1 then NotYet else Avail(WinMin(arr, i - Span(len) + 1, i + 1))
  }

  function RollingMaxAt(arr: seq<real>, len: int, i: int): Num
    requires 0 <= i < |arr|
  {
    if i < len - 1 then NotYet else Avail(WinMax(arr, i - Span(len) + 1, i + 1))
  }

  function RollingMinSpec(arr: seq<real>, len: int): seq<Num> {
    seq(|arr|, i requires 0 <= i < |arr| => RollingMinAt(arr, len, i))
  }

  function RollingMaxSpec(arr: seq<real>, len: int): seq<Num> {
    seq(|arr|, i requires 0 <= i < |arr| => RollingMaxAt(arr, len, i))
  }

  ghost predicate InWindow(dq: seq<int>, lo: int, hi: int) {
    forall t :: 0 <= t < |dq| ==> lo <= dq[t] < hi
  }

  /**
   * The monotonic deques of rollingMin and rollingMax over the window [lo, hi) (clipped
   * at 0): indices strictly increasing inside the window, values strictly increasing
   * (for min; decreasing for max) because ties are popped, and every window value
   * dominated by an entry at or after it. A deque for rollingMax is the same with the
   * order reversed.
   */
  ghost predicate MinOrdered(arr: seq<real>, dq: seq<int>, hi: int)
    requires hi <= |arr| && InWindow(dq, 0, hi)
  {
    forall s, t :: 0 <= s < t < |dq| ==> dq[s] < dq[t] && arr[dq[s]] < arr[dq[t]]
  }

  /** Every value of the window [lo, hi) is dominated by a deque entry at or after it. */
  ghost predicate MinCovers(arr: seq<real>, dq: seq<int>, lo: int, hi: int, x: real, orX: bool)
    requires hi <= |arr| && InWindow(dq, 0, hi)
  {
    forall j :: 0 <= j && lo <= j < hi ==> MinDominated(arr, dq, j, x, orX)
  }

  ghost predicate MinDominated(arr: seq<real>, dq: seq<int>, j: int, x: real, orX: bool)
    requires 0 <= j < |arr| && forall t :: 0 <= t < |dq| ==> 0 <= dq[t] < |arr|
  {
    (orX && x <= arr[j]) || exists t :: 0 <= t < |dq| && j <= dq[t] && arr[dq[t]] <= arr[j]
  }

  ghost predicate MinDeque(arr: seq<real>, dq: seq<int>, lo: int, hi: int)
    requires hi <= |arr|
  {
    InWindow(dq, lo, hi) && InWindow(dq, 0, hi) && MinOrdered(arr, dq, hi) && MinCovers(arr, dq, lo, hi, 0.0, false)
  }

  /** The front of the deque is the minimum of the whole window. */
  lemma MinFront(arr: seq<real>, dq: seq<int>, lo: int, hi: int)
    requires 0 <= lo < hi <= |arr| && MinDeque(arr, dq, lo, hi) && |dq| > 0
    ensures WinMin(arr, lo, hi) == arr[dq[0]]
  {
    forall j | lo <= j < hi ensures arr[dq[0]] <= arr[j] {
      assert MinDominated(arr, dq, j, 0.0, false);
      var t :| 0 <= t < |dq| && j <= dq[t] && arr[dq[t]] <= arr[j];
      if t > 0 { assert arr[dq[0]] < arr[dq[t]]; }
    }
    WinMinIs(arr, lo, hi, dq[0]);
  }

  /** Shift: evicting the oldest index leaves a deque of the window after it. */
  lemma MinShift(arr: seq<real>, dq: seq<int>, lo: int, hi: int)
    requires hi <= |arr| && MinDeque(arr, dq, lo, hi) && |dq| > 0
    ensures MinDeque(arr, dq[1..], dq[0] + 1, hi)
  {
    var d := dq[1..];
    forall j | 0 <= j && dq[0] + 1 <= j < hi ensures MinDominated(arr, d, j, 0.0, false) {
      assert MinDominated(arr, dq, j, 0.0, false);
      var t :| 0 <= t < |dq| && j <= dq[t] && arr[dq[t]] <= arr[j];
      assert t > 0 && d[t - 1] == dq[t];
    }
  }

  lemma MinWeaken(arr: seq<real>, dq: seq<int>, lo: int, hi: int, x: real)
    requires hi <= |arr| && MinDeque(arr, dq, lo, hi)
    ensures MinCovers(arr, dq, lo, hi, x, true)
  {
    forall j | 0 <= j && lo <= j < hi ensures MinDominated(arr, dq, j, x, true) {
      assert MinDominated(arr, dq, j, 0.0, false);
    }
  }

  lemma MinRaise(arr: seq<real>, dq: seq<int>, lo: int, lo2: int, hi: int)
    requires hi <= |arr| && MinDeque(arr, dq, lo, hi) && lo <= lo2
    requires forall t :: 0 <= t < |dq| ==> lo2 <= dq[t]
    ensures MinDeque(arr, dq, lo2, hi)
  {
  }

  /** Pop: an entry whose value is >= the incoming x is dominated by x from now on. */
  lemma MinPop(arr: seq<real>, dq: seq<int>, lo: int, hi: int, x: real)
    requires hi <= |arr| && InWindow(dq, lo, hi) && InWindow(dq, 0, hi) && MinOrdered(arr, dq, hi)
    requires MinCovers(arr, dq, lo, hi, x, true) && |dq| > 0 && arr[dq[|dq| - 1]] >= x
    ensures var d := dq[..|dq| - 1];
      InWindow(d, lo, hi) && InWindow(d, 0, hi) && MinOrdered(arr, d, hi) && MinCovers(arr, d, lo, hi, x, true)
  {
    var d := dq[..|dq| - 1];
    forall j | 0 <= j && lo <= j < hi ensures MinDominated(arr, d, j, x, true) {
      assert MinDominated(arr, dq, j, x, true);
      if !(x <= arr[j]) {
        var t :| 0 <= t < |dq| && j <= dq[t] && arr[dq[t]] <= arr[j];
        assert t < |dq| - 1 && d[t] == dq[t];
      }
    }
  }

  /** Push: once every younger entry >= x is gone, appending index i keeps the deque. */
  lemma MinPush(arr: seq<real>, dq: seq<int>, lo: int, i: int)
    requires 0 <= i < |arr| && lo <= i && InWindow(dq, lo, i) && InWindow(dq, 0, i) && MinOrdered(arr, dq, i)
    requires MinCovers(arr, dq, lo, i, arr[i], true)
    requires |dq| == 0 || arr[dq[|dq| - 1]] < arr[i]
    ensures MinDeque(arr, dq + [i], lo, i + 1)
  {
    var d := dq + [i];
    assert forall t :: 0 <= t < |dq| ==> d[t] == dq[t];
    assert d[|dq|] == i;
    forall s, t | 0 <= s < t < |d| ensures d[s] < d[t] && arr[d[s]] < arr[d[t]] {
      if t == |dq| && s < |dq| - 1 {
        assert arr[dq[s]] < arr[dq[|dq| - 1]];
      }
    }
    forall j | 0 <= j && lo <= j < i + 1 ensures MinDominated(arr, d, j, 0.0, false) {
      if j < i { assert MinDominated(arr, dq, j, arr[i], true); }
      if j == i || arr[i] <= arr[j] {
        assert j <= d[|dq|] && arr[d[|dq|]] <= arr[j];
      } else {
        var t :| 0 <= t < |dq| && j <= dq[t] && arr[dq[t]] <= arr[j];
        assert j <= d[t] && arr[d[t]] <= arr[j];
      }
    }
  }

  ghost predicate MaxOrdered(arr: seq<real>, dq: seq<int>, hi: int)
    requires hi <= |arr| && InWindow(dq, 0, hi)
  {
    forall s, t :: 0 <= s < t < |dq| ==> dq[s] < dq[t] && arr[dq[s]] > arr[dq[t]]
  }

  /** Every value of the window [lo, hi) is dominated by a deque entry at or after it. */
  ghost predicate MaxCovers(arr: seq<real>, dq: seq<int>, lo: int, hi: int, x: real, orX: bool)
    requires hi <= |arr| && InWindow(dq, 0, hi)
  {
    forall j :: 0 <= j && lo <= j < hi ==> MaxDominated(arr, dq, j, x, orX)
  }

  ghost predicate MaxDominated(arr: seq<real>, dq: seq<int>, j: int, x: real, orX: bool)
    requires 0 <= j < |arr| && forall t :: 0 <= t < |dq| ==> 0 <= dq[t] < |arr|
  {
    (orX && x >= arr[j]) || exists t :: 0 <= t < |dq| && j <= dq[t] && arr[dq[t]] >= arr[j]
  }

  ghost predicate MaxDeque(arr: seq<real>, dq: seq<int>, lo: int, hi: int)
    requires hi <= |arr|
  {
    InWindow(dq, lo, hi) && InWindow(dq, 0, hi) && MaxOrdered(arr, dq, hi) && MaxCovers(arr, dq, lo, hi, 0.0, false)
  }

  /** The front of the deque is the maximum of the whole window. */
  lemma MaxFront(arr: seq<real>, dq: seq<int>, lo: int, hi: int)
    requires 0 <= lo < hi <= |arr| && MaxDeque(arr, dq, lo, hi) && |dq| > 0
    ensures WinMax(arr, lo, hi) == arr[dq[0]]
  {
    forall j | lo <= j < hi ensures arr[dq[0]] >= arr[j] {
      assert MaxDominated(arr, dq, j, 0.0, false);
      var t :| 0 <= t < |dq| && j <= dq[t] && arr[dq[t]] >= arr[j];
      if t > 0 { assert arr[dq[0]] > arr[dq[t]]; }
    }
    WinMaxIs(arr, lo, hi, dq[0]);
  }

  /** Shift: evicting the oldest index leaves a deque of the window after it. */
  lemma MaxShift(arr: seq<real>, dq: seq<int>, lo: int, hi: int)
    requires hi <= |arr| && MaxDeque(arr, dq, lo, hi) && |dq| > 0
    ensures MaxDeque(arr, dq[1..], dq[0] + 1, hi)
  {
    var d := dq[1..];
    forall j | 0 <= j && dq[0] + 1 <= j < hi ensures MaxDominated(arr, d, j, 0.0, false) {
      assert MaxDominated(arr, dq, j, 0.0, false);
      var t :| 0 <= t < |dq| && j <= dq[t] && arr[dq[t]] >= arr[j];
      assert t > 0 && d[t - 1] == dq[t];
    }
  }

  lemma MaxWeaken(arr: seq<real>, dq: seq<int>, lo: int, hi: int, x: real)
    requires hi <= |arr| && MaxDeque(arr, dq, lo, hi)
    ensures MaxCovers(arr, dq, lo, hi, x, true)
  {
    forall j | 0 <= j && lo <= j < hi ensures MaxDominated(arr, dq, j, x, true) {
      assert MaxDominated(arr, dq, j, 0.0, false);
    }
  }

  lemma MaxRaise(arr: seq<real>, dq: seq<int>, lo: int, lo2: int, hi: int)
    requires hi <= |arr| && MaxDeque(arr, dq, lo, hi) && lo <= lo2
    requires forall t :: 0 <= t < |dq| ==> lo2 <= dq[t]
    ensures MaxDeque(arr, dq, lo2, hi)
  {
  }

  /** Pop: an entry whose value is <= the incoming x is dominated by x from now on. */
  lemma MaxPop(arr: seq<real>, dq: seq<int>, lo: int, hi: int, x: real)
    requires hi <= |arr| && InWindow(dq, lo, hi) && InWindow(dq, 0, hi) && MaxOrdered(arr, dq, hi)
    requires MaxCovers(arr, dq, lo, hi, x, true) && |dq| > 0 && arr[dq[|dq| - 1]] <= x
    ensures var d := dq[..|dq| - 1];
      InWindow(d, lo, hi) && InWindow(d, 0, hi) && MaxOrdered(arr, d, hi) && MaxCovers(arr, d, lo, hi, x, true)
  {
    var d := dq[..|dq| - 1];
    forall j | 0 <= j && lo <= j < hi ensures MaxDominated(arr, d, j, x, true) {
      assert MaxDominated(arr, dq, j, x, true);
      if !(x >= arr[j]) {
        var t :| 0 <= t < |dq| && j <= dq[t] && arr[dq[t]] >= arr[j];
        assert t < |dq| - 1 && d[t] == dq[t];
      }
    }
  }

  /** Push: once every younger entry <= x is gone, appending index i keeps the deque. */
  lemma MaxPush(arr: seq<real>, dq: seq<int>, lo: int, i: int)
    requires 0 <= i < |arr| && lo <= i && InWindow(dq, lo, i) && InWindow(dq, 0, i) && MaxOrdered(arr, dq, i)
    requires MaxCovers(arr, dq, lo, i, arr[i], true)
    requires |dq| == 0 || arr[dq[|dq| - 1]] > arr[i]
    ensures MaxDeque(arr, dq + [i], lo, i + 1)
  {
    var d := dq + [i];
    assert forall t :: 0 <= t < |dq| ==> d[t] == dq[t];
    assert d[|dq|] == i;
    forall s, t | 0 <= s < t < |d| ensures d[s] < d[t] && arr[d[s]] > arr[d[t]] {
      if t == |dq| && s < |dq| - 1 {
        assert arr[dq[s]] > arr[dq[|dq| - 1]];
      }
    }
    forall j | 0 <= j && lo <= j < i + 1 ensures MaxDominated(arr, d, j, 0.0, false) {
      if j < i { assert MaxDominated(arr, dq, j, arr[i], true); }
      if j == i || arr[i] >= arr[j] {
        assert j <= d[|dq|] && arr[d[|dq|]] >= arr[j];
      } else {
        var t :| 0 <= t < |dq| && j <= dq[t] && arr[dq[t]] >= arr[j];
        assert j <= d[t] && arr[d[t]] >= arr[j];
      }
    }
  }

  /** One iteration of the deque upkeep of rollingMin: evict expired indices, pop dominated ones, push i. */
  method MinAdmit(arr: seq<real>, len: int, dq0: seq<int>, i: int) returns (dq: seq<int>)
    requires 0 <= i < |arr| && MinDeque(arr, dq0, i - Span(len), i)
    requires i > 0 ==> |dq0| > 0 && dq0[|dq0| - 1] == i - 1
    ensures MinDeque(arr, dq, i + 1 - Span(len), i + 1)
    ensures |dq| > 0 && dq[|dq| - 1] == i
  {
    dq := dq0;
    ghost var w := Span(len);
    ghost var lo := i - w;
    while |dq| > 0 && dq[0] <= i - len
      invariant i - w <= lo <= i - w + 1
      invariant MinDeque(arr, dq, lo, i)
      invariant |dq| > 0 ==> dq[|dq| - 1] == i - 1
      invariant i > 0 && |dq| == 0 ==> lo == i
      decreases |dq|
    {
      MinShift(arr, dq, lo, i);
      lo := dq[0] + 1;
      dq := dq[1..];
    }
    MinRaise(arr, dq, lo, i - w + 1, i);
    lo := i - w + 1;
    MinWeaken(arr, dq, lo, i, arr[i]);
    while |dq| > 0 && arr[dq[|dq| - 1]] >= arr[i]
      invariant InWindow(dq, lo, i) && InWindow(dq, 0, i) && MinOrdered(arr, dq, i)
      invariant MinCovers(arr, dq, lo, i, arr[i], true)
      decreases |dq|
    {
      MinPop(arr, dq, lo, i, arr[i]);
      dq := dq[..|dq| - 1];
    }
    MinPush(arr, dq, lo, i);
    dq := dq + [i];
  }

  /** One iteration of rollingMin: admit bar i and read the window's minimum off the front of the deque. */
  method MinStep(arr: seq<real>, len: int, dq0: seq<int>, i: int) returns (dq: seq<int>, v: real)
    requires 0 <= i < |arr| && MinDeque(arr, dq0, i - Span(len), i)
    requires i > 0 ==> |dq0| > 0 && dq0[|dq0| - 1] == i - 1
    ensures MinDeque(arr, dq, i + 1 - Span(len), i + 1)
    ensures |dq| > 0 && dq[|dq| - 1] == i
    ensures i >= len - 1 ==> RollingMinAt(arr, len, i) == Avail(v)
  {
    dq := MinAdmit(arr, len, dq0, i);
    if i >= len - 1 {
      MinFront(arr, dq, i - Span(len) + 1, i + 1);
    }
    v := arr[dq[0]];
  }

  /** rollingMin: the minimum of each full window of len values, undefined before the first full one. */
  method RollingMin(arr: seq<real>, len: int) returns (out: seq<Num>)
    ensures out == RollingMinSpec(arr, len)
  {
    var res := new Num[|arr|](_ => NotYet);
    var dq: seq<int> := [];
    for i := 0 to |arr|
      invariant MinDeque(arr, dq, i - Span(len), i)
      invariant i > 0 ==> |dq| > 0 && dq[|dq| - 1] == i - 1
      invariant forall j :: 0 <= j < i ==> res[j] == RollingMinAt(arr, len, j)
      invariant forall j :: i <= j < |arr| ==> res[j] == NotYet
    {
      var v;
      dq, v := MinStep(arr, len, dq, i);
      if i >= len - 1 {
        res[i] := Avail(v);
      }
    }
    out := res[..];
  }

  /** One iteration of the deque upkeep of rollingMax: evict expired indices, pop dominated ones, push i. */
  method MaxAdmit(arr: seq<real>, len: int, dq0: seq<int>, i: int) returns (dq: seq<int>)
    requires 0 <= i < |arr| && MaxDeque(arr, dq0, i - Span(len), i)
    requires i > 0 ==> |dq0| > 0 && dq0[|dq0| - 1] == i - 1
    ensures MaxDeque(arr, dq, i + 1 - Span(len), i + 1)
    ensures |dq| > 0 && dq[|dq| - 1] == i
  {
    dq := dq0;
    ghost var w := Span(len);
    ghost var lo := i - w;
    while |dq| > 0 && dq[0] <= i - len
      invariant i - w <= lo <= i - w + 1
      invariant MaxDeque(arr, dq, lo, i)
      invariant |dq| > 0 ==> dq[|dq| - 1] == i - 1
      invariant i > 0 && |dq| == 0 ==> lo == i
      decreases |dq|
    {
      MaxShift(arr, dq, lo, i);
      lo := dq[0] + 1;
      dq := dq[1..];
    }
    MaxRaise(arr, dq, lo, i - w + 1, i);
    lo := i - w + 1;
    MaxWeaken(arr, dq, lo, i, arr[i]);
    while |dq| > 0 && arr[dq[|dq| - 1]] <= arr[i]
      invariant InWindow(dq, lo, i) && InWindow(dq, 0, i) && MaxOrdered(arr, dq, i)
      invariant MaxCovers(arr, dq, lo, i, arr[i], true)
      decreases |dq|
    {
      MaxPop(arr, dq, lo, i, arr[i]);
      dq := dq[..|dq| - 1];
    }
    MaxPush(arr, dq, lo, i);
    dq := dq + [i];
  }

  /** One iteration of rollingMax: admit bar i and read the window's maximum off the front of the deque. */
  method MaxStep(arr: seq<real>, len: int, dq0: seq<int>, i: int) returns (dq: seq<int>, v: real)
    requires 0 <= i < |arr| && MaxDeque(arr, dq0, i - Span(len), i)
    requires i > 0 ==> |dq0| > 0 && dq0[|dq0| - 1] == i - 1
    ensures MaxDeque(arr, dq, i + 1 - Span(len), i + 1)
    ensures |dq| > 0 && dq[|dq| - 1] == i
    ensures i >= len - 1 ==> RollingMaxAt(arr, len, i) == Avail(v)
  {
    dq := MaxAdmit(arr, len, dq0, i);
    if i >= len - 1 {
      MaxFront(arr, dq, i - Span(len) + 1, i + 1);
    }
    v := arr[dq[0]];
  }

  /** rollingMax: the maximum of each full window of len values, undefined before the first full one. */
  method RollingMax(arr: seq<real>, len: int) returns (out: seq<Num>)
    ensures out == RollingMaxSpec(arr, len)
  {
    var res := new Num[|arr|](_ => NotYet);
    var dq: seq<int> := [];
    for i := 0 to |arr|
      invariant MaxDeque(arr, dq, i - Span(len), i)
      invariant i > 0 ==> |dq| > 0 && dq[|dq| - 1] == i - 1
      invariant forall j :: 0 <= j < i ==> res[j] == RollingMaxAt(arr, len, j)
      invariant forall j :: i <= j < |arr| ==> res[j] == NotYet
    {
      var v;
      dq, v := MaxStep(arr, len, dq, i);
      if i >= len - 1 {
        res[i] := Avail(v);
      }
    }
    out := res[..];
  }

  // ---------------------------------------------------------------- stoch

  /**
   * Raw %K at one bar from the close and the rolling low / high of its window: undefined
   * when either extreme is undefined or the range is zero.
   */
  function RawKAt(c: real, ll: Num, hh: Num): (r: Num)
    ensures r.Avail? <==> ll.Avail? && hh.Avail? && hh.v != ll.v
    ensures r.Avail? ==> r.v == (c - ll.v) / (hh.v - ll.v) * 100.0
  {
    if ll.Avail? && hh.Avail? && hh.v - ll.v != 0.0 then Avail((c - ll.v) / (hh.v - ll.v) * 100.0)
    else NotYet
  }

  /** Raw %K over the close series; a bar past the end of high or low reads undefined. */
  function RawK(high: seq<real>, low: seq<real>, close: seq<real>, kLen: int): seq<Num> {
    var ll := RollingMinSpec(low, kLen);
    var hh := RollingMaxSpec(high, kLen);
    seq(|close|, i requires 0 <= i < |close| => RawKAt(close[i], AtNum(ll, i), AtNum(hh, i)))
  }

  /** stoch: %K is the smoothK-bar sma of raw %K and %D the smoothD-bar sma of %K. */
  method Stoch(high: seq<real>, low: seq<real>, close: seq<real>, kLen: int, smoothK: int, smoothD: int)
    returns (k: seq<Num>, d: seq<Num>)
    ensures k == SmaSpec(RawK(high, low, close, kLen), smoothK)
    ensures d == SmaSpec(k, smoothD)
    ensures |k| == |close| && |d| == |close|
  {
    var ll := RollingMin(low, kLen);
    var hh := RollingMax(high, kLen);
    var raw := seq(|close|, i requires 0 <= i < |close| => RawKAt(close[i], AtNum(ll, i), AtNum(hh, i)));
    k := Sma(raw, smoothK);
    d := Sma(k, smoothD);
  }

  /** Raw %K is defined exactly on full windows whose highest high differs from their lowest low. */
  lemma RawKDefinedIff(high: seq<real>, low: seq<real>, close: seq<real>, kLen: int, i: int)
    requires |high| == |low| == |close| && 0 <= i < |close|
    ensures RawK(high, low, close, kLen)[i].Avail?
        <==> i >= kLen - 1
             && WinMax(high, i - Span(kLen) + 1, i + 1) != WinMin(low, i - Span(kLen) + 1, i + 1)
  {
  }

  lemma MulPos(a: real, b: real)
    requires a > 0.0 && b > 0.0
    ensures a * b > 0.0
  {
  }

  lemma PercentInRange(c: real, ll: real, hh: real)
    requires ll <= c <= hh && ll < hh
    ensures 0.0 <= (c - ll) / (hh - ll) * 100.0 <= 100.0
  {
    var w := hh - ll;
    var q := (c - ll) / w;
    assert q * w == c - ll;
    if q < 0.0 { MulPos(-q, w); }
    if q > 1.0 { MulPos(q - 1.0, w); }
  }

  /**
   * A defined raw %K lies in [0, 100] when its bar has low <= close <= high (in particular
   * when every bar does).
   */
  lemma RawKInRange(high: seq<real>, low: seq<real>, close: seq<real>, kLen: int, i: int)
    requires |high| == |low| == |close| && 0 <= i < |close|
    requires low[i] <= close[i] <= high[i]
    requires RawK(high, low, close, kLen)[i].Avail?
    ensures 0.0 <= RawK(high, low, close, kLen)[i].v <= 100.0
  {
    var ll := AtNum(RollingMinSpec(low, kLen), i);
    var hh := AtNum(RollingMaxSpec(high, kLen), i);
    assert RawK(high, low, close, kLen)[i] == RawKAt(close[i], ll, hh);
    assert ll.Avail? && hh.Avail?;
    var lo := i - Span(kLen) + 1;
    assert ll.v == WinMin(low, lo, i + 1) && hh.v == WinMax(high, lo, i + 1);
    assert ll.v <= low[i] && high[i] <= hh.v;
    PercentInRange(close[i], ll.v, hh.v);
  }

  /** With kLen > 1 the first raw %K is undefined, so smoothK > 1 leaves %K undefined everywhere. */
  lemma StochNeverDefined(high: seq<real>, low: seq<real>, close: seq<real>, kLen: int, smoothK: int, smoothD: int)
    requires kLen > 1 && smoothK > 1
    ensures var k := SmaSpec(RawK(high, low, close, kLen), smoothK);
      (forall i :: 0 <= i < |k| ==> k[i] == NotYet)
      && forall i :: 0 <= i < |k| ==> SmaSpec(k, smoothD)[i] == NotYet
  {
    var raw := RawK(high, low, close, kLen);
    var k := SmaSpec(raw, smoothK);
    if |close| > 0 {
      forall i | 0 <= i < |k| ensures k[i] == NotYet {
        SmaNeverRecovers(raw, smoothK, 0, i);
      }
    }
    SmaOfUndefined(k, smoothD);
  }

  /**
   * A flat bar series (high == low at every bar) with a one-bar window has a zero range
   * everywhere, so raw %K is undefined at every bar.
   */
  lemma FlatSeriesUndefined(high: seq<real>, low: seq<real>, close: seq<real>, kLen: int)
    requires |high| == |low| == |close| && kLen <= 1
    requires forall j :: 0 <= j < |close| ==> high[j] == low[j]
    ensures forall i :: 0 <= i < |close| ==> RawK(high, low, close, kLen)[i] == NotYet
  {
    forall i | 0 <= i < |close| ensures RawK(high, low, close, kLen)[i] == NotYet {
      RawKDefinedIff(high, low, close, kLen, i);
    }
  }

  /** A constant series has a zero range on every window, whatever kLen is. */
  lemma ConstantSeriesUndefined(high: seq<real>, low: seq<real>, close: seq<real>, kLen: int, c: real)
    requires |high| == |low| == |close|
    requires forall j :: 0 <= j < |close| ==> high[j] == c && low[j] == c
    ensures forall i :: 0 <= i < |close| ==> RawK(high, low, close, kLen)[i] == NotYet
  {
    forall i | 0 <= i < |close| ensures RawK(high, low, close, kLen)[i] == NotYet {
      RawKDefinedIff(high, low, close, kLen, i);
    }
  }
}
