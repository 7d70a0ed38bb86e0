/**
 * The batch divergence engine (src/engine/stochDivPro.ts, computeStochDivPro and its
 * findPairs closure): %K / %D, pivot highs of the high series and pivot lows of the low
 * series, and for each later pivot the nearest earlier one that passes the spacing, the
 * 60-bar look-back cap, the price tolerance and the fixed +-10 oscillator gate.
 */
module BatchEngine {
  import opened Common
  import opened BatchIndicators
  import opened BatchPivots

  /** The engine options (the Options record of stochDivPro.ts). */
  datatype Options = Options(
    stochLength: int, smoothK: int, smoothD: int,
    oversold: real, overbought: real,
    pivotLeft: int, pivotRight: int,
    priceTolerance: real, minBarsBetweenPivots: int,
    enableEarly: bool)

  /** The default settings of src/config.ts. */
  const Defaults := Options(12, 3, 3, 20.0, 80.0, 5, 1, 0.012, 7, true)

  /** Hard cap on the distance between the two pivots of a pair. */
  const MaxBarsApart := 60

  /** The minimum oscillator move of a divergence. */
  const StochGateSize := 10.0

  datatype Kind = Bullish | Bearish

  /** A pivot as collected before pairing: its bar, its price and %K at that bar. */
  datatype PivotRec = PivotRec(bar: int, price: real, stoch: Num)

  datatype Event = Event(
    kind: Kind, isEarly: bool,
    p1Bar: int, p1Price: real, p1Stoch: Num,
    p2Bar: int, p2Price: real, p2Stoch: Num,
    barsApart: int, priceDiffPct: Num, stochDiff: Num)

  datatype Output = Output(stochKSeries: seq<Num>, stochDSeries: seq<Num>, events: seq<Event>)

  // ------------------------------------------------------------ pivot collection

  /** The pivots among bars 0..m-1, in bar order, with their price and %K. */
  function PivotsOf(piv: seq<Option<int>>, price: seq<real>, k: seq<Num>, m: int): (r: seq<PivotRec>)
    requires 0 <= m <= |piv| && |piv| <= |price| && |piv| <= |k|
    ensures forall t :: 0 <= t < |r| ==>
      0 <= r[t].bar < m && piv[r[t].bar].Some? && r[t].price == price[r[t].bar] && r[t].stoch == k[r[t].bar]
    ensures forall a, b :: 0 <= a < b < |r| ==> r[a].bar < r[b].bar
    ensures forall i :: 0 <= i < m && piv[i].Some? ==> exists t :: 0 <= t < |r| && r[t].bar == i
  {
    if m == 0 then []
    else
      var r0 := PivotsOf(piv, price, k, m - 1);
      if piv[m - 1].Some? then
        PivotsSnoc(piv, price, k, m, r0);
        r0 + [PivotRec(m - 1, price[m - 1], k[m - 1])]
      else r0
  }

  /** The step of PivotsOf that appends the pivot at bar m - 1. */
  lemma PivotsSnoc(piv: seq<Option<int>>, price: seq<real>, k: seq<Num>, m: int, r0: seq<PivotRec>)
    requires 0 < m <= |piv| && |piv| <= |price| && |piv| <= |k| && piv[m - 1].Some?
    requires forall t :: 0 <= t < |r0| ==>
      0 <= r0[t].bar < m - 1 && piv[r0[t].bar].Some? && r0[t].price == price[r0[t].bar] && r0[t].stoch == k[r0[t].bar]
    requires forall a, b :: 0 <= a < b < |r0| ==> r0[a].bar < r0[b].bar
    requires forall i :: 0 <= i < m - 1 && piv[i].Some? ==> exists t :: 0 <= t < |r0| && r0[t].bar == i
    ensures var r := r0 + [PivotRec(m - 1, price[m - 1], k[m - 1])];
      (forall t :: 0 <= t < |r| ==>
        0 <= r[t].bar < m && piv[r[t].bar].Some? && r[t].price == price[r[t].bar] && r[t].stoch == k[r[t].bar])
      && (forall a, b :: 0 <= a < b < |r| ==> r[a].bar < r[b].bar)
      && (forall i :: 0 <= i < m && piv[i].Some? ==> exists t :: 0 <= t < |r| && r[t].bar == i)
  {
    var r := r0 + [PivotRec(m - 1, price[m - 1], k[m - 1])];
    assert r[|r0|].bar == m - 1;
    assert forall t :: 0 <= t < |r0| ==> r[t] == r0[t];
    forall i | 0 <= i < m && piv[i].Some? ensures exists t :: 0 <= t < |r| && r[t].bar == i {
      if i < m - 1 {
        var t :| 0 <= t < |r0| && r0[t].bar == i;
        assert r[t].bar == i;
      }
    }
  }

  /** The loop of computeStochDivPro that lists the pivot highs and the pivot lows. */
  method CollectPivots(ph: seq<Option<int>>, pl: seq<Option<int>>, high: seq<real>, low: seq<real>, k: seq<Num>)
    returns (highs: seq<PivotRec>, lows: seq<PivotRec>)
    requires |ph| == |pl| == |high| == |low| == |k|
    ensures highs == PivotsOf(ph, high, k, |ph|) && lows == PivotsOf(pl, low, k, |pl|)
  {
    highs := [];
    lows := [];
    for i := 0 to |ph|
      invariant highs == PivotsOf(ph, high, k, i)
      invariant lows == PivotsOf(pl, low, k, i)
    {
      if ph[i].Some? {
        highs := highs + [PivotRec(i, high[i], k[i])];
      }
      if pl[i].Some? {
        lows := lows + [PivotRec(i, low[i], k[i])];
      }
    }
  }

  predicate Ascending(arr: seq<PivotRec>) {
    forall a, b :: 0 <= a < b < |arr| ==> arr[a].bar < arr[b].bar
  }

  // ------------------------------------------------------------ the four gates

  /**
   * Math.abs(p2 - p1) / p1 > tol. With p1 == 0 the quotient is NaN when p2 == 0 as well
   * (so the gate lets the pair through) and infinite otherwise (so it rejects it).
   */
  predicate PriceExceeds(p1: real, p2: real, tol: real) {
    if p1 == 0.0 then p2 != 0.0 else Abs(p2 - p1) / p1 > tol
  }

  /** The priceDiffPct field: NaN when p1 == 0 (the only such case that reaches an event). */
  function PriceDiffPct(p1: real, p2: real): Num {
    if p1 == 0.0 then NotYet else Avail(Abs(p2 - p1) / p1)
  }

  /** stochDiff <= -10 for bearish, >= 10 for bullish; an undefined difference fails both. */
  predicate StochGate(bear: bool, stochDiff: Num) {
    if bear then Le(stochDiff, Avail(-StochGateSize)) else Ge(stochDiff, Avail(StochGateSize))
  }

  /** p1 is a partner of p2: all four gates pass. */
  predicate Qualifies(p1: PivotRec, p2: PivotRec, bear: bool, minBars: int, tol: real) {
    minBars <= p2.bar - p1.bar <= MaxBarsApart
    && !PriceExceeds(p1.price, p2.price, tol)
    && StochGate(bear, Sub(p2.stoch, p1.stoch))
  }

  function KindOf(bear: bool): Kind { if bear then Bearish else Bullish }

  function MakeEvent(p1: PivotRec, p2: PivotRec, bear: bool): Event {
    Event(KindOf(bear), false, p1.bar, p1.price, p1.stoch, p2.bar, p2.price, p2.stoch,
          p2.bar - p1.bar, PriceDiffPct(p1.price, p2.price), Sub(p2.stoch, p1.stoch))
  }

  // ------------------------------------------------------------ findPairs

  /**
   * The inner loop of findPairs for the later pivot arr[j], resumed at candidate i and
   * walking back: skip too-close or failing candidates, stop at the first one more than
   * 60 bars back, and answer the first candidate that passes every gate.
   */
  function ScanBack(arr: seq<PivotRec>, bear: bool, minBars: int, tol: real, j: int, i: int): (r: Option<int>)
    requires -1 <= i < j < |arr|
    ensures r.Some? ==> 0 <= r.value <= i && Qualifies(arr[r.value], arr[j], bear, minBars, tol)
    decreases i + 1
  {
    if i < 0 then None
    else
      var barsApart := arr[j].bar - arr[i].bar;
      if barsApart < minBars then ScanBack(arr, bear, minBars, tol, j, i - 1)
      else if barsApart > MaxBarsApart then None
      else if PriceExceeds(arr[i].price, arr[j].price, tol) then ScanBack(arr, bear, minBars, tol, j, i - 1)
      else if !StochGate(bear, Sub(arr[j].stoch, arr[i].stoch)) then ScanBack(arr, bear, minBars, tol, j, i - 1)
      else Some(i)
  }

  /** The event findPairs emits for the later pivot arr[j], if any. */
  function PairAt(arr: seq<PivotRec>, bear: bool, minBars: int, tol: real, j: int): seq<Event>
    requires 0 <= j < |arr|
  {
    match ScanBack(arr, bear, minBars, tol, j, j - 1)
    case None => []
    case Some(i) => [MakeEvent(arr[i], arr[j], bear)]
  }

  /** The events findPairs emits for the later pivots arr[1..m). */
  function Pairs(arr: seq<PivotRec>, bear: bool, minBars: int, tol: real, m: int): seq<Event>
    requires 0 <= m <= |arr|
  {
    if m <= 1 then [] else Pairs(arr, bear, minBars, tol, m - 1) + PairAt(arr, bear, minBars, tol, m - 1)
  }

  /** findPairs: appends, for each pivot in turn, the event pairing it with its partner. */
  method FindPairs(arr: seq<PivotRec>, bear: bool, minBars: int, tol: real, events0: seq<Event>)
    returns (events: seq<Event>)
    ensures events == events0 + Pairs(arr, bear, minBars, tol, |arr|)
  {
    events := events0;
    var j := 1;
    while j < |arr|
      invariant 1 <= j
      invariant events == events0 + Pairs(arr, bear, minBars, tol, Min(j, |arr|))
    {
      var found := ScanPartner(arr, bear, minBars, tol, j);
      events := events + found;
      j := j + 1;
    }
  }

  /** The inner loop of findPairs for the later pivot arr[j]: the event it pushes, if any. */
  method ScanPartner(arr: seq<PivotRec>, bear: bool, minBars: int, tol: real, j: int)
    returns (found: seq<Event>)
    requires 0 <= j < |arr|
    ensures found == PairAt(arr, bear, minBars, tol, j)
  {
    found := [];
    var p2 := arr[j];
    var i := j - 1;
    while i >= 0
      invariant -1 <= i < j
      invariant ScanBack(arr, bear, minBars, tol, j, i) == ScanBack(arr, bear, minBars, tol, j, j - 1)
      invariant found == []
    {
      var p1 := arr[i];
      var barsApart := p2.bar - p1.bar;
      if barsApart < minBars {
        i := i - 1;
        continue;
      }
      if barsApart > MaxBarsApart {
        break;
      }
      if PriceExceeds(p1.price, p2.price, tol) {
        i := i - 1;
        continue;
      }
      var stochDiff := Sub(p2.stoch, p1.stoch);
      if !StochGate(bear, stochDiff) {
        i := i - 1;
        continue;
      }
      found := [MakeEvent(p1, p2, bear)];
      break;
    }
  }

  // ------------------------------------------------------------ computeStochDivPro

  /** findPairs over the pivots marked in piv, with their price and %K. */
  function SideEvents(piv: seq<Option<int>>, price: seq<real>, k: seq<Num>, bear: bool, opt: Options): seq<Event>
    requires |piv| <= |price| && |piv| <= |k|
  {
    var arr := PivotsOf(piv, price, k, |piv|);
    Pairs(arr, bear, opt.minBarsBetweenPivots, opt.priceTolerance, |arr|)
  }

  const LengthError := "Input arrays must have equal length"

  function ComputeSpec(open: seq<real>, high: seq<real>, low: seq<real>, close: seq<real>,
                       volume: seq<real>, time: seq<int>, opt: Options): Result<Output>
  {
    var n := |close|;
    if |open| != n || |high| != n || |low| != n || |volume| != n || |time| != n then Err(LengthError)
    else if n == 0 then Ok(Output([], [], []))
    else
      var k := SmaSpec(RawK(high, low, close, opt.stochLength), opt.smoothK);
      var d := SmaSpec(k, opt.smoothD);
      var bear := SideEvents(PivotHighSpec(high, opt.pivotLeft, opt.pivotRight), high, k, true, opt);
      var bull := SideEvents(PivotLowSpec(low, opt.pivotLeft, opt.pivotRight), low, k, false, opt);
      Ok(Output(k, d, bear + bull))
  }

  method ComputeStochDivPro(open: seq<real>, high: seq<real>, low: seq<real>, close: seq<real>,
                            volume: seq<real>, time: seq<int>, opt: Options)
    returns (r: Result<Output>)
    ensures r == ComputeSpec(open, high, low, close, volume, time, opt)
  {
    var n := |close|;
    if |open| != n || |high| != n || |low| != n || |volume| != n || |time| != n {
      return Err(LengthError);
    }
    if n == 0 {
      return Ok(Output([], [], []));
    }
    var k, d := Stoch(high, low, close, opt.stochLength, opt.smoothK, opt.smoothD);
    var ph := PivotHigh(high, opt.pivotLeft, opt.pivotRight);
    var pl := PivotLow(low, opt.pivotLeft, opt.pivotRight);
    var highs, lows := CollectPivots(ph, pl, high, low, k);
    var events := FindPairs(highs, true, opt.minBarsBetweenPivots, opt.priceTolerance, []);
    ghost var bear := SideEvents(ph, high, k, true, opt);
    assert events == bear by { assert [] + bear == bear; }
    events := FindPairs(lows, false, opt.minBarsBetweenPivots, opt.priceTolerance, events);
    r := Ok(Output(k, d, events));
  }

  // ------------------------------------------------------------ properties

  /**
   * The scan answers the nearest qualifying candidate at or below i, and answers nothing
   * only when no candidate at or below i qualifies. The early stop at more than 60 bars is
   * sound because the pivots are in ascending bar order.
   */
  lemma {:induction false} ScanBackNearest(arr: seq<PivotRec>, bear: bool, minBars: int, tol: real, j: int, i: int)
    requires Ascending(arr) && -1 <= i < j < |arr|
    ensures match ScanBack(arr, bear, minBars, tol, j, i)
      case Some(q) => forall q2 :: q < q2 <= i ==> !Qualifies(arr[q2], arr[j], bear, minBars, tol)
      case None => forall q2 :: 0 <= q2 <= i ==> !Qualifies(arr[q2], arr[j], bear, minBars, tol)
    decreases i + 1
  {
    if i >= 0 {
      var barsApart := arr[j].bar - arr[i].bar;
      if barsApart > MaxBarsApart && minBars <= barsApart {
        forall q2 | 0 <= q2 <= i ensures !Qualifies(arr[q2], arr[j], bear, minBars, tol) {
          if q2 < i { assert arr[q2].bar < arr[i].bar; }
        }
      } else {
        ScanBackNearest(arr, bear, minBars, tol, j, i - 1);
      }
    }
  }

  /** arr[q] is the nearest earlier pivot that qualifies as arr[j]'s partner. */
  predicate NearestPair(arr: seq<PivotRec>, q: int, j: int, bear: bool, minBars: int, tol: real) {
    0 <= q < j < |arr|
    && Qualifies(arr[q], arr[j], bear, minBars, tol)
    && forall q2 :: q < q2 < j ==> !Qualifies(arr[q2], arr[j], bear, minBars, tol)
  }

  /** The gates an emitted event has passed, stated on its own fields. */
  predicate GatesPassed(e: Event, bear: bool, minBars: int, tol: real) {
    e.kind == KindOf(bear) && !e.isEarly
    && e.p1Bar < e.p2Bar && e.barsApart == e.p2Bar - e.p1Bar
    && minBars <= e.barsApart <= MaxBarsApart
    && !PriceExceeds(e.p1Price, e.p2Price, tol)
    && (e.priceDiffPct.Avail? ==> e.priceDiffPct.v <= tol)
    && e.stochDiff == Sub(e.p2Stoch, e.p1Stoch)
    && (if bear then e.stochDiff.Avail? && e.stochDiff.v <= -StochGateSize
        else e.stochDiff.Avail? && e.stochDiff.v >= StochGateSize)
  }

  lemma MakeEventGates(p1: PivotRec, p2: PivotRec, bear: bool, minBars: int, tol: real)
    requires Qualifies(p1, p2, bear, minBars, tol) && p1.bar < p2.bar
    ensures GatesPassed(MakeEvent(p1, p2, bear), bear, minBars, tol)
  {
  }

  /** e pairs some pivot arr[j], j < m, with its nearest partner. */
  ghost predicate NearestEvent(arr: seq<PivotRec>, e: Event, bear: bool, minBars: int, tol: real, m: int) {
    exists q, j :: j < m && NearestPair(arr, q, j, bear, minBars, tol) && e == MakeEvent(arr[q], arr[j], bear)
  }

  /** Every event of p pairs some pivot arr[j], j < m, with its nearest partner. */
  ghost predicate AllNearest(arr: seq<PivotRec>, p: seq<Event>, bear: bool, minBars: int, tol: real, m: int) {
    forall t :: 0 <= t < |p| ==> NearestEvent(arr, p[t], bear, minBars, tol, m)
  }

  /** Events in strictly ascending order of their later pivot's bar. */
  predicate P2Ascending(p: seq<Event>) {
    forall s, t :: 0 <= s < t < |p| ==> p[s].p2Bar < p[t].p2Bar
  }

  /** Some event of p ends at the given bar. */
  ghost predicate HasEventAt(p: seq<Event>, bar: int) {
    exists t :: 0 <= t < |p| && p[t].p2Bar == bar
  }

  /** Each pivot arr[j], j < m, with a qualifying earlier pivot has an event of its own. */
  ghost predicate AllPaired(arr: seq<PivotRec>, p: seq<Event>, bear: bool, minBars: int, tol: real, m: int)
    requires m <= |arr|
  {
    forall q, j :: 0 <= q < j < m && Qualifies(arr[q], arr[j], bear, minBars, tol) ==> HasEventAt(p, arr[j].bar)
  }

  /** Each event of findPairs over arr[0..m) pairs some pivot with its nearest partner. */
  lemma {:induction false} PairsSound(arr: seq<PivotRec>, bear: bool, minBars: int, tol: real, m: int)
    requires Ascending(arr) && 0 <= m <= |arr|
    ensures AllNearest(arr, Pairs(arr, bear, minBars, tol, m), bear, minBars, tol, m)
    decreases m
  {
    if m > 1 {
      var p0 := Pairs(arr, bear, minBars, tol, m - 1);
      PairsSound(arr, bear, minBars, tol, m - 1);
      var p := Pairs(arr, bear, minBars, tol, m);
      assert p == p0 + PairAt(arr, bear, minBars, tol, m - 1);
      forall t | 0 <= t < |p| ensures NearestEvent(arr, p[t], bear, minBars, tol, m) {
        if t < |p0| {
          assert p[t] == p0[t];
          NearestEventWiden(arr, p0[t], bear, minBars, tol, m - 1);
        } else {
          var pa := PairAt(arr, bear, minBars, tol, m - 1);
          assert p[t] == pa[t - |p0|] && pa[t - |p0|] in pa;
          PairAtNearest(arr, bear, minBars, tol, m - 1);
        }
      }
    }
  }

  lemma NearestEventWiden(arr: seq<PivotRec>, e: Event, bear: bool, minBars: int, tol: real, m: int)
    requires NearestEvent(arr, e, bear, minBars, tol, m)
    ensures NearestEvent(arr, e, bear, minBars, tol, m + 1)
  {
    var q, j :| j < m && NearestPair(arr, q, j, bear, minBars, tol) && e == MakeEvent(arr[q], arr[j], bear);
    assert j < m + 1;
  }

  /** The event emitted for arr[j], if any, pairs it with its nearest partner. */
  lemma PairAtNearest(arr: seq<PivotRec>, bear: bool, minBars: int, tol: real, j: int)
    requires Ascending(arr) && 0 <= j < |arr|
    ensures forall e :: e in PairAt(arr, bear, minBars, tol, j) ==> NearestEvent(arr, e, bear, minBars, tol, j + 1)
  {
    ScanBackNearest(arr, bear, minBars, tol, j, j - 1);
    var r := ScanBack(arr, bear, minBars, tol, j, j - 1);
    if r.Some? {
      var q := r.value;
      assert NearestPair(arr, q, j, bear, minBars, tol);
      assert PairAt(arr, bear, minBars, tol, j) == [MakeEvent(arr[q], arr[j], bear)];
    }
  }

  /**
   * The events of findPairs are in strictly ascending order of the later pivot's bar, so
   * there is at most one event per pivot; none is later than the last pivot scanned.
   */
  lemma {:induction false} PairsOrdered(arr: seq<PivotRec>, bear: bool, minBars: int, tol: real, m: int)
    requires Ascending(arr) && 0 <= m <= |arr|
    ensures P2Ascending(Pairs(arr, bear, minBars, tol, m))
    ensures forall t, jj :: 0 <= t < |Pairs(arr, bear, minBars, tol, m)| && m - 1 <= jj < |arr| ==>
      Pairs(arr, bear, minBars, tol, m)[t].p2Bar <= arr[jj].bar
    decreases m
  {
    if m > 1 {
      var p0 := Pairs(arr, bear, minBars, tol, m - 1);
      PairsOrdered(arr, bear, minBars, tol, m - 1);
      var p := Pairs(arr, bear, minBars, tol, m);
      assert forall t :: 0 <= t < |p0| ==> p[t] == p0[t];
      assert forall t :: |p0| <= t < |p| ==> p[t].p2Bar == arr[m - 1].bar;
      forall t, jj | 0 <= t < |p| && m - 1 <= jj < |arr| ensures p[t].p2Bar <= arr[jj].bar {
        if t < |p0| {
          assert p0[t].p2Bar <= arr[m - 2].bar;
        }
      }
      forall s, t | 0 <= s < t < |p| ensures p[s].p2Bar < p[t].p2Bar {
        if t < |p0| {
          assert p[s] == p0[s] && p[t] == p0[t];
        } else if s < |p0| {
          assert p0[s].p2Bar <= arr[m - 2].bar < arr[m - 1].bar;
        }
      }
    }
  }

  /** Every pivot that has a qualifying earlier pivot gets an event. */
  lemma {:induction false} PairsComplete(arr: seq<PivotRec>, bear: bool, minBars: int, tol: real, m: int)
    requires Ascending(arr) && 0 <= m <= |arr|
    ensures AllPaired(arr, Pairs(arr, bear, minBars, tol, m), bear, minBars, tol, m)
    decreases m
  {
    if m > 1 {
      PairsComplete(arr, bear, minBars, tol, m - 1);
      forall q, j | 0 <= q < j < m && Qualifies(arr[q], arr[j], bear, minBars, tol)
        ensures HasEventAt(Pairs(arr, bear, minBars, tol, m), arr[j].bar)
      {
        PairsCompleteAt(arr, bear, minBars, tol, m, q, j);
      }
    }
  }

  /** One pivot pair of the inductive step of PairsComplete. */
  lemma PairsCompleteAt(arr: seq<PivotRec>, bear: bool, minBars: int, tol: real, m: int, q: int, j: int)
    requires Ascending(arr) && 1 < m <= |arr|
    requires AllPaired(arr, Pairs(arr, bear, minBars, tol, m - 1), bear, minBars, tol, m - 1)
    requires 0 <= q < j < m && Qualifies(arr[q], arr[j], bear, minBars, tol)
    ensures HasEventAt(Pairs(arr, bear, minBars, tol, m), arr[j].bar)
  {
    var p0 := Pairs(arr, bear, minBars, tol, m - 1);
    var pa := PairAt(arr, bear, minBars, tol, m - 1);
    var p := Pairs(arr, bear, minBars, tol, m);
    assert p == p0 + pa;
    if j < m - 1 {
      assert HasEventAt(p0, arr[j].bar);
      var t :| 0 <= t < |p0| && p0[t].p2Bar == arr[j].bar;
      assert p[t] == p0[t];
    } else {
      PairAtComplete(arr, bear, minBars, tol, q, m - 1);
      assert p[|p0|] == pa[0];
    }
  }

  /** A pivot with a qualifying earlier pivot gets its event from PairAt. */
  lemma PairAtComplete(arr: seq<PivotRec>, bear: bool, minBars: int, tol: real, q: int, j: int)
    requires Ascending(arr) && 0 <= q < j < |arr| && Qualifies(arr[q], arr[j], bear, minBars, tol)
    ensures |PairAt(arr, bear, minBars, tol, j)| == 1 && PairAt(arr, bear, minBars, tol, j)[0].p2Bar == arr[j].bar
  {
    ScanBackNearest(arr, bear, minBars, tol, j, j - 1);
  }

  /** With every %K undefined no pair passes the oscillator gate, so nothing is emitted. */
  lemma {:induction false} PairsNoneWhenUndefined(arr: seq<PivotRec>, bear: bool, minBars: int, tol: real, m: int)
    requires 0 <= m <= |arr| && forall t :: 0 <= t < |arr| ==> arr[t].stoch == NotYet
    ensures Pairs(arr, bear, minBars, tol, m) == []
    decreases m
  {
    if m > 1 {
      PairsNoneWhenUndefined(arr, bear, minBars, tol, m - 1);
      ScanBackNone(arr, bear, minBars, tol, m - 1, m - 2);
    }
  }

  lemma {:induction false} ScanBackNone(arr: seq<PivotRec>, bear: bool, minBars: int, tol: real, j: int, i: int)
    requires -1 <= i < j < |arr| && arr[j].stoch == NotYet
    ensures ScanBack(arr, bear, minBars, tol, j, i) == None
    decreases i + 1
  {
    if i >= 0 {
      ScanBackNone(arr, bear, minBars, tol, j, i - 1);
    }
  }

  /** The result's shape: an error exactly when some array's length differs from close's. */
  lemma ComputeShape(open: seq<real>, high: seq<real>, low: seq<real>, close: seq<real>,
                     volume: seq<real>, time: seq<int>, opt: Options)
    ensures var r := ComputeSpec(open, high, low, close, volume, time, opt);
      var n := |close|;
      (r.Err? <==> |open| != n || |high| != n || |low| != n || |volume| != n || |time| != n)
      && (r.Err? ==> r.error == LengthError)
      && (r.Ok? && n == 0 ==> r.value == Output([], [], []))
      && (r.Ok? ==> |r.value.stochKSeries| == n && |r.value.stochDSeries| == n)
  {
  }

  /** Event e passes its gates and both its bars are pivots, with that series' price and %K. */
  predicate FromPivots(e: Event, piv: seq<Option<int>>, price: seq<real>, k: seq<Num>,
                       bear: bool, minBars: int, tol: real)
  {
    GatesPassed(e, bear, minBars, tol)
    && 0 <= e.p1Bar < |piv| && 0 <= e.p2Bar < |piv| && e.p2Bar < |price| && e.p2Bar < |k|
    && piv[e.p1Bar].Some? && piv[e.p2Bar].Some?
    && e.p1Price == price[e.p1Bar] && e.p2Price == price[e.p2Bar]
    && e.p1Stoch == k[e.p1Bar] && e.p2Stoch == k[e.p2Bar]
  }

  lemma SideEventsFromPivots(piv: seq<Option<int>>, price: seq<real>, k: seq<Num>, bear: bool, opt: Options)
    requires |piv| <= |price| && |piv| <= |k|
    ensures forall t :: 0 <= t < |SideEvents(piv, price, k, bear, opt)| ==>
      FromPivots(SideEvents(piv, price, k, bear, opt)[t], piv, price, k, bear, opt.minBarsBetweenPivots, opt.priceTolerance)
    ensures P2Ascending(SideEvents(piv, price, k, bear, opt))
  {
    var mb := opt.minBarsBetweenPivots;
    var tol := opt.priceTolerance;
    var arr := PivotsOf(piv, price, k, |piv|);
    var p := Pairs(arr, bear, mb, tol, |arr|);
    PairsSound(arr, bear, mb, tol, |arr|);
    PairsOrdered(arr, bear, mb, tol, |arr|);
    forall t | 0 <= t < |p| ensures FromPivots(p[t], piv, price, k, bear, mb, tol) {
      assert NearestEvent(arr, p[t], bear, mb, tol, |arr|);
      var q, j :| j < |arr| && NearestPair(arr, q, j, bear, mb, tol) && p[t] == MakeEvent(arr[q], arr[j], bear);
      MakeEventGates(arr[q], arr[j], bear, mb, tol);
    }
  }

  /** Bearish events all come before bullish ones, and within a kind p2Bar strictly ascends. */
  predicate KindGrouped(ev: seq<Event>) {
    forall s, t :: 0 <= s < t < |ev| ==>
      (ev[s].kind == Bullish ==> ev[t].kind == Bullish)
      && (ev[s].kind == ev[t].kind ==> ev[s].p2Bar < ev[t].p2Bar)
  }

  /** Concatenating a bearish list and a bullish list, each ordered by p2Bar, groups them by kind. */
  lemma Grouped(bear: seq<Event>, bull: seq<Event>)
    requires forall t :: 0 <= t < |bear| ==> bear[t].kind == Bearish
    requires forall t :: 0 <= t < |bull| ==> bull[t].kind == Bullish
    requires P2Ascending(bear) && P2Ascending(bull)
    ensures KindGrouped(bear + bull)
  {
    var ev := bear + bull;
    forall s, t | 0 <= s < t < |ev|
      ensures (ev[s].kind == Bullish ==> ev[t].kind == Bullish)
           && (ev[s].kind == ev[t].kind ==> ev[s].p2Bar < ev[t].p2Bar)
    {
      if t < |bear| {
        assert ev[s] == bear[s] && ev[t] == bear[t];
      } else if s >= |bear| {
        assert ev[s] == bull[s - |bear|] && ev[t] == bull[t - |bear|];
      } else {
        assert ev[s] == bear[s] && ev[t] == bull[t - |bear|];
      }
    }
  }

  /**
   * The events of a run: bearish ones pair pivot highs of the high series, bullish ones
   * pivot lows of the low series, each passes its gates, and the list is grouped by kind
   * (bearish first) and ordered by p2Bar within each kind.
   */
  lemma ComputeEvents(open: seq<real>, high: seq<real>, low: seq<real>, close: seq<real>,
                      volume: seq<real>, time: seq<int>, opt: Options)
    requires ComputeSpec(open, high, low, close, volume, time, opt).Ok?
    ensures KindGrouped(ComputeSpec(open, high, low, close, volume, time, opt).value.events)
    ensures forall e :: e in ComputeSpec(open, high, low, close, volume, time, opt).value.events ==>
      if e.kind == Bearish then
        FromPivots(e, PivotHighSpec(high, opt.pivotLeft, opt.pivotRight), high,
                   ComputeSpec(open, high, low, close, volume, time, opt).value.stochKSeries,
                   true, opt.minBarsBetweenPivots, opt.priceTolerance)
      else
        FromPivots(e, PivotLowSpec(low, opt.pivotLeft, opt.pivotRight), low,
                   ComputeSpec(open, high, low, close, volume, time, opt).value.stochKSeries,
                   false, opt.minBarsBetweenPivots, opt.priceTolerance)
  {
    var out := ComputeSpec(open, high, low, close, volume, time, opt).value;
    if |close| > 0 {
      var k := out.stochKSeries;
      var ph := PivotHighSpec(high, opt.pivotLeft, opt.pivotRight);
      var pl := PivotLowSpec(low, opt.pivotLeft, opt.pivotRight);
      var bear := SideEvents(ph, high, k, true, opt);
      var bull := SideEvents(pl, low, k, false, opt);
      assert out.events == bear + bull;
      SideEventsFromPivots(ph, high, k, true, opt);
      SideEventsFromPivots(pl, low, k, false, opt);
      Grouped(bear, bull);
    }
  }

  /**
   * With a %K window and a %K smoothing both longer than one bar (the defaults among them)
   * %K is undefined at every bar, so the batch engine never emits an event.
   */
  lemma NoEventsWhenSmoothed(open: seq<real>, high: seq<real>, low: seq<real>, close: seq<real>,
                             volume: seq<real>, time: seq<int>, opt: Options)
    requires opt.stochLength > 1 && opt.smoothK > 1
    requires ComputeSpec(open, high, low, close, volume, time, opt).Ok?
    ensures ComputeSpec(open, high, low, close, volume, time, opt).value.events == []
  {
    var n := |close|;
    if n > 0 {
      var k := SmaSpec(RawK(high, low, close, opt.stochLength), opt.smoothK);
      StochNeverDefined(high, low, close, opt.stochLength, opt.smoothK, opt.smoothD);
      var highs := PivotsOf(PivotHighSpec(high, opt.pivotLeft, opt.pivotRight), high, k, n);
      var lows := PivotsOf(PivotLowSpec(low, opt.pivotLeft, opt.pivotRight), low, k, n);
      assert forall t :: 0 <= t < |highs| ==> highs[t].stoch == NotYet;
      assert forall t :: 0 <= t < |lows| ==> lows[t].stoch == NotYet;
      PairsNoneWhenUndefined(highs, true, opt.minBarsBetweenPivots, opt.priceTolerance, |highs|);
      PairsNoneWhenUndefined(lows, false, opt.minBarsBetweenPivots, opt.priceTolerance, |lows|);
    }
  }

  lemma DefaultsEmitNothing(open: seq<real>, high: seq<real>, low: seq<real>, close: seq<real>,
                            volume: seq<real>, time: seq<int>)
    requires ComputeSpec(open, high, low, close, volume, time, Defaults).Ok?
    ensures ComputeSpec(open, high, low, close, volume, time, Defaults).value.events == []
  {
    NoEventsWhenSmoothed(open, high, low, close, volume, time, Defaults);
  }
}
