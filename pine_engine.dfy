/**
 * The bar loop of the forward engine (src/engine/pine_port/stoch_div_pro_nison.ts, lines
 * 275-558). Walking the bars once, it remembers the last two confirmed pivot highs and
 * lows, arms a pending divergence whenever the two pivots of a side diverge from %K,
 * confirms it on a %K / %D cross, and on the last bar reports unconfirmed ("early")
 * divergences against the current bar.
 *
 * Step and Run define the loop's effect bar by bar; RunStochDivPro is the loop itself.
 */
module PineEngine {
  import opened Common
  import opened PineHelpers
  import opened PineScoring

  datatype Kind = Bullish | Bearish

  /** A confirmed pivot: its bar, its price and %K at that bar. */
  datatype Pivot = Pivot(bar: int, price: real, stoch: Num)

  /** The last and the previous confirmed pivot of one side (lastPh / prevPh, lastPl / prevPl). */
  datatype Track = Track(last: Option<Pivot>, prev: Option<Pivot>)

  /** The p1 / p2 buffers of a pending divergence. */
  datatype Candidate = Candidate(p1Bar: int, p1Stoch: Num, p2Bar: int, p2Stoch: Num)

  datatype Meta = Meta(
    strengthText: string, strengthEmoji: string, strengthScore: int,
    nison: Option<NisonInfo>, doublePattern: Option<string>)

  datatype Annotation = Annotation(
    kind: Kind, isEarly: bool, p1Bar: int, p2Bar: int, p1Stoch: Num, p2Stoch: Num,
    p1Price: Num, p2Price: Num, meta: Meta)

  datatype StrengthLabel = StrengthLabel(bar: int, text: string, score: int)

  /** Everything the loop carries from one bar to the next, a pending flag and its buffers as one Option. */
  datatype State = State(
    highs: Track, lows: Track, bearPending: Option<Candidate>, bullPending: Option<Candidate>,
    annotations: seq<Annotation>, labels: seq<StrengthLabel>)

  const Init := State(Track(None, None), Track(None, None), None, None, [], [])

  /** What the loop needs: series of one length, and pivot spans that are not negative. */
  predicate Runnable(b: Bars, cfg: Config) {
    WellFormed(b) && cfg.pivotLeft >= 0 && cfg.pivotRight >= 0
  }

  function KindOf(bear: bool): Kind {
    if bear then Bearish else Bullish
  }

  /** A newly confirmed pivot pushes the last one into the previous slot. */
  function Shift(t: Track, confirmed: bool, series: seq<real>, k: seq<Num>, bar: int): Track
    requires confirmed ==> 0 <= bar < |series| && bar < |k|
  {
    if confirmed then Track(Some(Pivot(bar, series[bar], k[bar])), t.last) else t
  }

  /**
   * abs((p - ref) / ref) <= tol. A zero reference price fails: the quotient is NaN or
   * infinite.
   */
  predicate PriceWithin(ref: real, p: real, tol: real) {
    ref != 0.0 && Abs((p - ref) / ref) <= tol
  }

  /** %K makes a lower high (bearish) or a higher low (bullish). */
  predicate StochDiverges(bear: bool, later: Num, earlier: Num) {
    if bear then Lt(later, earlier) else Gt(later, earlier)
  }

  /** The divergence the two remembered pivots of a side form on this bar, if any. */
  function Armed(t: Track, bear: bool, cfg: Config): Option<Candidate> {
    if t.last.Some? && t.prev.Some?
       && t.last.value.bar - t.prev.value.bar >= cfg.minBarsBetweenPivots
       && PriceWithin(t.prev.value.price, t.last.value.price, cfg.priceTolerance)
       && StochDiverges(bear, t.last.value.stoch, t.prev.value.stoch)
    then Some(Candidate(t.prev.value.bar, t.prev.value.stoch, t.last.value.bar, t.last.value.stoch))
    else None
  }

  /** Arming sets the flag and overwrites the buffers; otherwise the pending state stays. */
  function Arm(t: Track, pending: Option<Candidate>, bear: bool, cfg: Config): Option<Candidate> {
    var c := Armed(t, bear, cfg);
    if c.Some? then c else pending
  }

  function PatternLabel(bear: bool): string {
    if bear then "Double Top" else "Double Bottom"
  }

  /** The meta record: strength assessment, the Nison pattern of bar eBar if any, the label. */
  function MetaOf(b: Bars, cfg: Config, nison: NisonFn, bear: bool, score: int, eBar: int): Meta {
    var ni := nison(eBar);
    Meta(BandText(BandOf(score)), BandEmoji(BandOf(score)), score,
         if ni.pattern != "" then Some(ni) else None,
         if cfg.showDoublePatternLabels then Some(PatternLabel(bear)) else None)
  }

  /** The last bar is at the side's extreme over the pivotLeft + 1 bars ending there. */
  predicate AtExtreme(b: Bars, cfg: Config, bear: bool, i: int)
    requires WellFormed(b) && 0 <= i < |b.close|
  {
    if bear then AtHighest(b.high, cfg.pivotLeft + 1, i) else AtLowest(b.low, cfg.pivotLeft + 1, i)
  }

  function Series(b: Bars, bear: bool): seq<real> {
    if bear then b.high else b.low
  }

  /** The early (repainting) divergence of one side against bar i. */
  function EarlyEvent(b: Bars, cfg: Config, nison: NisonFn, t: Track, bear: bool, i: int): Option<Annotation>
    requires WellFormed(b) && 0 <= i < |b.close|
  {
    if AtExtreme(b, cfg, bear, i) && t.last.Some?
       && i - t.last.value.bar >= cfg.minBarsBetweenPivots
       && PriceWithin(t.last.value.price, Series(b, bear)[i], cfg.priceTolerance)
       && StochDiverges(bear, b.k[i], t.last.value.stoch)
    then
      var score := Strength(bear, t.last.value.stoch, b.k[i], b.k[i], AtNum(b.k, i - 1), cfg.overSold, cfg.overBought);
      Some(Annotation(KindOf(bear), true, t.last.value.bar, i, t.last.value.stoch, b.k[i],
                      Avail(t.last.value.price), Avail(Series(b, bear)[i]), MetaOf(b, cfg, nison, bear, score, i)))
    else None
  }

  function Opt(o: Option<Annotation>): seq<Annotation> {
    if o.Some? then [o.value] else []
  }

  /** The %K / %D cross that confirms a side at bar i: over for bullish, under for bearish. */
  predicate Crosses(b: Bars, bear: bool, i: int)
    requires WellFormed(b) && 0 <= i < |b.close|
  {
    i > 0 && if bear then CrossUnder(b.k[i - 1], b.k[i], b.d[i - 1], b.d[i])
             else CrossOver(b.k[i - 1], b.k[i], b.d[i - 1], b.d[i])
  }

  predicate Confirms(pending: Option<Candidate>, cross: bool, cfg: Config, i: int) {
    pending.Some? && (!cfg.waitForCrossover || cross) && i >= pending.value.p2Bar
  }

  /** The confirmed divergence emitted at bar i for the buffered candidate c. */
  function ConfirmedEvent(b: Bars, cfg: Config, nison: NisonFn, c: Candidate, bear: bool, i: int): Annotation
    requires WellFormed(b) && 0 <= i < |b.close|
  {
    var score := Strength(bear, c.p1Stoch, AtNum(b.k, c.p2Bar), b.k[i], AtNum(b.k, i - 1), cfg.overSold, cfg.overBought);
    Annotation(KindOf(bear), false, c.p1Bar, c.p2Bar, c.p1Stoch, c.p2Stoch,
               At(Series(b, bear), c.p1Bar), At(Series(b, bear), c.p2Bar), MetaOf(b, cfg, nison, bear, score, c.p2Bar))
  }

  function LabelOf(a: Annotation): StrengthLabel {
    StrengthLabel(a.p1Bar - 2, a.meta.strengthEmoji + "\n" + a.meta.strengthText, a.meta.strengthScore)
  }

  /** The pivot slots of both sides after bar i. */
  function ShiftHighs(b: Bars, cfg: Config, t: Track, i: int): Track
    requires Runnable(b, cfg) && 0 <= i < |b.close|
  {
    Shift(t, ConfirmedHigh(b.high, cfg.pivotLeft, cfg.pivotRight, i), b.high, b.k, i - cfg.pivotRight)
  }

  function ShiftLows(b: Bars, cfg: Config, t: Track, i: int): Track
    requires Runnable(b, cfg) && 0 <= i < |b.close|
  {
    Shift(t, ConfirmedLow(b.low, cfg.pivotLeft, cfg.pivotRight, i), b.low, b.k, i - cfg.pivotRight)
  }

  /** The early events of bar i: bearish first, then bullish, and only on the last bar. */
  function EarlyEvents(b: Bars, cfg: Config, nison: NisonFn, highs: Track, lows: Track, i: int): seq<Annotation>
    requires WellFormed(b) && 0 <= i < |b.close|
  {
    if i == |b.close| - 1 && cfg.enableFullEarlySignal
    then Opt(EarlyEvent(b, cfg, nison, highs, true, i)) + Opt(EarlyEvent(b, cfg, nison, lows, false, i))
    else []
  }

  /** What the confirmation block of one side leaves: its pending state, events and labels. */
  datatype SideOut = SideOut(pending: Option<Candidate>, events: seq<Annotation>, labels: seq<StrengthLabel>)

  function ConfirmSide(b: Bars, cfg: Config, nison: NisonFn, pending: Option<Candidate>, bear: bool, i: int): SideOut
    requires WellFormed(b) && 0 <= i < |b.close|
  {
    if Confirms(pending, Crosses(b, bear, i), cfg, i) then
      var a := ConfirmedEvent(b, cfg, nison, pending.value, bear, i);
      SideOut(None, [a], if cfg.showStrengthLabel then [LabelOf(a)] else [])
    else SideOut(pending, [], [])
  }

  /** One iteration of the bar loop. */
  function Step(b: Bars, cfg: Config, nison: NisonFn, st: State, i: int): State
    requires Runnable(b, cfg) && 0 <= i < |b.close|
  {
    var highs := ShiftHighs(b, cfg, st.highs, i);
    var lows := ShiftLows(b, cfg, st.lows, i);
    var bull := ConfirmSide(b, cfg, nison, Arm(lows, st.bullPending, false, cfg), false, i);
    var bear := ConfirmSide(b, cfg, nison, Arm(highs, st.bearPending, true, cfg), true, i);
    State(highs, lows, bear.pending, bull.pending,
          st.annotations + EarlyEvents(b, cfg, nison, highs, lows, i) + bull.events + bear.events,
          st.labels + bull.labels + bear.labels)
  }

  /** Step, assembled from the results of its phases. */
  lemma StepFromPhases(b: Bars, cfg: Config, nison: NisonFn, st: State, i: int, highs: Track, lows: Track,
                       bearP: Option<Candidate>, bullP: Option<Candidate>)
    requires Runnable(b, cfg) && 0 <= i < |b.close|
    requires highs == ShiftHighs(b, cfg, st.highs, i) && lows == ShiftLows(b, cfg, st.lows, i)
    requires bearP == Arm(highs, st.bearPending, true, cfg) && bullP == Arm(lows, st.bullPending, false, cfg)
    ensures Step(b, cfg, nison, st, i) ==
      State(highs, lows, ConfirmSide(b, cfg, nison, bearP, true, i).pending, ConfirmSide(b, cfg, nison, bullP, false, i).pending,
            st.annotations + EarlyEvents(b, cfg, nison, highs, lows, i)
              + ConfirmSide(b, cfg, nison, bullP, false, i).events + ConfirmSide(b, cfg, nison, bearP, true, i).events,
            st.labels + ConfirmSide(b, cfg, nison, bullP, false, i).labels + ConfirmSide(b, cfg, nison, bearP, true, i).labels)
  {
  }

  /**
   * The state after the first m bars. Run and AfterBar are defined together, so that the
   * verifier expands a run one bar at a time, as RunSucc states.
   */
  function Run(b: Bars, cfg: Config, nison: NisonFn, m: nat): State
    requires Runnable(b, cfg) && m <= |b.close|
    decreases m, 1
  {
    if m == 0 then Init else AfterBar(b, cfg, nison, m)
  }

  /** Bar m - 1 applied to the state after the first m - 1 bars. */
  function AfterBar(b: Bars, cfg: Config, nison: NisonFn, m: nat): State
    requires Runnable(b, cfg) && 0 < m <= |b.close|
    decreases m, 0
  {
    Step(b, cfg, nison, Run(b, cfg, nison, m - 1), m - 1)
  }

  lemma RunSucc(b: Bars, cfg: Config, nison: NisonFn, m: nat)
    requires Runnable(b, cfg) && 0 < m <= |b.close|
    ensures Run(b, cfg, nison, m) == Step(b, cfg, nison, Run(b, cfg, nison, m - 1), m - 1)
  {
    assert Run(b, cfg, nison, m) == AfterBar(b, cfg, nison, m);
  }

  /** The plots and the collected events. */
  datatype PineOutput = PineOutput(
    k: seq<Num>, d: seq<Num>, overbought: seq<real>, oversold: seq<real>, mid: seq<real>,
    annotations: seq<Annotation>, strengthLabels: seq<StrengthLabel>)

  function PineSpec(b: Bars, cfg: Config): PineOutput
    requires Runnable(b, cfg)
  {
    var n := |b.close|;
    var fin := Run(b, cfg, NisonOf(b, cfg), n);
    PineOutput(b.k, b.d, seq(n, _ => cfg.overBought), seq(n, _ => cfg.overSold), seq(n, _ => 50.0),
               fin.annotations, fin.labels)
  }

  /** The early block of one side, as the loop runs it on the last bar. */
  method EarlyCheck(b: Bars, cfg: Config, nison: NisonFn, last: Option<Pivot>, prev: Option<Pivot>, bear: bool, i: int)
    returns (e: Option<Annotation>)
    requires WellFormed(b) && 0 <= i < |b.close|
    ensures e == EarlyEvent(b, cfg, nison, Track(last, prev), bear, i)
  {
    e := None;
    var isPotential: bool;
    if bear {
      var h := Highest(b.high, cfg.pivotLeft + 1, i);
      isPotential := h == Some(b.high[i]);
    } else {
      var l := Lowest(b.low, cfg.pivotLeft + 1, i);
      isPotential := l == Some(b.low[i]);
    }
    var price := if bear then b.high[i] else b.low[i];
    if isPotential && last.Some? && i - last.value.bar >= cfg.minBarsBetweenPivots {
      var priceCond := PriceWithin(last.value.price, price, cfg.priceTolerance);
      var stochCond := if bear then Lt(b.k[i], last.value.stoch) else Gt(b.k[i], last.value.stoch);
      if priceCond && stochCond {
        var s := CalculateStrength(b.k, i, bear, last.value.stoch, b.k[i], b.k[i], cfg.overSold, cfg.overBought);
        var ni := nison(i);
        var meta := Meta(s.text, s.emoji, s.score, if ni.pattern != "" then Some(ni) else None,
                         if cfg.showDoublePatternLabels then Some(PatternLabel(bear)) else None);
        e := Some(Annotation(KindOf(bear), true, last.value.bar, i, last.value.stoch, b.k[i],
                             Avail(last.value.price), Avail(price), meta));
      }
    }
  }

  /** The pivot update of one side: a value in piv[i] confirms the bar i - right. */
  method ShiftBlock(piv: seq<Num>, series: seq<real>, k: seq<Num>, i: int, right: int,
                    last: Option<Pivot>, prev: Option<Pivot>) returns (last': Option<Pivot>, prev': Option<Pivot>)
    requires 0 <= i < |piv| && (piv[i].Avail? ==> 0 <= i - right < |series| && i - right < |k|)
    ensures Track(last', prev') == Shift(Track(last, prev), piv[i].Avail?, series, k, i - right)
  {
    last', prev' := last, prev;
    if piv[i].Avail? {
      prev' := last;
      last' := Some(Pivot(i - right, series[i - right], k[i - right]));
    }
  }

  /** The arming check of one side, on the pending flag and its buffers. */
  method ArmBlock(cfg: Config, last: Option<Pivot>, prev: Option<Pivot>, pending: bool, buf: Candidate, bear: bool)
    returns (pending': bool, buf': Candidate)
    ensures (if pending' then Some(buf') else None)
         == Arm(Track(last, prev), if pending then Some(buf) else None, bear, cfg)
  {
    pending', buf' := pending, buf;
    if last.Some? && prev.Some? && last.value.bar - prev.value.bar >= cfg.minBarsBetweenPivots {
      var priceCond := PriceWithin(prev.value.price, last.value.price, cfg.priceTolerance);
      var stochCond := if bear then Lt(last.value.stoch, prev.value.stoch) else Gt(last.value.stoch, prev.value.stoch);
      if priceCond && stochCond {
        pending' := true;
        buf' := Candidate(prev.value.bar, prev.value.stoch, last.value.bar, last.value.stoch);
      }
    }
  }

  /** The early block of the last bar: the bearish check, then the bullish one. */
  method EarlyBlock(b: Bars, cfg: Config, nison: NisonFn, lastPh: Option<Pivot>, prevPh: Option<Pivot>,
                    lastPl: Option<Pivot>, prevPl: Option<Pivot>, i: int) returns (events: seq<Annotation>)
    requires WellFormed(b) && 0 <= i && i == |b.close| - 1 && cfg.enableFullEarlySignal
    ensures events == EarlyEvents(b, cfg, nison, Track(lastPh, prevPh), Track(lastPl, prevPl), i)
  {
    events := [];
    var top := EarlyCheck(b, cfg, nison, lastPh, prevPh, true, i);
    if top.Some? {
      events := events + [top.value];
    }
    var bottom := EarlyCheck(b, cfg, nison, lastPl, prevPl, false, i);
    if bottom.Some? {
      events := events + [bottom.value];
    }
  }

  /** The event the confirmation block builds for the buffered candidate c at bar i. */
  method ConfirmedAnnotation(b: Bars, cfg: Config, nison: NisonFn, c: Candidate, bear: bool, i: int) returns (a: Annotation)
    requires WellFormed(b) && 0 <= i < |b.close|
    ensures a == ConfirmedEvent(b, cfg, nison, c, bear, i)
  {
    var stochAtDivEnd := AtNum(b.k, i - (i - c.p2Bar));
    var s := CalculateStrength(b.k, i, bear, c.p1Stoch, stochAtDivEnd, b.k[i], cfg.overSold, cfg.overBought);
    var eBar := c.p2Bar;
    var ni := nison(eBar);
    var series := if bear then b.high else b.low;
    var meta := Meta(s.text, s.emoji, s.score, if ni.pattern != "" then Some(ni) else None,
                     if cfg.showDoublePatternLabels then Some(PatternLabel(bear)) else None);
    a := Annotation(KindOf(bear), false, c.p1Bar, c.p2Bar, c.p1Stoch, c.p2Stoch,
                    At(series, c.p1Bar), At(series, c.p2Bar), meta);
  }

  /** The confirmation block of one side, on the pending flag and its buffers. */
  method ConfirmBlock(b: Bars, cfg: Config, nison: NisonFn, pending: bool, c: Candidate, cross: bool, bear: bool, i: int)
    returns (stillPending: bool, events: seq<Annotation>, labels: seq<StrengthLabel>)
    requires WellFormed(b) && 0 <= i < |b.close| && cross == Crosses(b, bear, i)
    ensures SideOut(if stillPending then Some(c) else None, events, labels)
         == ConfirmSide(b, cfg, nison, if pending then Some(c) else None, bear, i)
  {
    stillPending, events, labels := pending, [], [];
    if pending && (!cfg.waitForCrossover || cross) && i >= c.p2Bar {
      var a := ConfirmedAnnotation(b, cfg, nison, c, bear, i);
      events := [a];
      if cfg.showStrengthLabel {
        labels := [StrengthLabel(c.p1Bar - 2, a.meta.strengthEmoji + "\n" + a.meta.strengthText, a.meta.strengthScore)];
      }
      stillPending := false;
    }
  }

  /** The loop's variables as a State: a flag and its buffers become one Option. */
  function Pack(lastPh: Option<Pivot>, prevPh: Option<Pivot>, lastPl: Option<Pivot>, prevPl: Option<Pivot>,
                bearPending: bool, bearBuf: Candidate, bullPending: bool, bullBuf: Candidate,
                annotations: seq<Annotation>, labels: seq<StrengthLabel>): State
  {
    State(Track(lastPh, prevPh), Track(lastPl, prevPl),
          if bearPending then Some(bearBuf) else None, if bullPending then Some(bullBuf) else None,
          annotations, labels)
  }

  /** The first half of the loop body: the pivot update, then the arming, of both sides. */
  method PivotPhase(b: Bars, cfg: Config, pivHighPrice: seq<Num>, pivLowPrice: seq<Num>, i: int,
                    lastPh: Option<Pivot>, prevPh: Option<Pivot>, lastPl: Option<Pivot>, prevPl: Option<Pivot>,
                    bearPending: bool, bearBuf: Candidate, bullPending: bool, bullBuf: Candidate)
    returns (lastPh': Option<Pivot>, prevPh': Option<Pivot>, lastPl': Option<Pivot>, prevPl': Option<Pivot>,
             bearPending': bool, bearBuf': Candidate, bullPending': bool, bullBuf': Candidate)
    requires Runnable(b, cfg) && 0 <= i < |b.close|
    requires pivHighPrice == ConfirmedHighSpec(b.high, cfg.pivotLeft, cfg.pivotRight)
    requires pivLowPrice == ConfirmedLowSpec(b.low, cfg.pivotLeft, cfg.pivotRight)
    ensures Track(lastPh', prevPh') == ShiftHighs(b, cfg, Track(lastPh, prevPh), i)
    ensures Track(lastPl', prevPl') == ShiftLows(b, cfg, Track(lastPl, prevPl), i)
    ensures (if bearPending' then Some(bearBuf') else None)
         == Arm(Track(lastPh', prevPh'), if bearPending then Some(bearBuf) else None, true, cfg)
    ensures (if bullPending' then Some(bullBuf') else None)
         == Arm(Track(lastPl', prevPl'), if bullPending then Some(bullBuf) else None, false, cfg)
  {
    var right := cfg.pivotRight;
    // pivots confirmed on this bar
    lastPh', prevPh' := ShiftBlock(pivHighPrice, b.high, b.k, i, right, lastPh, prevPh);
    lastPl', prevPl' := ShiftBlock(pivLowPrice, b.low, b.k, i, right, lastPl, prevPl);
    // arming at highs (bearish) and at lows (bullish)
    bearPending', bearBuf' := ArmBlock(cfg, lastPh', prevPh', bearPending, bearBuf, true);
    bullPending', bullBuf' := ArmBlock(cfg, lastPl', prevPl', bullPending, bullBuf, false);
  }

  /** The second half of the loop body: the early signals on the last bar, then the confirmations. */
  method SignalPhase(b: Bars, cfg: Config, nison: NisonFn, i: int,
                     lastPh: Option<Pivot>, prevPh: Option<Pivot>, lastPl: Option<Pivot>, prevPl: Option<Pivot>,
                     bearPending: bool, bearBuf: Candidate, bullPending: bool, bullBuf: Candidate,
                     annotations: seq<Annotation>, labels: seq<StrengthLabel>)
    returns (bearPending': bool, bullPending': bool, annotations': seq<Annotation>, labels': seq<StrengthLabel>)
    requires Runnable(b, cfg) && 0 <= i < |b.close|
    ensures var bear := ConfirmSide(b, cfg, nison, if bearPending then Some(bearBuf) else None, true, i);
            var bull := ConfirmSide(b, cfg, nison, if bullPending then Some(bullBuf) else None, false, i);
            (if bearPending' then Some(bearBuf) else None) == bear.pending
            && (if bullPending' then Some(bullBuf) else None) == bull.pending
            && annotations' == annotations + EarlyEvents(b, cfg, nison, Track(lastPh, prevPh), Track(lastPl, prevPl), i)
                                 + bull.events + bear.events
            && labels' == labels + bull.labels + bear.labels
  {
    var n := |b.close|;
    // early signals on the last bar
    annotations' := annotations;
    if i == n - 1 && cfg.enableFullEarlySignal {
      var early := EarlyBlock(b, cfg, nison, lastPh, prevPh, lastPl, prevPl, i);
      annotations' := annotations' + early;
    }
    // confirmation on the %K / %D cross
    var bullCross := i > 0 && CrossOver(b.k[i - 1], b.k[i], b.d[i - 1], b.d[i]);
    var bearCross := i > 0 && CrossUnder(b.k[i - 1], b.k[i], b.d[i - 1], b.d[i]);
    var bullEvents, bullLabels, bearEvents, bearLabels;
    bullPending', bullEvents, bullLabels := ConfirmBlock(b, cfg, nison, bullPending, bullBuf, bullCross, false, i);
    bearPending', bearEvents, bearLabels := ConfirmBlock(b, cfg, nison, bearPending, bearBuf, bearCross, true, i);
    annotations' := annotations' + bullEvents + bearEvents;
    labels' := labels + bullLabels + bearLabels;
  }

  /** One pass of the loop body over bar i. */
  method Bar(b: Bars, cfg: Config, nison: NisonFn, pivHighPrice: seq<Num>, pivLowPrice: seq<Num>, i: int,
             lastPh: Option<Pivot>, prevPh: Option<Pivot>, lastPl: Option<Pivot>, prevPl: Option<Pivot>,
             bearPending: bool, bearBuf: Candidate, bullPending: bool, bullBuf: Candidate,
             annotations: seq<Annotation>, labels: seq<StrengthLabel>)
    returns (lastPh': Option<Pivot>, prevPh': Option<Pivot>, lastPl': Option<Pivot>, prevPl': Option<Pivot>,
             bearPending': bool, bearBuf': Candidate, bullPending': bool, bullBuf': Candidate,
             annotations': seq<Annotation>, labels': seq<StrengthLabel>)
    requires Runnable(b, cfg) && 0 <= i < |b.close|
    requires pivHighPrice == ConfirmedHighSpec(b.high, cfg.pivotLeft, cfg.pivotRight)
    requires pivLowPrice == ConfirmedLowSpec(b.low, cfg.pivotLeft, cfg.pivotRight)
    ensures Pack(lastPh', prevPh', lastPl', prevPl', bearPending', bearBuf', bullPending', bullBuf', annotations', labels')
         == Step(b, cfg, nison, Pack(lastPh, prevPh, lastPl, prevPl, bearPending, bearBuf, bullPending, bullBuf, annotations, labels), i)
  {
    ghost var st := Pack(lastPh, prevPh, lastPl, prevPl, bearPending, bearBuf, bullPending, bullBuf, annotations, labels);
    lastPh', prevPh', lastPl', prevPl', bearPending', bearBuf', bullPending', bullBuf' :=
      PivotPhase(b, cfg, pivHighPrice, pivLowPrice, i, lastPh, prevPh, lastPl, prevPl,
                 bearPending, bearBuf, bullPending, bullBuf);
    ghost var bearP := if bearPending' then Some(bearBuf') else None;
    ghost var bullP := if bullPending' then Some(bullBuf') else None;
    bearPending', bullPending', annotations', labels' :=
      SignalPhase(b, cfg, nison, i, lastPh', prevPh', lastPl', prevPl',
                  bearPending', bearBuf', bullPending', bullBuf', annotations, labels);
    StepFromPhases(b, cfg, nison, st, i, Track(lastPh', prevPh'), Track(lastPl', prevPl'), bearP, bullP);
  }

  /** The bar loop over the whole series. */
  method RunStochDivPro(b: Bars, cfg: Config) returns (out: PineOutput)
    requires Runnable(b, cfg)
    ensures out == PineSpec(b, cfg)
  {
    var n := |b.close|;
    var pivHighPrice := PivotHigh(b.high, cfg.pivotLeft, cfg.pivotRight);
    var pivLowPrice := PivotLow(b.low, cfg.pivotLeft, cfg.pivotRight);
    var nison := NisonOf(b, cfg);

    var lastPh: Option<Pivot> := None;
    var prevPh: Option<Pivot> := None;
    var lastPl: Option<Pivot> := None;
    var prevPl: Option<Pivot> := None;
    var bullPending, bearPending := false, false;
    var bullBuf := Candidate(0, NotYet, 0, NotYet);
    var bearBuf := Candidate(0, NotYet, 0, NotYet);
    var annotations: seq<Annotation> := [];
    var strengthLabels: seq<StrengthLabel> := [];

    for i := 0 to n
      invariant Pack(lastPh, prevPh, lastPl, prevPl, bearPending, bearBuf, bullPending, bullBuf,
                     annotations, strengthLabels) == Run(b, cfg, nison, i)
    {
      lastPh, prevPh, lastPl, prevPl, bearPending, bearBuf, bullPending, bullBuf, annotations, strengthLabels :=
        Bar(b, cfg, nison, pivHighPrice, pivLowPrice, i, lastPh, prevPh, lastPl, prevPl,
            bearPending, bearBuf, bullPending, bullBuf, annotations, strengthLabels);
      RunSucc(b, cfg, nison, i + 1);
    }
    out := PineOutput(b.k, b.d, seq(n, _ => cfg.overBought), seq(n, _ => cfg.overSold), seq(n, _ => 50.0),
                      annotations, strengthLabels);
  }
}
