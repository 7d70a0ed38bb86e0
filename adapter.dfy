/**
 * The adapter that runs the batch engine over a series of OHLCV records
 * (src/engine/stochDivAdapter.ts): it refuses series shorter than 50 bars, projects the
 * records onto the engine's columns and reports the last %K / %D value and the kind of
 * the last event.
 */
module StochDivAdapter {
  import opened Common
  import opened BatchIndicators
  import opened BatchPivots
  import opened BatchEngine

  /** One OHLCV record of src/types.ts; t is the bar time in epoch milliseconds. */
  datatype OHLCV = OHLCV(t: int, o: real, h: real, l: real, c: real, v: real)

  datatype Signal = SignalBullish | SignalBearish | SignalNone

  /** stochK / stochD are undefined (NotYet) when the series was refused. */
  datatype AdapterOutput = AdapterOutput(stochK: Num, stochD: Num, signal: Signal, annotations: seq<Event>)

  /** Series shorter than this are not analysed. */
  const MinSeriesLength := 50

  function Opens(s: seq<OHLCV>): (r: seq<real>)
    ensures |r| == |s| && forall i :: 0 <= i < |s| ==> r[i] == s[i].o
  {
    seq(|s|, i requires 0 <= i < |s| => s[i].o)
  }

  function Highs(s: seq<OHLCV>): (r: seq<real>)
    ensures |r| == |s| && forall i :: 0 <= i < |s| ==> r[i] == s[i].h
  {
    seq(|s|, i requires 0 <= i < |s| => s[i].h)
  }

  function Lows(s: seq<OHLCV>): (r: seq<real>)
    ensures |r| == |s| && forall i :: 0 <= i < |s| ==> r[i] == s[i].l
  {
    seq(|s|, i requires 0 <= i < |s| => s[i].l)
  }

  function Closes(s: seq<OHLCV>): (r: seq<real>)
    ensures |r| == |s| && forall i :: 0 <= i < |s| ==> r[i] == s[i].c
  {
    seq(|s|, i requires 0 <= i < |s| => s[i].c)
  }

  function Volumes(s: seq<OHLCV>): (r: seq<real>)
    ensures |r| == |s| && forall i :: 0 <= i < |s| ==> r[i] == s[i].v
  {
    seq(|s|, i requires 0 <= i < |s| => s[i].v)
  }

  function Times(s: seq<OHLCV>): (r: seq<int>)
    ensures |r| == |s| && forall i :: 0 <= i < |s| ==> r[i] == s[i].t
  {
    seq(|s|, i requires 0 <= i < |s| => s[i].t)
  }

  /** The engine's answer on the projected columns. */
  function Engine(series: seq<OHLCV>, opts: Options): Result<Output> {
    ComputeSpec(Opens(series), Highs(series), Lows(series), Closes(series), Volumes(series), Times(series), opts)
  }

  /** events.at(-1)?.kind mapped to the signal; no event means "None". */
  function SignalOf(events: seq<Event>): (r: Signal)
    ensures r == SignalNone <==> events == []
    ensures r == SignalBullish <==> events != [] && events[|events| - 1].kind == Bullish
    ensures r == SignalBearish <==> events != [] && events[|events| - 1].kind == Bearish
  {
    if events == [] then SignalNone
    else match events[|events| - 1].kind
      case Bullish => SignalBullish
      case Bearish => SignalBearish
  }

  /** seq.at(-1): the last element, undefined for an empty sequence. */
  function LastOf(s: seq<Num>): (r: Num)
    ensures s == [] ==> r == NotYet
    ensures s != [] ==> r == s[|s| - 1]
  {
    if s == [] then NotYet else s[|s| - 1]
  }

  /**
   * The columns the adapter builds always have equal lengths, so the engine's length check
   * never fails and the adapter needs no error path.
   */
  lemma EngineNeverFails(series: seq<OHLCV>, opts: Options)
    ensures Engine(series, opts).Ok?
    ensures |Engine(series, opts).value.stochKSeries| == |series|
    ensures |Engine(series, opts).value.stochDSeries| == |series|
  {
    var n := |series|;
    if n > 0 {
      IndicatorLengths(Highs(series), Lows(series), Closes(series), opts);
    }
  }

  lemma IndicatorLengths(high: seq<real>, low: seq<real>, close: seq<real>, opts: Options)
    requires |high| == |low| == |close|
    ensures |SmaSpec(RawK(high, low, close, opts.stochLength), opts.smoothK)| == |close|
    ensures |SmaSpec(SmaSpec(RawK(high, low, close, opts.stochLength), opts.smoothK), opts.smoothD)| == |close|
  {
  }

  function RunOnSeries(series: seq<OHLCV>, opts: Options): (r: AdapterOutput)
    ensures |series| < MinSeriesLength ==> r == AdapterOutput(NotYet, NotYet, SignalNone, [])
    ensures |series| >= MinSeriesLength ==>
              Engine(series, opts).Ok?
              && r.annotations == Engine(series, opts).value.events
              && r.stochK == LastOf(Engine(series, opts).value.stochKSeries)
              && r.stochD == LastOf(Engine(series, opts).value.stochDSeries)
    ensures r.signal == SignalNone <==> r.annotations == []
    ensures r.annotations != [] ==>
              (r.signal == SignalBullish <==> r.annotations[|r.annotations| - 1].kind == Bullish)
  {
    if |series| < MinSeriesLength then AdapterOutput(NotYet, NotYet, SignalNone, [])
    else
      EngineNeverFails(series, opts);
      var out := Engine(series, opts).value;
      AdapterOutput(LastOf(out.stochKSeries), LastOf(out.stochDSeries), SignalOf(out.events), out.events)
  }

  /**
   * Every annotation the adapter reports is an event of the engine on the projected
   * columns: bearish ones pair pivot highs, bullish ones pivot lows, grouped by kind.
   */
  lemma AdapterEventsFromPivots(series: seq<OHLCV>, opts: Options)
    requires |series| >= MinSeriesLength
    ensures KindGrouped(RunOnSeries(series, opts).annotations)
    ensures forall e :: e in RunOnSeries(series, opts).annotations ==>
      if e.kind == Bearish then
        FromPivots(e, PivotHighSpec(Highs(series), opts.pivotLeft, opts.pivotRight), Highs(series),
                   Engine(series, opts).value.stochKSeries, true, opts.minBarsBetweenPivots, opts.priceTolerance)
      else
        FromPivots(e, PivotLowSpec(Lows(series), opts.pivotLeft, opts.pivotRight), Lows(series),
                   Engine(series, opts).value.stochKSeries, false, opts.minBarsBetweenPivots, opts.priceTolerance)
  {
    EngineNeverFails(series, opts);
    ComputeEvents(Opens(series), Highs(series), Lows(series), Closes(series), Volumes(series), Times(series), opts);
  }

  /**
   * Because the engine emits bearish events before bullish ones, a run with any bullish
   * event always reports "Bullish", whatever the order of the bars.
   */
  lemma BullishWinsSignal(series: seq<OHLCV>, opts: Options)
    requires exists e :: e in RunOnSeries(series, opts).annotations && e.kind == Bullish
    ensures RunOnSeries(series, opts).signal == SignalBullish
  {
    var anns := RunOnSeries(series, opts).annotations;
    AdapterEventsFromPivots(series, opts);
    var e :| e in anns && e.kind == Bullish;
    var s :| 0 <= s < |anns| && anns[s] == e;
    assert anns[s].kind == Bullish;
  }

  /** With the default options the adapter reports "None" and no annotation for every series. */
  lemma DefaultsSignalNone(series: seq<OHLCV>)
    ensures RunOnSeries(series, Defaults).signal == SignalNone
    ensures RunOnSeries(series, Defaults).annotations == []
  {
    if |series| >= MinSeriesLength {
      EngineNeverFails(series, Defaults);
      DefaultsEmitNothing(Opens(series), Highs(series), Lows(series), Closes(series), Volumes(series), Times(series));
    }
  }
}
