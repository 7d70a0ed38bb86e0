/**
 * What the bar loop of the forward engine guarantees, proved on Step and Run: the pivot
 * slots always hold the two most recent confirmed pivots; a pending divergence always
 * joins two consecutive confirmed pivots that pass every gate; and every emitted
 * annotation is such a divergence, or an early one on the last bar.
 */
module PineEngineFacts {
  import opened Common
  import opened PineHelpers
  import opened PineScoring
  import opened PineEngine

  /** Bar j confirms a pivot of the side (a pivot high for bearish, a pivot low for bullish). */
  predicate Confirmed(b: Bars, cfg: Config, bear: bool, j: int)
    requires Runnable(b, cfg)
  {
    if bear then ConfirmedHigh(b.high, cfg.pivotLeft, cfg.pivotRight, j)
    else ConfirmedLow(b.low, cfg.pivotLeft, cfg.pivotRight, j)
  }

  /** No bar strictly between lo and hi confirms a pivot of the side. */
  predicate NoPivotBetween(b: Bars, cfg: Config, bear: bool, lo: int, hi: int)
    requires Runnable(b, cfg)
  {
    forall j :: lo < j < hi ==> !Confirmed(b, cfg, bear, j)
  }

  /** A remembered pivot: confirmed right bars after its own bar, with its price and %K. */
  predicate PivotOk(b: Bars, cfg: Config, bear: bool, p: Pivot)
    requires Runnable(b, cfg)
  {
    Confirmed(b, cfg, bear, p.bar + cfg.pivotRight)
    && p.price == Series(b, bear)[p.bar] && p.stoch == b.k[p.bar]
  }

  /** After m bars, the slots hold the newest and the second newest confirmed pivot. */
  predicate TrackOk(b: Bars, cfg: Config, bear: bool, t: Track, m: int)
    requires Runnable(b, cfg)
  {
    var r := cfg.pivotRight;
    (t.last.Some? ==>
       PivotOk(b, cfg, bear, t.last.value) && t.last.value.bar + r < m
       && NoPivotBetween(b, cfg, bear, t.last.value.bar + r, m))
    && (t.last.None? ==> t.prev.None? && NoPivotBetween(b, cfg, bear, -1, m))
    && (t.prev.Some? ==>
          t.last.Some? && PivotOk(b, cfg, bear, t.prev.value) && t.prev.value.bar < t.last.value.bar
          && NoPivotBetween(b, cfg, bear, t.prev.value.bar + r, t.last.value.bar + r))
    && (t.prev.None? && t.last.Some? ==> NoPivotBetween(b, cfg, bear, -1, t.last.value.bar + r))
  }

  /**
   * p1 and p2 are consecutive confirmed pivots of the side, far enough apart, at nearly the
   * same price, with %K diverging.
   */
  predicate DivergencePair(b: Bars, cfg: Config, bear: bool, p1: int, p2: int)
    requires Runnable(b, cfg)
  {
    var r := cfg.pivotRight;
    Confirmed(b, cfg, bear, p1 + r) && Confirmed(b, cfg, bear, p2 + r) && p1 < p2
    && NoPivotBetween(b, cfg, bear, p1 + r, p2 + r)
    && p2 - p1 >= cfg.minBarsBetweenPivots
    && PriceWithin(Series(b, bear)[p1], Series(b, bear)[p2], cfg.priceTolerance)
    && StochDiverges(bear, b.k[p2], b.k[p1])
  }

  /** A pending candidate after m bars: a divergence pair whose %K values are buffered. */
  predicate CandidateOk(b: Bars, cfg: Config, bear: bool, c: Candidate, m: int)
    requires Runnable(b, cfg)
  {
    DivergencePair(b, cfg, bear, c.p1Bar, c.p2Bar)
    && c.p1Stoch == b.k[c.p1Bar] && c.p2Stoch == b.k[c.p2Bar] && c.p2Bar + cfg.pivotRight < m
  }

  /** What every emitted annotation satisfies. */
  predicate AnnotationOk(b: Bars, cfg: Config, a: Annotation)
    requires Runnable(b, cfg)
  {
    var bear := a.kind == Bearish;
    var n := |b.close|;
    if a.isEarly then
      a.p2Bar == n - 1 && cfg.enableFullEarlySignal
      && Confirmed(b, cfg, bear, a.p1Bar + cfg.pivotRight)
      && NoPivotBetween(b, cfg, bear, a.p1Bar + cfg.pivotRight, n)
      && a.p2Bar - a.p1Bar >= cfg.minBarsBetweenPivots
      && AtExtreme(b, cfg, bear, a.p2Bar)
      && PriceWithin(Series(b, bear)[a.p1Bar], Series(b, bear)[a.p2Bar], cfg.priceTolerance)
      && StochDiverges(bear, b.k[a.p2Bar], b.k[a.p1Bar])
      && a.p1Stoch == b.k[a.p1Bar] && a.p2Stoch == b.k[a.p2Bar]
      && a.p1Price == Avail(Series(b, bear)[a.p1Bar]) && a.p2Price == Avail(Series(b, bear)[a.p2Bar])
    else
      DivergencePair(b, cfg, bear, a.p1Bar, a.p2Bar)
      && a.p1Stoch == b.k[a.p1Bar] && a.p2Stoch == b.k[a.p2Bar]
      && a.p1Price == Avail(Series(b, bear)[a.p1Bar]) && a.p2Price == Avail(Series(b, bear)[a.p2Bar])
  }

  predicate AllAnnotationsOk(b: Bars, cfg: Config, anns: seq<Annotation>)
    requires Runnable(b, cfg)
  {
    forall j :: 0 <= j < |anns| ==> AnnotationOk(b, cfg, anns[j])
  }

  /** The loop invariant after m bars. */
  predicate Inv(b: Bars, cfg: Config, st: State, m: int)
    requires Runnable(b, cfg)
  {
    TrackOk(b, cfg, true, st.highs, m) && TrackOk(b, cfg, false, st.lows, m)
    && (st.bearPending.Some? ==> CandidateOk(b, cfg, true, st.bearPending.value, m))
    && (st.bullPending.Some? ==> CandidateOk(b, cfg, false, st.bullPending.value, m))
    && AllAnnotationsOk(b, cfg, st.annotations)
  }

  // ---------------------------------------------------------------- one bar

  function ShiftSide(b: Bars, cfg: Config, bear: bool, t: Track, i: int): Track
    requires Runnable(b, cfg) && 0 <= i < |b.close|
  {
    if bear then ShiftHighs(b, cfg, t, i) else ShiftLows(b, cfg, t, i)
  }

  /** The pivot update keeps the slots on the two newest pivots. */
  lemma TrackStep(b: Bars, cfg: Config, bear: bool, t: Track, i: int)
    requires Runnable(b, cfg) && 0 <= i < |b.close| && TrackOk(b, cfg, bear, t, i)
    ensures TrackOk(b, cfg, bear, ShiftSide(b, cfg, bear, t, i), i + 1)
  {
    var r := cfg.pivotRight;
    if Confirmed(b, cfg, bear, i) {
      var p := Pivot(i - r, Series(b, bear)[i - r], b.k[i - r]);
      assert ShiftSide(b, cfg, bear, t, i) == Track(Some(p), t.last);
      PushOk(b, cfg, bear, t, p, i);
    } else {
      assert ShiftSide(b, cfg, bear, t, i) == t;
      StayOk(b, cfg, bear, t, i);
    }
  }

  /** A pivot confirmed at bar i becomes the newest; the old newest becomes the second. */
  lemma PushOk(b: Bars, cfg: Config, bear: bool, t: Track, p: Pivot, i: int)
    requires Runnable(b, cfg) && 0 <= i < |b.close| && TrackOk(b, cfg, bear, t, i)
    requires Confirmed(b, cfg, bear, i) && p.bar == i - cfg.pivotRight
    requires p.price == Series(b, bear)[p.bar] && p.stoch == b.k[p.bar]
    ensures TrackOk(b, cfg, bear, Track(Some(p), t.last), i + 1)
  {
    assert PivotOk(b, cfg, bear, p);
  }

  /** A bar that confirms no pivot leaves the slots valid one bar later. */
  lemma StayOk(b: Bars, cfg: Config, bear: bool, t: Track, i: int)
    requires Runnable(b, cfg) && 0 <= i < |b.close| && TrackOk(b, cfg, bear, t, i)
    requires !Confirmed(b, cfg, bear, i)
    ensures TrackOk(b, cfg, bear, t, i + 1)
  {
  }

  /** A freshly armed candidate is the divergence of the two remembered pivots. */
  lemma ArmedOk(b: Bars, cfg: Config, bear: bool, t: Track, m: int)
    requires Runnable(b, cfg) && TrackOk(b, cfg, bear, t, m) && Armed(t, bear, cfg).Some?
    ensures CandidateOk(b, cfg, bear, Armed(t, bear, cfg).value, m)
  {
  }

  lemma ConfirmedEventOk(b: Bars, cfg: Config, nison: NisonFn, bear: bool, c: Candidate, m: int, i: int)
    requires Runnable(b, cfg) && 0 <= i < |b.close| && CandidateOk(b, cfg, bear, c, m)
    ensures AnnotationOk(b, cfg, ConfirmedEvent(b, cfg, nison, c, bear, i))
  {
    var a := ConfirmedEvent(b, cfg, nison, c, bear, i);
    assert (a.kind == Bearish) == bear;
  }

  lemma EarlyEventOk(b: Bars, cfg: Config, nison: NisonFn, bear: bool, t: Track, i: int)
    requires Runnable(b, cfg) && i == |b.close| - 1 && 0 <= i && cfg.enableFullEarlySignal
    requires TrackOk(b, cfg, bear, t, i + 1) && EarlyEvent(b, cfg, nison, t, bear, i).Some?
    ensures AnnotationOk(b, cfg, EarlyEvent(b, cfg, nison, t, bear, i).value)
  {
    var p := t.last.value;
    LastPivotOk(b, cfg, bear, t, i + 1);
    var a := EarlyEvent(b, cfg, nison, t, bear, i).value;
    EarlyAnnotationOk(b, cfg, bear, a, p);
  }

  /** What TrackOk says about the newest remembered pivot. */
  lemma LastPivotOk(b: Bars, cfg: Config, bear: bool, t: Track, m: int)
    requires Runnable(b, cfg) && TrackOk(b, cfg, bear, t, m) && t.last.Some?
    ensures PivotOk(b, cfg, bear, t.last.value) && 0 <= t.last.value.bar && t.last.value.bar + cfg.pivotRight < m
    ensures NoPivotBetween(b, cfg, bear, t.last.value.bar + cfg.pivotRight, m)
  {
  }

  /**
   * An annotation built on the last bar from the newest pivot p, with the early gates
   * passed, satisfies the early branch of AnnotationOk.
   */
  lemma EarlyAnnotationOk(b: Bars, cfg: Config, bear: bool, a: Annotation, p: Pivot)
    requires Runnable(b, cfg) && cfg.enableFullEarlySignal && |b.close| > 0
    requires a.kind == KindOf(bear) && a.isEarly && a.p1Bar == p.bar && a.p2Bar == |b.close| - 1
    requires a.p1Stoch == p.stoch && a.p2Stoch == b.k[a.p2Bar]
    requires a.p1Price == Avail(p.price) && a.p2Price == Avail(Series(b, bear)[a.p2Bar])
    requires PivotOk(b, cfg, bear, p) && 0 <= p.bar
    requires NoPivotBetween(b, cfg, bear, p.bar + cfg.pivotRight, |b.close|)
    requires AtExtreme(b, cfg, bear, a.p2Bar) && a.p2Bar - p.bar >= cfg.minBarsBetweenPivots
    requires PriceWithin(p.price, Series(b, bear)[a.p2Bar], cfg.priceTolerance)
    requires StochDiverges(bear, b.k[a.p2Bar], p.stoch)
    ensures AnnotationOk(b, cfg, a)
  {
    assert (a.kind == Bearish) == bear;
  }

  /** The early event of one side, as a sequence of at most one annotation. */
  lemma EarlyOptOk(b: Bars, cfg: Config, nison: NisonFn, bear: bool, t: Track, i: int)
    requires Runnable(b, cfg) && i == |b.close| - 1 && 0 <= i && cfg.enableFullEarlySignal
    requires TrackOk(b, cfg, bear, t, i + 1)
    ensures AllAnnotationsOk(b, cfg, Opt(EarlyEvent(b, cfg, nison, t, bear, i)))
  {
    if EarlyEvent(b, cfg, nison, t, bear, i).Some? {
      EarlyEventOk(b, cfg, nison, bear, t, i);
    }
  }

  lemma ConfirmSideOk(b: Bars, cfg: Config, nison: NisonFn, bear: bool, pending: Option<Candidate>, m: int, i: int)
    requires Runnable(b, cfg) && 0 <= i < |b.close|
    requires pending.Some? ==> CandidateOk(b, cfg, bear, pending.value, m)
    ensures AllAnnotationsOk(b, cfg, ConfirmSide(b, cfg, nison, pending, bear, i).events)
    ensures ConfirmSide(b, cfg, nison, pending, bear, i).pending.Some? ==>
              CandidateOk(b, cfg, bear, ConfirmSide(b, cfg, nison, pending, bear, i).pending.value, m)
  {
    if Confirms(pending, Crosses(b, bear, i), cfg, i) {
      ConfirmedEventOk(b, cfg, nison, bear, pending.value, m, i);
    }
  }

  lemma ArmOk(b: Bars, cfg: Config, bear: bool, t: Track, pending: Option<Candidate>, m: int)
    requires Runnable(b, cfg) && TrackOk(b, cfg, bear, t, m + 1)
    requires pending.Some? ==> CandidateOk(b, cfg, bear, pending.value, m)
    ensures Arm(t, pending, bear, cfg).Some? ==> CandidateOk(b, cfg, bear, Arm(t, pending, bear, cfg).value, m + 1)
  {
    if Armed(t, bear, cfg).Some? {
      ArmedOk(b, cfg, bear, t, m + 1);
    }
  }

  lemma AllOkAppend(b: Bars, cfg: Config, x: seq<Annotation>, y: seq<Annotation>)
    requires Runnable(b, cfg) && AllAnnotationsOk(b, cfg, x) && AllAnnotationsOk(b, cfg, y)
    ensures AllAnnotationsOk(b, cfg, x + y)
  {
    forall j | 0 <= j < |x + y| ensures AnnotationOk(b, cfg, (x + y)[j]) {
      if j < |x| {
        assert (x + y)[j] == x[j];
      } else {
        assert (x + y)[j] == y[j - |x|];
      }
    }
  }

  lemma EarlyEventsOk(b: Bars, cfg: Config, nison: NisonFn, highs: Track, lows: Track, i: int)
    requires Runnable(b, cfg) && 0 <= i < |b.close|
    requires TrackOk(b, cfg, true, highs, i + 1) && TrackOk(b, cfg, false, lows, i + 1)
    ensures AllAnnotationsOk(b, cfg, EarlyEvents(b, cfg, nison, highs, lows, i))
  {
    if i == |b.close| - 1 && cfg.enableFullEarlySignal {
      EarlyOptOk(b, cfg, nison, true, highs, i);
      EarlyOptOk(b, cfg, nison, false, lows, i);
      AllOkAppend(b, cfg, Opt(EarlyEvent(b, cfg, nison, highs, true, i)), Opt(EarlyEvent(b, cfg, nison, lows, false, i)));
    }
  }

  /** One bar of the loop preserves the invariant. */
  lemma StepInv(b: Bars, cfg: Config, nison: NisonFn, st: State, i: int)
    requires Runnable(b, cfg) && 0 <= i < |b.close| && Inv(b, cfg, st, i)
    ensures Inv(b, cfg, Step(b, cfg, nison, st, i), i + 1)
  {
    StepStateOk(b, cfg, nison, st, i);
    StepAnnotationsOk(b, cfg, nison, st, i);
  }

  /** One bar keeps both pivot slots and both pending candidates sound. */
  lemma StepStateOk(b: Bars, cfg: Config, nison: NisonFn, st: State, i: int)
    requires Runnable(b, cfg) && 0 <= i < |b.close| && Inv(b, cfg, st, i)
    ensures var st' := Step(b, cfg, nison, st, i);
      TrackOk(b, cfg, true, st'.highs, i + 1) && TrackOk(b, cfg, false, st'.lows, i + 1)
      && (st'.bearPending.Some? ==> CandidateOk(b, cfg, true, st'.bearPending.value, i + 1))
      && (st'.bullPending.Some? ==> CandidateOk(b, cfg, false, st'.bullPending.value, i + 1))
  {
    var highs := ShiftHighs(b, cfg, st.highs, i);
    var lows := ShiftLows(b, cfg, st.lows, i);
    TrackStep(b, cfg, true, st.highs, i);
    TrackStep(b, cfg, false, st.lows, i);
    ArmOk(b, cfg, true, highs, st.bearPending, i);
    ArmOk(b, cfg, false, lows, st.bullPending, i);
    ConfirmSideOk(b, cfg, nison, true, Arm(highs, st.bearPending, true, cfg), i + 1, i);
    ConfirmSideOk(b, cfg, nison, false, Arm(lows, st.bullPending, false, cfg), i + 1, i);
  }

  /** One bar appends only sound annotations. */
  lemma StepAnnotationsOk(b: Bars, cfg: Config, nison: NisonFn, st: State, i: int)
    requires Runnable(b, cfg) && 0 <= i < |b.close| && Inv(b, cfg, st, i)
    ensures AllAnnotationsOk(b, cfg, Step(b, cfg, nison, st, i).annotations)
  {
    var highs := ShiftHighs(b, cfg, st.highs, i);
    var lows := ShiftLows(b, cfg, st.lows, i);
    TrackStep(b, cfg, true, st.highs, i);
    TrackStep(b, cfg, false, st.lows, i);
    var bearP := Arm(highs, st.bearPending, true, cfg);
    var bullP := Arm(lows, st.bullPending, false, cfg);
    ArmOk(b, cfg, true, highs, st.bearPending, i);
    ArmOk(b, cfg, false, lows, st.bullPending, i);
    ConfirmSideOk(b, cfg, nison, true, bearP, i + 1, i);
    ConfirmSideOk(b, cfg, nison, false, bullP, i + 1, i);
    EarlyEventsOk(b, cfg, nison, highs, lows, i);
    var early := EarlyEvents(b, cfg, nison, highs, lows, i);
    var bull := ConfirmSide(b, cfg, nison, bullP, false, i);
    var bear := ConfirmSide(b, cfg, nison, bearP, true, i);
    AllOkAppend(b, cfg, st.annotations, early);
    AllOkAppend(b, cfg, st.annotations + early, bull.events);
    AllOkAppend(b, cfg, st.annotations + early + bull.events, bear.events);
  }

  lemma {:induction false} RunInv(b: Bars, cfg: Config, nison: NisonFn, m: nat)
    requires Runnable(b, cfg) && m <= |b.close|
    ensures Inv(b, cfg, Run(b, cfg, nison, m), m)
    decreases m
  {
    if m > 0 {
      RunInv(b, cfg, nison, m - 1);
      RunStepInv(b, cfg, nison, m);
    }
  }

  lemma RunStepInv(b: Bars, cfg: Config, nison: NisonFn, m: nat)
    requires Runnable(b, cfg) && 0 < m <= |b.close| && Inv(b, cfg, Run(b, cfg, nison, m - 1), m - 1)
    ensures Inv(b, cfg, Run(b, cfg, nison, m), m)
  {
    RunSucc(b, cfg, nison, m);
    StepInv(b, cfg, nison, Run(b, cfg, nison, m - 1), m - 1);
  }

  // ---------------------------------------------------------------- the whole run

  /**
   * Every annotation of the run is sound: a confirmed one joins two consecutive confirmed
   * pivots that pass the distance, price and %K gates; an early one ends on the last bar and
   * appears only when the early signal is enabled.
   */
  lemma PineEventsSound(b: Bars, cfg: Config)
    requires Runnable(b, cfg)
    ensures AllAnnotationsOk(b, cfg, PineSpec(b, cfg).annotations)
    ensures forall a :: a in PineSpec(b, cfg).annotations && a.isEarly ==>
              a.p2Bar == |b.close| - 1 && cfg.enableFullEarlySignal
              && a.p2Bar - a.p1Bar >= cfg.minBarsBetweenPivots
    ensures forall a :: a in PineSpec(b, cfg).annotations && !a.isEarly ==>
              a.p1Bar < a.p2Bar && a.p2Bar - a.p1Bar >= cfg.minBarsBetweenPivots
              && a.p2Bar + cfg.pivotRight < |b.close|
  {
    RunInv(b, cfg, NisonOf(b, cfg), |b.close|);
    var anns := PineSpec(b, cfg).annotations;
    forall a | a in anns ensures AnnotationOk(b, cfg, a) {
      var j :| 0 <= j < |anns| && anns[j] == a;
    }
  }

  /** The track and the pending candidate of one side at bar i, after the pivot update and arming. */
  function SideTrack(st: State, bear: bool): Track {
    if bear then st.highs else st.lows
  }

  function PendingOf(st: State, bear: bool): Option<Candidate> {
    if bear then st.bearPending else st.bullPending
  }

  function SideArm(b: Bars, cfg: Config, st: State, bear: bool, i: int): Option<Candidate>
    requires Runnable(b, cfg) && 0 <= i < |b.close|
  {
    Arm(ShiftSide(b, cfg, bear, SideTrack(st, bear), i), PendingOf(st, bear), bear, cfg)
  }

  /**
   * In a run the candidate examined at bar m always ends at or before m - pivotRight, so
   * the i >= p2Bar test of the confirmation never decides anything.
   */
  lemma PendingGuardRedundant(b: Bars, cfg: Config, nison: NisonFn, bear: bool, m: nat, cross: bool)
    requires Runnable(b, cfg) && m < |b.close|
    ensures SideArm(b, cfg, Run(b, cfg, nison, m), bear, m).Some? ==>
              SideArm(b, cfg, Run(b, cfg, nison, m), bear, m).value.p2Bar + cfg.pivotRight <= m
    ensures Confirms(SideArm(b, cfg, Run(b, cfg, nison, m), bear, m), cross, cfg, m) <==>
              SideArm(b, cfg, Run(b, cfg, nison, m), bear, m).Some? && (!cfg.waitForCrossover || cross)
  {
    var st := Run(b, cfg, nison, m);
    RunInv(b, cfg, nison, m);
    TrackStep(b, cfg, bear, SideTrack(st, bear), m);
    ArmOk(b, cfg, bear, ShiftSide(b, cfg, bear, SideTrack(st, bear), m), PendingOf(st, bear), m);
  }

  /** A bar's outputs in terms of the two sides' arming and confirmation. */
  lemma StepParts(b: Bars, cfg: Config, nison: NisonFn, st: State, i: int)
    requires Runnable(b, cfg) && 0 <= i < |b.close|
    ensures Step(b, cfg, nison, st, i).annotations ==
              st.annotations + EarlyEvents(b, cfg, nison, ShiftHighs(b, cfg, st.highs, i), ShiftLows(b, cfg, st.lows, i), i)
              + ConfirmSide(b, cfg, nison, SideArm(b, cfg, st, false, i), false, i).events
              + ConfirmSide(b, cfg, nison, SideArm(b, cfg, st, true, i), true, i).events
    ensures Step(b, cfg, nison, st, i).labels ==
              st.labels + ConfirmSide(b, cfg, nison, SideArm(b, cfg, st, false, i), false, i).labels
              + ConfirmSide(b, cfg, nison, SideArm(b, cfg, st, true, i), true, i).labels
    ensures forall bear :: PendingOf(Step(b, cfg, nison, st, i), bear) == ConfirmSide(b, cfg, nison, SideArm(b, cfg, st, bear, i), bear, i).pending
  {
  }

  /** No confirmed annotation of the given kind from index lo on. */
  predicate NoConfirmedOfKind(anns: seq<Annotation>, lo: int, kind: Kind) {
    forall j :: 0 <= lo <= j < |anns| && !anns[j].isEarly ==> anns[j].kind != kind
  }

  lemma NoConfirmedAppend(x: seq<Annotation>, y: seq<Annotation>, lo: int, kind: Kind)
    requires 0 <= lo <= |x| && NoConfirmedOfKind(x, lo, kind) && NoConfirmedOfKind(y, 0, kind)
    ensures NoConfirmedOfKind(x + y, lo, kind)
  {
    forall j | 0 <= lo <= j < |x + y| && !(x + y)[j].isEarly ensures (x + y)[j].kind != kind {
      if j >= |x| {
        assert (x + y)[j] == y[j - |x|];
      } else {
        assert (x + y)[j] == x[j];
      }
    }
  }

  lemma EarlyEventsEarly(b: Bars, cfg: Config, nison: NisonFn, highs: Track, lows: Track, i: int, kind: Kind)
    requires WellFormed(b) && 0 <= i < |b.close|
    ensures NoConfirmedOfKind(EarlyEvents(b, cfg, nison, highs, lows, i), 0, kind)
  {
  }

  /**
   * One bar on one side: a confirmation clears the pending candidate and records the
   * buffered divergence (and its strength label when enabled); otherwise the armed
   * candidate stays pending and no confirmed annotation of that kind is added.
   */
  lemma ConfirmAtBar(b: Bars, cfg: Config, nison: NisonFn, st: State, bear: bool, i: int)
    requires Runnable(b, cfg) && 0 <= i < |b.close|
    ensures Confirms(SideArm(b, cfg, st, bear, i), Crosses(b, bear, i), cfg, i) ==>
              PendingOf(Step(b, cfg, nison, st, i), bear) == None
              && ConfirmedEvent(b, cfg, nison, SideArm(b, cfg, st, bear, i).value, bear, i) in Step(b, cfg, nison, st, i).annotations
              && (cfg.showStrengthLabel ==>
                    LabelOf(ConfirmedEvent(b, cfg, nison, SideArm(b, cfg, st, bear, i).value, bear, i)) in Step(b, cfg, nison, st, i).labels)
    ensures !Confirms(SideArm(b, cfg, st, bear, i), Crosses(b, bear, i), cfg, i) ==>
              PendingOf(Step(b, cfg, nison, st, i), bear) == SideArm(b, cfg, st, bear, i)
              && NoConfirmedOfKind(Step(b, cfg, nison, st, i).annotations, |st.annotations|, KindOf(bear))
  {
    StepParts(b, cfg, nison, st, i);
    var early := EarlyEvents(b, cfg, nison, ShiftHighs(b, cfg, st.highs, i), ShiftLows(b, cfg, st.lows, i), i);
    var bullS := ConfirmSide(b, cfg, nison, SideArm(b, cfg, st, false, i), false, i);
    var bearS := ConfirmSide(b, cfg, nison, SideArm(b, cfg, st, true, i), true, i);
    var mine := if bear then bearS else bullS;
    var other := if bear then bullS else bearS;
    if Confirms(SideArm(b, cfg, st, bear, i), Crosses(b, bear, i), cfg, i) {
      assert mine.events[0] in mine.events;
      if cfg.showStrengthLabel {
        assert mine.labels[0] in mine.labels;
      }
    } else {
      var kind := KindOf(bear);
      assert mine.events == [];
      assert NoConfirmedOfKind(other.events, 0, kind);
      assert NoConfirmedOfKind(st.annotations, |st.annotations|, kind);
      EarlyEventsEarly(b, cfg, nison, ShiftHighs(b, cfg, st.highs, i), ShiftLows(b, cfg, st.lows, i), i, kind);
      NoConfirmedAppend(st.annotations, early, |st.annotations|, kind);
      NoConfirmedAppend(st.annotations + early, bullS.events, |st.annotations|, kind);
      NoConfirmedAppend(st.annotations + early + bullS.events, bearS.events, |st.annotations|, kind);
    }
  }

  /** Each bar only appends: the annotations and labels of an earlier bar are a prefix of a later bar's. */
  lemma {:induction false} RunExtends(b: Bars, cfg: Config, nison: NisonFn, m1: nat, m2: nat)
    requires Runnable(b, cfg) && m1 <= m2 <= |b.close|
    ensures Run(b, cfg, nison, m1).annotations <= Run(b, cfg, nison, m2).annotations
    ensures Run(b, cfg, nison, m1).labels <= Run(b, cfg, nison, m2).labels
    decreases m2 - m1
  {
    if m1 < m2 {
      RunExtends(b, cfg, nison, m1, m2 - 1);
      RunStepExtends(b, cfg, nison, m2);
    }
  }

  lemma RunStepExtends(b: Bars, cfg: Config, nison: NisonFn, m: nat)
    requires Runnable(b, cfg) && 0 < m <= |b.close|
    ensures Run(b, cfg, nison, m - 1).annotations <= Run(b, cfg, nison, m).annotations
    ensures Run(b, cfg, nison, m - 1).labels <= Run(b, cfg, nison, m).labels
  {
    RunSucc(b, cfg, nison, m);
    StepExtends(b, cfg, nison, Run(b, cfg, nison, m - 1), m - 1);
  }

  /** One bar appends to the annotations and the labels. */
  lemma StepExtends(b: Bars, cfg: Config, nison: NisonFn, st: State, i: int)
    requires Runnable(b, cfg) && 0 <= i < |b.close|
    ensures st.annotations <= Step(b, cfg, nison, st, i).annotations
    ensures st.labels <= Step(b, cfg, nison, st, i).labels
  {
  }

  /**
   * Confirmation does not retire the pivot pair: when the slots armed candidate c at bar i,
   * no crossover is awaited and bar i + 1 confirms no new pivot of that side, the same
   * divergence is recorded again at bar i + 1.
   */
  lemma RepeatsAfterConfirm(b: Bars, cfg: Config, nison: NisonFn, bear: bool, i: nat, c: Candidate)
    requires Runnable(b, cfg) && i + 1 < |b.close| && !cfg.waitForCrossover
    requires Armed(ShiftSide(b, cfg, bear, SideTrack(Run(b, cfg, nison, i), bear), i), bear, cfg) == Some(c)
    requires !Confirmed(b, cfg, bear, i + 1)
    ensures ConfirmedEvent(b, cfg, nison, c, bear, i) in Run(b, cfg, nison, i + 1).annotations
    ensures ConfirmedEvent(b, cfg, nison, c, bear, i + 1) in Run(b, cfg, nison, i + 2).annotations
  {
    var st := Run(b, cfg, nison, i);
    PendingGuardRedundant(b, cfg, nison, bear, i, Crosses(b, bear, i));
    ConfirmAtBar(b, cfg, nison, st, bear, i);
    var st1 := Step(b, cfg, nison, st, i);
    RunSucc(b, cfg, nison, i + 1);
    RunSucc(b, cfg, nison, i + 2);
    assert Run(b, cfg, nison, i + 1) == st1;
    assert SideTrack(st1, bear) == ShiftSide(b, cfg, bear, SideTrack(st, bear), i);
    assert ShiftSide(b, cfg, bear, SideTrack(st1, bear), i + 1) == SideTrack(st1, bear);
    assert SideArm(b, cfg, st1, bear, i + 1) == Some(c);
    ConfirmAtBar(b, cfg, nison, st1, bear, i + 1);
  }
}
