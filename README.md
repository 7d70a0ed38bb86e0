# Stochastic divergence engines, modelled in Dafny

The repository scans price series for stochastic-oscillator divergences. A divergence is two pivots of the same kind, at nearly the same price, between which %K moved the other way:
- two highs with %K falling give a **bearish** divergence;
- two lows with %K rising give a **bullish** divergence.

This project models four of the repository's files and proves properties of each.

- **Batch engine** (`src/engine/stochDivPro.ts`), modules `BatchIndicators`, `BatchPivots`, `BatchEngine` and `BatchExamples`:
  - a running-sum SMA;
  - rolling minimum and maximum over monotonic deques;
  - raw %K, %K and %D;
  - full-window pivot highs and lows;
  - `findPairs`: for each pivot, it looks back for the nearest earlier pivot that passes four gates. The gates are the minimum spacing, a 60-bar cap, the price tolerance and a fixed ±10 %K move.
- **Forward bar-loop engine** (`src/engine/pine_port/stoch_div_pro_nison.ts`), modules `PineHelpers`, `PineScoring`, `PineEngine` and `PineEngineFacts`:
  - pivots confirmed `pivotRight` bars late;
  - a per-kind record of the last two pivots and a pending candidate;
  - confirmation by a %K / %D cross;
  - an early (repainting) signal on the last bar;
  - the 0–9 strength score and its bands;
  - the Nison candle-pattern cascade and its score.
- **Adapter** (`src/engine/stochDivAdapter.ts`), module `StochDivAdapter`: the 50-bar guard, the projection of OHLCV records onto columns, and the "last signal".
- **Watch-list reader** (`src/io/symbolsFromFile.ts`), module `Symbols`: split the text into lines, trim, upper-case, and drop empty lines.

Representation choices:
- JavaScript's `NaN` and `undefined` oscillator values are written `Num.NotYet`. Every comparison with `NotYet` is false, as with `NaN`. Prices are real numbers.
- Where the source loops over arrays, the model is a `method` with loop invariants. Each method is proved equal to a specification function, and the properties are lemmas about those functions.
- The forward engine's loop state is a `State` value, advanced one bar at a time by `Step`. `RunStochDivPro` keeps the source's loose variables — pivot slots, pending flags and NaN-initialised buffers — and proves that after `m` bars they pack to `Run(b, cfg, nison, m)`. As in the source, the Nison pattern detector is a closure (`NisonOf(b, cfg)`) that the loop calls on a bar index. The loop's properties in `PineEngineFacts` hold for any such closure.

Consequences of the source as written, proved here:
- **Batch engine never emits with smoothing.** Its `sma` lets an undefined input poison the running sum for good. The first `stochLength - 1` raw %K values are always undefined. So with `stochLength > 1` and `smoothK > 1` — the defaults 12 and 3 among them — %K is undefined on every bar and no event is ever emitted (`BatchEngine.NoEventsWhenSmoothed`). The adapter then always reports `"None"` (`StochDivAdapter.DefaultsSignalNone`).
- **A bullish event always wins the signal.** Bearish events are listed before bullish ones. So whenever any bullish event exists, the adapter's signal is `"Bullish"` (`StochDivAdapter.BullishWinsSignal`).
- **Confirmation does not retire a pivot pair.** In the forward engine the pair stays in the pivot slots and re-arms on the next bar. Without a crossover requirement, the same divergence is recorded again on every later bar until a new pivot appears (`PineEngineFacts.RepeatsAfterConfirm`).
- **The `i >= p2Bar` test is never decisive.** The confirmation test checks `i >= p2Bar`, but a pending candidate always ends at least `pivotRight` bars before the current bar (`PineEngineFacts.PendingGuardRedundant`).

Edge cases of the code, as modelled:
- In the batch engine %K is never defined when smoothing is on (see above).
- The batch detector lets ties stand: a bar equal to the highest of its window is a pivot (`BatchPivots.PivotHighTiesStand`). The forward detector rejects a bar equal to one of its `left` predecessors, so on a plateau only the earliest bar is a pivot (`PineHelpers.ConfirmedHighTieExample`).
- Raw %K is undefined on every bar when the %K window is at most one bar over bars that are each flat (`BatchIndicators.FlatSeriesUndefined`), or when the series is constant (`BatchIndicators.ConstantSeriesUndefined`). In general bar i is defined exactly when i ≥ stochLength − 1 and its window's highest high differs from its lowest low (`BatchIndicators.RawKDefinedIff`).
- The batch price gate divides by the earlier pivot's price:
  - when both prices are 0, the quotient is NaN and the pair passes;
  - when only the earlier price is 0, the quotient is infinite and the pair is rejected;

  `BatchEngine.PriceExceeds` models both cases. The forward engine's gate fails in both cases: `PriceWithin` fails when the reference price is 0.

## Model

| member | source | states |
|---|---|---|
| BatchIndicators.Sma | src/engine/stochDivPro.ts:26-36 | The running-sum loop equals `SmaSpec`: a copy of the input when len ≤ 1; otherwise undefined before index len-1, then the running sum divided by len. |
| BatchIndicators.RunningSumStep | src/engine/stochDivPro.ts:31-32 | One loop step adds arr[i] to the running sum, and also subtracts arr[i-len] once i ≥ len. |
| BatchIndicators.SmaFromRunningSum | src/engine/stochDivPro.ts:33 | From i = len-1 on, the value written at i is the running sum divided by len, or undefined once the sum is. |
| BatchIndicators.SmaNeverRecovers | src/engine/stochDivPro.ts:29-33 | With len > 1, one undefined input makes every later average undefined. |
| BatchIndicators.SmaIsWindowMean | src/engine/stochDivPro.ts:26-36 | A defined average at i has its whole window of len inputs defined, and is their mean. |
| BatchIndicators.SmaOfUndefined | src/engine/stochDivPro.ts:26-36 | An all-undefined input gives an all-undefined average. |
| BatchIndicators.MinAdmit | src/engine/stochDivPro.ts:42-44 | One deque iteration (evict expired, pop dominated, push i) keeps the monotonic-deque invariant for the window ending at i. |
| BatchIndicators.MaxAdmit | src/engine/stochDivPro.ts:54-56 | The same for the maximum deque. |
| BatchIndicators.MinStep | src/engine/stochDivPro.ts:42-45 | After admitting bar i, the front of the deque is the minimum of the full window ending at i. |
| BatchIndicators.MaxStep | src/engine/stochDivPro.ts:54-57 | After admitting bar i, the front of the deque is the maximum of the full window ending at i. |
| BatchIndicators.MinFront | src/engine/stochDivPro.ts:45 | The front of a valid minimum deque is the window minimum. |
| BatchIndicators.MaxFront | src/engine/stochDivPro.ts:57 | The front of a valid maximum deque is the window maximum. |
| BatchIndicators.RollingMin | src/engine/stochDivPro.ts:38-48 | The deque loop equals `RollingMinSpec`: undefined before the window fills, then the window minimum. |
| BatchIndicators.RollingMax | src/engine/stochDivPro.ts:50-60 | The deque loop equals `RollingMaxSpec`: undefined before the window fills, then the window maximum. |
| BatchIndicators.RawKAt | src/engine/stochDivPro.ts:65-69 | Raw %K is defined exactly when both extremes are defined and differ, and is then (c - ll) / (hh - ll) · 100. |
| BatchIndicators.Stoch | src/engine/stochDivPro.ts:62-73 | %K is the smoothK average of raw %K and %D the smoothD average of %K, both of length n. |
| BatchIndicators.RawKDefinedIff | src/engine/stochDivPro.ts:62-69 | Raw %K is defined at i exactly when the window is full and its highest high differs from its lowest low. |
| BatchIndicators.RawKInRange | src/engine/stochDivPro.ts:65-69 | With the close between the bar's low and high, a defined raw %K lies in [0, 100]. |
| BatchIndicators.StochNeverDefined | src/engine/stochDivPro.ts:62-73 | With stochLength > 1 and smoothK > 1, %K and %D are undefined on every bar. |
| BatchIndicators.FlatSeriesUndefined | src/engine/stochDivPro.ts:65-69 | A %K window of one bar over bars with high = low gives undefined raw %K everywhere. |
| BatchIndicators.ConstantSeriesUndefined | src/engine/stochDivPro.ts:62-69 | A constant series gives undefined raw %K everywhere. |
| BatchPivots.PivotHigh | src/engine/stochDivPro.ts:75-89 | The loop marks bar i exactly when its window [i-left, i+right] lies inside the series and no other bar in it is strictly higher. |
| BatchPivots.PivotLow | src/engine/stochDivPro.ts:91-105 | The loop marks bar i exactly when its window lies inside the series and no other bar in it is strictly lower. |
| BatchPivots.PivotHighIsWindowMax | src/engine/stochDivPro.ts:75-89 | A marked pivot high is the maximum of its window. |
| BatchPivots.PivotLowIsWindowMin | src/engine/stochDivPro.ts:91-105 | A marked pivot low is the minimum of its window. |
| BatchPivots.PivotHighTiesStand | src/engine/stochDivPro.ts:84 | On a two-bar plateau both bars are pivot highs. |
| BatchEngine.PivotsOf | src/engine/stochDivPro.ts:125-130 | The collected pivots are exactly the marked bars, in ascending order, each with its own price and %K. |
| BatchEngine.CollectPivots | src/engine/stochDivPro.ts:125-130 | The collecting loop produces `PivotsOf` for the highs and for the lows. |
| BatchEngine.ScanBack | src/engine/stochDivPro.ts:135-159 | A partner found by the backward scan is an earlier pivot that passes all four gates. |
| BatchEngine.ScanBackNearest | src/engine/stochDivPro.ts:135-159 | The partner is the nearest earlier pivot that passes. No partner means no earlier pivot passes, so the break at more than 60 bars loses nothing. |
| BatchEngine.ScanBackNone | src/engine/stochDivPro.ts:144-149 | A later pivot with undefined %K has no partner. |
| BatchEngine.MakeEventGates | src/engine/stochDivPro.ts:151-157 | An emitted event's own fields satisfy every gate it passed: kind, spacing, price difference and %K difference. |
| BatchEngine.ScanPartner | src/engine/stochDivPro.ts:134-159 | The inner loop yields `PairAt`: the event pairing arr[j] with the partner the backward scan finds, or nothing. |
| BatchEngine.FindPairs | src/engine/stochDivPro.ts:132-161 | The outer loop appends exactly `Pairs` to the events so far. |
| BatchEngine.PairsSound | src/engine/stochDivPro.ts:132-161 | Every event pairs a pivot with its nearest qualifying earlier pivot. |
| BatchEngine.PairsComplete | src/engine/stochDivPro.ts:132-161 | Every pivot that has a qualifying earlier pivot gets an event. |
| BatchEngine.PairsOrdered | src/engine/stochDivPro.ts:132-161 | Events are in strictly ascending p2Bar order. |
| BatchEngine.PairsNoneWhenUndefined | src/engine/stochDivPro.ts:144-149 | Pivots whose %K is all undefined produce no events. |
| BatchEngine.ComputeStochDivPro | src/engine/stochDivPro.ts:107-167 | The engine equals `ComputeSpec`: the length error, the empty result for n = 0, %K and %D, and the bearish events followed by the bullish ones. |
| BatchEngine.ComputeShape | src/engine/stochDivPro.ts:111-118 | The engine fails exactly when the six inputs differ in length, with the source's message. n = 0 gives an empty output, and otherwise %K and %D have length n. |
| BatchEngine.SideEventsFromPivots | src/engine/stochDivPro.ts:163-164 | Each kind's events come from pivots of that kind and are ordered by p2Bar. |
| BatchEngine.ComputeEvents | src/engine/stochDivPro.ts:120-166 | The events are grouped by kind, bearish first, ordered by p2Bar within a kind, and each pairs pivots of its kind. |
| BatchEngine.NoEventsWhenSmoothed | src/engine/stochDivPro.ts:117-166 | With stochLength > 1 and smoothK > 1 the engine emits no event. |
| BatchEngine.DefaultsEmitNothing | src/config.ts:1-15 | With the default options the engine emits no event. |
| BatchExamples.BearishPairEmitted | src/engine/stochDivPro.ts:132-161 | Highs at bars 10 and 20, prices 100 and 100.5, %K 85 then 70: one bearish event with difference 0.005 and %K move -15. |
| BatchExamples.SmallOscillatorMoveRejected | src/engine/stochDivPro.ts:144-146 | The same pair with %K 85 then 78 gives no event. |
| BatchExamples.ClosePivotsRejected | src/engine/stochDivPro.ts:137-138 | Bars 10 and 15 are too close at a minimum spacing of 7, so no event. |
| BatchExamples.DistantPivotsRejected | src/engine/stochDivPro.ts:139 | Bars 10 and 71 are more than 60 bars apart, so no event. |
| PineHelpers.PivotHigh | src/engine/pine_port/stoch_div_pro_nison.ts:584-594 | The loop reports at bar i the high of bar i-right exactly when that bar is strictly above its `left` predecessors and at least as high as its `right` successors. |
| PineHelpers.PivotLow | src/engine/pine_port/stoch_div_pro_nison.ts:596-606 | The mirror for lows: strictly below its predecessors, at most its successors. |
| PineHelpers.IsPivotHighAt | src/engine/pine_port/stoch_div_pro_nison.ts:587-590 | The two look-around loops leave `isPivot` true exactly when bar i confirms bar i-right as a pivot high. |
| PineHelpers.IsPivotLowAt | src/engine/pine_port/stoch_div_pro_nison.ts:599-602 | The same for a pivot low. |
| PineHelpers.ConfirmedHighIsWindowMax | src/engine/pine_port/stoch_div_pro_nison.ts:584-594 | A confirmed pivot high is the maximum of [p-left, p+right]. |
| PineHelpers.ConfirmedLowIsWindowMin | src/engine/pine_port/stoch_div_pro_nison.ts:596-606 | A confirmed pivot low is the minimum of [p-left, p+right]. |
| PineHelpers.ConfirmedHighTieExample | src/engine/pine_port/stoch_div_pro_nison.ts:589-590 | On a two-bar plateau only the earlier bar is confirmed. |
| PineHelpers.Highest | src/engine/pine_port/stoch_div_pro_nison.ts:609-614 | The loop returns a value exactly when len ≥ 1, and that value is the maximum of the window [max(0, i-len+1), i]. |
| PineHelpers.Lowest | src/engine/pine_port/stoch_div_pro_nison.ts:615-620 | The same with the minimum of that window. |
| PineHelpers.AtHighestIff | src/engine/pine_port/stoch_div_pro_nison.ts:312 | A bar equals the window's highest exactly when no bar of the window is higher. |
| PineHelpers.AtLowestIff | src/engine/pine_port/stoch_div_pro_nison.ts:380 | A bar equals the window's lowest exactly when no bar of the window is lower. |
| PineHelpers.CrossOver | src/engine/pine_port/stoch_div_pro_nison.ts:623-625 | A cross over needs all four values defined. |
| PineHelpers.CrossUnder | src/engine/pine_port/stoch_div_pro_nison.ts:626-628 | A cross under needs all four values defined and never coincides with a cross over. |
| PineScoring.LevelPoints | src/engine/pine_port/stoch_div_pro_nison.ts:262-266 | The 0–3 level bucket for %K at p1: 3 exactly beyond the level ± 5, at least 2 exactly beyond the level itself, and above 0 exactly beyond the level ∓ 10. |
| PineScoring.MovePoints | src/engine/pine_port/stoch_div_pro_nison.ts:263-267 | The 0–3 bucket for the %K move between the pivots: 3 exactly above 25, at least 2 exactly above 15, and above 0 exactly above 5. |
| PineScoring.SlopePoints | src/engine/pine_port/stoch_div_pro_nison.ts:264-268 | The 0–3 bucket for the current %K slope: 3 exactly past ±7, at least 2 exactly past ±3, and above 0 exactly past ±1. |
| PineScoring.Strength | src/engine/pine_port/stoch_div_pro_nison.ts:259-272 | The score lies in 0–9. With undefined %K at p1 only the slope counts, and with an undefined slope only level and move count. |
| PineScoring.StrengthTopIff | src/engine/pine_port/stoch_div_pro_nison.ts:259-269 | The score is 9 exactly when all three top thresholds hold. |
| PineScoring.BandOf | src/engine/pine_port/stoch_div_pro_nison.ts:249-257 | Each band holds exactly its score interval: ≥ 8, 6–7, 4–5, 2–3 and below 2. |
| PineScoring.BandMonotone | src/engine/pine_port/stoch_div_pro_nison.ts:249-257 | A higher score never gets a weaker band. |
| PineScoring.BandTextDistinct | src/engine/pine_port/stoch_div_pro_nison.ts:249-257 | The five band texts are pairwise different. |
| PineScoring.CalculateStrength | src/engine/pine_port/stoch_div_pro_nison.ts:259-272 | The accumulating method returns `Strength` with the previous bar's %K, in 0–9, with the band's text and emoji. |
| PineScoring.BearishPoints | src/engine/pine_port/stoch_div_pro_nison.ts:261-264 | The bearish cascades add up to `Strength` for a bearish divergence: level over overbought, fall of %K, downward slope. |
| PineScoring.BullishPoints | src/engine/pine_port/stoch_div_pro_nison.ts:265-268 | The bullish cascades add up to `Strength` for a bullish divergence: level under oversold, rise of %K, upward slope. |
| PineScoring.SignalStrength | src/engine/pine_port/stoch_div_pro_nison.ts:320 | The 1–10 signal strength is always in range and is score + 1 for scores 0–9. |
| PineScoring.ThreeBarPatternsNeedHistory | src/engine/pine_port/stoch_div_pro_nison.ts:167-175 | Before bar 2, no three-bar pattern holds. |
| PineScoring.FirstBarOnlyDoji | src/engine/pine_port/stoch_div_pro_nison.ts:162-179 | On bar 0 every condition except doji is false. |
| PineScoring.SelectIsFirstMatch | src/engine/pine_port/stoch_div_pro_nison.ts:181-199 | The cascade picks a pattern that holds, with no higher-priority pattern holding, and picks none exactly when no pattern holds. |
| PineScoring.PatternName | src/engine/pine_port/stoch_div_pro_nison.ts:184-199 | The name is empty exactly for "no pattern". |
| PineScoring.BaseScore | src/engine/pine_port/stoch_div_pro_nison.ts:184-199 | The base is 0 exactly for "no pattern", and otherwise lies in 30–90. |
| PineScoring.StochBonus | src/engine/pine_port/stoch_div_pro_nison.ts:203-205 | 15 exactly for a "Long" direction below oversold or a "Short" direction above overbought, else 0. |
| PineScoring.VolumeBonus | src/engine/pine_port/stoch_div_pro_nison.ts:206-207 | 15 exactly for volume above 1.5 times the average, 5 exactly for volume above the average but not 1.5 times it, else 0; an undefined average gives 0. |
| PineScoring.NisonNoPattern | src/engine/pine_port/stoch_div_pro_nison.ts:181-210 | The pattern is empty exactly when no condition holds, and then the direction is empty and the score is 0. |
| PineScoring.NisonScoreBounds | src/engine/pine_port/stoch_div_pro_nison.ts:201-209 | A found pattern scores its base plus one of 0, 5, 15, 20 or 30 bonus points, capped at 100; so between its base and base + 30, and at least 30. |
| PineScoring.DojiNoStochBonus | src/engine/pine_port/stoch_div_pro_nison.ts:199-207 | A doji's direction starts with neither "Long" nor "Short", so its score is 30 plus the volume bonus and at most 45. |
| PineScoring.LongPatternFullBonus | src/engine/pine_port/stoch_div_pro_nison.ts:201-208 | A "Long" pattern below the oversold level on more than 1.5 times the average volume scores min(100, base + 30). |
| PineEngine.ShiftBlock | src/engine/pine_port/stoch_div_pro_nison.ts:277-284 | On a confirmed pivot, last moves to prev and the new pivot (bar i-right, its price and %K) becomes last. Otherwise nothing changes. |
| PineEngine.ArmBlock | src/engine/pine_port/stoch_div_pro_nison.ts:287-306 | The flag and buffer are set to the candidate (prev, last) when the spacing, price and %K conditions hold, and are otherwise kept. |
| PineEngine.EarlyCheck | src/engine/pine_port/stoch_div_pro_nison.ts:312-372 | One side's early check on the last bar yields `EarlyEvent`. |
| PineEngine.EarlyBlock | src/engine/pine_port/stoch_div_pro_nison.ts:309-442 | The early block yields the bearish then the bullish early event. |
| PineEngine.ConfirmedAnnotation | src/engine/pine_port/stoch_div_pro_nison.ts:506-548 | The confirmed annotation carries the buffered bars and %K, the pivot prices, and the strength scored with %K at p2Bar. |
| PineEngine.ConfirmBlock | src/engine/pine_port/stoch_div_pro_nison.ts:449-503 | When pending, cross-confirmed (or not waiting) and i ≥ p2Bar, the block pushes the annotation and a strength label when enabled, and clears the flag. Otherwise nothing changes. |
| PineEngine.RunSucc | src/engine/pine_port/stoch_div_pro_nison.ts:275 | The state after m bars is one more loop iteration applied to the state after m - 1 bars. |
| PineEngine.PivotPhase | src/engine/pine_port/stoch_div_pro_nison.ts:277-306 | The pivot update of both sides, then their arming, yields the tracks and pending candidates that `Step` computes first. |
| PineEngine.SignalPhase | src/engine/pine_port/stoch_div_pro_nison.ts:309-557 | The early block on the last bar and the two confirmation blocks append exactly `Step`'s early events, then the bullish, then the bearish confirmation. |
| PineEngine.Bar | src/engine/pine_port/stoch_div_pro_nison.ts:275-558 | One iteration of the bar loop maps the packed variables to `Step` of them. |
| PineEngine.RunStochDivPro | src/engine/pine_port/stoch_div_pro_nison.ts:112-575 | The engine returns %K, %D, the constant guide lines and the annotations and labels of `Run` over all bars. |
| PineEngineFacts.TrackStep | src/engine/pine_port/stoch_div_pro_nison.ts:277-284 | After the pivot update the slots hold the newest and second-newest confirmed pivots, with their prices and %K. |
| PineEngineFacts.PushOk | src/engine/pine_port/stoch_div_pro_nison.ts:277-280 | A pivot confirmed on this bar becomes the newest slot and the old newest the second, and the slot invariant holds one bar later. |
| PineEngineFacts.StayOk | src/engine/pine_port/stoch_div_pro_nison.ts:277-284 | A bar that confirms no pivot keeps the slots, and the slot invariant holds one bar later. |
| PineEngineFacts.ArmedOk | src/engine/pine_port/stoch_div_pro_nison.ts:287-306 | A freshly armed candidate joins two consecutive confirmed pivots that pass the spacing, price and %K gates. |
| PineEngineFacts.ArmOk | src/engine/pine_port/stoch_div_pro_nison.ts:287-306 | Arming, or keeping the old candidate, preserves that property of the pending candidate. |
| PineEngineFacts.ConfirmedEventOk | src/engine/pine_port/stoch_div_pro_nison.ts:535-548 | A confirmed annotation of a valid candidate is a divergence pair with the pivots' own prices and %K. |
| PineEngineFacts.ConfirmSideOk | src/engine/pine_port/stoch_div_pro_nison.ts:449-557 | Confirming or not keeps the candidate valid and emits only valid annotations. |
| PineEngineFacts.EarlyEventOk | src/engine/pine_port/stoch_div_pro_nison.ts:309-372 | An early annotation ends on the last bar at a window extreme and starts at the newest confirmed pivot, with the spacing, price and %K gates passed. |
| PineEngineFacts.EarlyEventsOk | src/engine/pine_port/stoch_div_pro_nison.ts:309-442 | Both early checks emit only valid annotations. |
| PineEngineFacts.StepInv | src/engine/pine_port/stoch_div_pro_nison.ts:275-558 | One bar preserves the loop invariant: pivot slots, pending candidates and every annotation so far. |
| PineEngineFacts.StepStateOk | src/engine/pine_port/stoch_div_pro_nison.ts:277-557 | One bar keeps both pivot slots on the newest confirmed pivots and every pending candidate a buffered divergence pair. |
| PineEngineFacts.StepAnnotationsOk | src/engine/pine_port/stoch_div_pro_nison.ts:309-557 | Every annotation one bar appends (early, then bullish, then bearish) is sound. |
| PineEngineFacts.RunInv | src/engine/pine_port/stoch_div_pro_nison.ts:275-558 | The invariant holds after every number of bars. |
| PineEngineFacts.RunStepInv | src/engine/pine_port/stoch_div_pro_nison.ts:275-558 | If the invariant holds after m - 1 bars, it holds after m bars. |
| PineEngineFacts.PineEventsSound | src/engine/pine_port/stoch_div_pro_nison.ts:275-568 | Every annotation is sound. A confirmed one joins consecutive pivots p1 < p2 at least minBars apart. An early one ends on the last bar and appears only with the early signal enabled. |
| PineEngineFacts.PendingGuardRedundant | src/engine/pine_port/stoch_div_pro_nison.ts:449 | The candidate examined at bar m ends by m - pivotRight, so confirmation depends only on pending and the cross (also line 506). |
| PineEngineFacts.ConfirmAtBar | src/engine/pine_port/stoch_div_pro_nison.ts:449-557 | A confirmation clears the kind's pending candidate and records its annotation, plus the label when enabled. Otherwise the armed candidate stays pending and no confirmed annotation of that kind is added. |
| PineEngineFacts.StepExtends | src/engine/pine_port/stoch_div_pro_nison.ts:275-558 | One bar only appends to the annotations and the labels. |
| PineEngineFacts.RunExtends | src/engine/pine_port/stoch_div_pro_nison.ts:275-558 | Annotations and labels only grow: earlier bars' outputs are prefixes of later bars'. |
| PineEngineFacts.RepeatsAfterConfirm | src/engine/pine_port/stoch_div_pro_nison.ts:287-306 | With no crossover required and no new pivot, a divergence armed from the slots at bar i is recorded at bar i and again at bar i + 1. |
| StochDivAdapter.SignalOf | src/engine/stochDivAdapter.ts:25-28 | The signal is "None" exactly for no events, and otherwise the kind of the last event. |
| StochDivAdapter.LastOf | src/engine/stochDivAdapter.ts:31-32 | `at(-1)` is undefined on an empty series and otherwise the last element. |
| StochDivAdapter.EngineNeverFails | src/engine/stochDivAdapter.ts:15-23 | The projected columns have equal lengths, so the engine never fails, and %K and %D have the series' length. |
| StochDivAdapter.RunOnSeries | src/engine/stochDivAdapter.ts:11-36 | Under 50 bars the result is undefined/"None"/empty. Otherwise it holds the engine's events, its last %K and %D, and a signal that is "None" exactly for no events and "Bullish" exactly when the last event is bullish. |
| StochDivAdapter.AdapterEventsFromPivots | src/engine/stochDivAdapter.ts:22-34 | The reported annotations are grouped by kind and each pairs pivots of the record series. |
| StochDivAdapter.BullishWinsSignal | src/engine/stochDivAdapter.ts:25-28 | Any bullish event makes the signal "Bullish". |
| StochDivAdapter.DefaultsSignalNone | src/engine/stochDivAdapter.ts:11-36 | With the default options every series yields "None" and no annotations. |
| Symbols.SplitLines | src/io/symbolsFromFile.ts:5 | Splitting gives at least one piece and no piece holds "\n". |
| Symbols.SplitLinesCount | src/io/symbolsFromFile.ts:5 | There is one more piece than there are line breaks. |
| Symbols.Trim | src/io/symbolsFromFile.ts:6 | The result has no whitespace at either end, is empty exactly for all-whitespace input, and holds only input characters. |
| Symbols.TrimIdempotent | src/io/symbolsFromFile.ts:6 | Trimming twice equals trimming once. |
| Symbols.UpperChar | src/io/symbolsFromFile.ts:6 | Upper-casing maps a–z to A–Z, leaves every other character alone, and never yields a–z. |
| Symbols.Normalize | src/io/symbolsFromFile.ts:6 | A normalised line is trimmed and has no lower-case letters. It is empty exactly for a whitespace-only line and holds no "\n". |
| Symbols.NonEmpty | src/io/symbolsFromFile.ts:7 | The filter keeps every non-empty string and only those, never more than it is given; on one string it keeps it exactly when it is non-empty. |
| Symbols.NonEmptyAppend | src/io/symbolsFromFile.ts:7 | Filtering a concatenation is the concatenation of the filtered parts, so kept strings keep their order and multiplicity. |
| Symbols.SymbolsFromTextFacts | src/io/symbolsFromFile.ts:3-8 | Every symbol is an entry: non-empty, trimmed, upper-case, one line. There are at most lines-many, each is a normalised line, and no non-blank line is lost (membership; order is stated by `ReadJoined`). |
| Symbols.NormalizeDropCr | src/io/symbolsFromFile.ts:5-6 | The "\r" that `/\r?\n/` takes into the separator would be trimmed anyway: dropping it does not change the normalised line. |
| Symbols.ReadJoined | src/io/symbolsFromFile.ts:3-8 | Reading two texts joined by "\n" gives the first text's symbols followed by the second's, so the list follows line order, duplicates included. |
| Symbols.ReadOneLine | src/io/symbolsFromFile.ts:3-8 | A text without a line break reads as its trimmed, upper-cased line, or as nothing when the line is blank. |
| Symbols.SplitJoin | src/io/symbolsFromFile.ts:5 | Splitting entries joined by "\n" or "\r\n" gives the entries back. |
| Symbols.WriteThenRead | src/io/symbolsFromFile.ts:3-8 | A list of entries written one per line, with either line ending, reads back unchanged. |
| Symbols.ReadIdempotent | src/io/symbolsFromFile.ts:3-8 | Reading, writing back and reading again gives the first read. |
| Symbols.NormalizeExample | src/io/symbolsFromFile.ts:6 | `" a"` normalises to `"A"` and `"b\rc "` to `"B\rC"`: the trailing blank goes, the inner "\r" stays. |
| Symbols.InteriorCrKept | src/io/symbolsFromFile.ts:3-8 | `["A", "B\rC"]` written with "\r\n" line ends reads back unchanged: a "\r" inside a line is kept. |

## Left out

- The file read in `symbolsFromFile` (`readFileSync`) and UTF-8 decoding are left out. The model starts from the decoded text.
- Symbols.UpperChar: upper-cases only ASCII letters. JavaScript's `toUpperCase` also maps non-ASCII letters, some of them to several characters (ß becomes SS).
- Floating-point arithmetic is left out. Prices and oscillator values are exact reals, so IEEE rounding, infinities and overflow are not modelled beyond the NaN cases named above.
- In the forward engine, %K, %D and the volume average come from the charting runtime (`ta.stoch` and `ta.sma`). They are inputs here (`Bars.k`, `Bars.d`, `Bars.avgVol`), and the runtime call (`pineTS.run`) is not modelled.
- Left out of the forward engine's output, because they are text for display or chart styling:
  - the tooltips: `getCandleDescription`, its pressure texts, and the strings built around them;
  - the pressure labels and the `pressureShort` meta field;
  - the guides, which repeat p1Bar/p2Bar;
  - the atan angle and the over-bought and over-sold day counters;
  - the label offsets and label `y` positions, and the `meta.signalLabel` and `meta.endLabel` display inputs (text and offsets) passed back in the output;
  - `requiredRawForCross` and the convergence figures.
- The double-top and double-bottom label-text inputs are not read by the loop, which writes the literals "Double Top" and "Double Bottom"; the model writes the same literals.
- The forward engine's pending buffers start as NaN in the source. The model starts them at bar 0 with undefined %K. They are read only after the flag is set, which also writes them.
- PineHelpers.Highest: its callers pass a bar inside the series, and a window of fewer than one bar is given as `None`. The source returns -Infinity for an empty window.
- PineHelpers.Lowest: the same, with +Infinity for an empty window.
- The orchestration around these files is not part of this model:
  - `src/index.ts`, which fans out over symbols with a worker pool and delays;
  - the Yahoo download;
  - the CSV writer;
  - `src/engine/pineWrapper.ts`.
