/**
 * Scoring closures of the forward engine (src/engine/pine_port/stoch_div_pro_nison.ts):
 * the 0..9 divergence strength, its verbal assessment, the 1..10 signal strength and the
 * Nison candlestick classification with its score.
 */
module PineScoring {
  import opened Common
  import opened PineHelpers

  // ---------------------------------------------------------------- strength

  /** Points for how deep in overbought (bearish) or oversold (bullish) the first %K was. */
  function LevelPoints(isBear: bool, p1: Num, overSold: real, overBought: real): (r: int)
    ensures 0 <= r <= 3
    ensures r == 3 <==> if isBear then Gt(p1, Avail(overBought + 5.0)) else Lt(p1, Avail(overSold - 5.0))
    ensures r >= 2 <==> if isBear then Gt(p1, Avail(overBought)) else Lt(p1, Avail(overSold))
    ensures r > 0 <==> if isBear then Gt(p1, Avail(overBought - 10.0)) else Lt(p1, Avail(overSold + 10.0))
  {
    if isBear then
      (if Gt(p1, Avail(overBought + 5.0)) then 3
       else if Gt(p1, Avail(overBought)) then 2
       else if Gt(p1, Avail(overBought - 10.0)) then 1 else 0)
    else
      (if Lt(p1, Avail(overSold - 5.0)) then 3
       else if Lt(p1, Avail(overSold)) then 2
       else if Lt(p1, Avail(overSold + 10.0)) then 1 else 0)
  }

  /** Points for how far %K moved against price between the two pivots. */
  function MovePoints(isBear: bool, p1: Num, p2: Num): (r: int)
    ensures 0 <= r <= 3
    ensures r == 3 <==> Gt(if isBear then Sub(p1, p2) else Sub(p2, p1), Avail(25.0))
    ensures r >= 2 <==> Gt(if isBear then Sub(p1, p2) else Sub(p2, p1), Avail(15.0))
    ensures r > 0 <==> Gt(if isBear then Sub(p1, p2) else Sub(p2, p1), Avail(5.0))
  {
    var move := if isBear then Sub(p1, p2) else Sub(p2, p1);
    if Gt(move, Avail(25.0)) then 3
    else if Gt(move, Avail(15.0)) then 2
    else if Gt(move, Avail(5.0)) then 1 else 0
  }

  /** Points for the one-bar slope of %K in the direction of the expected reversal. */
  function SlopePoints(isBear: bool, kVal: Num, kPrev: Num): (r: int)
    ensures 0 <= r <= 3
    ensures r == 3 <==> if isBear then Lt(Sub(kVal, kPrev), Avail(-7.0)) else Gt(Sub(kVal, kPrev), Avail(7.0))
    ensures r >= 2 <==> if isBear then Lt(Sub(kVal, kPrev), Avail(-3.0)) else Gt(Sub(kVal, kPrev), Avail(3.0))
    ensures r > 0 <==> if isBear then Lt(Sub(kVal, kPrev), Avail(-1.0)) else Gt(Sub(kVal, kPrev), Avail(1.0))
  {
    var slope := Sub(kVal, kPrev);
    if isBear then
      (if Lt(slope, Avail(-7.0)) then 3 else if Lt(slope, Avail(-3.0)) then 2
       else if Lt(slope, Avail(-1.0)) then 1 else 0)
    else
      (if Gt(slope, Avail(7.0)) then 3 else if Gt(slope, Avail(3.0)) then 2
       else if Gt(slope, Avail(1.0)) then 1 else 0)
  }

  /**
   * The strength score of calculateStrength. An undefined first %K scores nothing for level
   * and movement, an undefined %K on either side of the slope nothing for the slope.
   */
  function Strength(isBear: bool, p1: Num, p2: Num, kVal: Num, kPrev: Num, overSold: real, overBought: real): (r: int)
    ensures 0 <= r <= 9
    ensures p1 == NotYet ==> r == SlopePoints(isBear, kVal, kPrev) && r <= 3
    ensures kVal == NotYet || kPrev == NotYet ==> r == LevelPoints(isBear, p1, overSold, overBought) + MovePoints(isBear, p1, p2)
  {
    LevelPoints(isBear, p1, overSold, overBought) + MovePoints(isBear, p1, p2) + SlopePoints(isBear, kVal, kPrev)
  }

  /** The top score needs all three strongest thresholds, for either direction. */
  lemma StrengthTopIff(isBear: bool, p1: Num, p2: Num, kVal: Num, kPrev: Num, overSold: real, overBought: real)
    ensures Strength(isBear, p1, p2, kVal, kPrev, overSold, overBought) == 9 <==>
      if isBear then
        Gt(p1, Avail(overBought + 5.0)) && Gt(Sub(p1, p2), Avail(25.0)) && Lt(Sub(kVal, kPrev), Avail(-7.0))
      else
        Lt(p1, Avail(overSold - 5.0)) && Gt(Sub(p2, p1), Avail(25.0)) && Gt(Sub(kVal, kPrev), Avail(7.0))
  {
    var l := LevelPoints(isBear, p1, overSold, overBought);
    var m := MovePoints(isBear, p1, p2);
    var s := SlopePoints(isBear, kVal, kPrev);
    assert l + m + s == 9 <==> l == 3 && m == 3 && s == 3;
  }

  // ---------------------------------------------------------------- assessment

  datatype Band = VeryStrong | Strong | MediumHigh | Medium | Weak

  /** getStrengthAssessment's cascade of score bands. */
  function BandOf(score: int): (b: Band)
    ensures b == VeryStrong <==> score >= 8
    ensures b == Strong <==> 6 <= score < 8
    ensures b == MediumHigh <==> 4 <= score < 6
    ensures b == Medium <==> 2 <= score < 4
    ensures b == Weak <==> score < 2
  {
    if score >= 8 then VeryStrong
    else if score >= 6 then Strong
    else if score >= 4 then MediumHigh
    else if score >= 2 then Medium
    else Weak
  }

  function Rank(b: Band): int {
    match b
    case Weak => 0
    case Medium => 1
    case MediumHigh => 2
    case Strong => 3
    case VeryStrong => 4
  }

  function BandText(b: Band): string {
    match b
    case VeryStrong => "Very Strong Divergence"
    case Strong => "Strong Divergence"
    case MediumHigh => "Medium-High Divergence"
    case Medium => "Medium Divergence"
    case Weak => "Weak Divergence"
  }

  function BandEmoji(b: Band): string {
    match b
    case VeryStrong => "\U{1F525}"
    case Strong => "\U{1F4AA}"
    case MediumHigh => "\U{26A1}"
    case Medium => "\U{1F4CA}"
    case Weak => "\U{26A0}\U{FE0F}"
  }

  /** A higher score never gets a weaker assessment. */
  lemma BandMonotone(s1: int, s2: int)
    requires s1 <= s2
    ensures Rank(BandOf(s1)) <= Rank(BandOf(s2))
  {
  }

  /** The assessment text names the band: different bands read differently. */
  lemma BandTextDistinct(b1: Band, b2: Band)
    requires b1 != b2
    ensures BandText(b1) != BandText(b2)
  {
    if b1.VeryStrong? || b2.VeryStrong? {
      assert BandText(VeryStrong)[0] == 'V';
      assert BandText(Strong)[0] == 'S' && BandText(MediumHigh)[0] == 'M';
      assert BandText(Medium)[0] == 'M' && BandText(Weak)[0] == 'W';
    } else if b1.Strong? || b2.Strong? {
      assert BandText(Strong)[0] == 'S';
      assert BandText(MediumHigh)[0] == 'M' && BandText(Medium)[0] == 'M' && BandText(Weak)[0] == 'W';
    } else if b1.Weak? || b2.Weak? {
      assert BandText(Weak)[0] == 'W';
      assert BandText(MediumHigh)[0] == 'M' && BandText(Medium)[0] == 'M';
    } else {
      assert |BandText(MediumHigh)| != |BandText(Medium)|;
    }
  }

  /** What calculateStrength returns. */
  datatype StrengthInfo = StrengthInfo(text: string, emoji: string, score: int)

  /**
   * calculateStrength(i, isBear, p1, p2, kVal): the slope is taken against k[i - 1], which
   * is undefined at the first bar.
   */
  method CalculateStrength(k: seq<Num>, i: int, isBear: bool, p1: Num, p2: Num, kVal: Num,
                           overSold: real, overBought: real) returns (r: StrengthInfo)
    ensures r.score == Strength(isBear, p1, p2, kVal, AtNum(k, i - 1), overSold, overBought)
    ensures 0 <= r.score <= 9
    ensures r.text == BandText(BandOf(r.score)) && r.emoji == BandEmoji(BandOf(r.score))
  {
    var s;
    var kPrev := AtNum(k, i - 1);
    if isBear {
      s := BearishPoints(p1, p2, kVal, kPrev, overSold, overBought);
    } else {
      s := BullishPoints(p1, p2, kVal, kPrev, overSold, overBought);
    }
    var band := BandOf(s);
    r := StrengthInfo(BandText(band), BandEmoji(band), s);
  }

  /** The bearish branch of calculateStrength: level, fall and slope points added up. */
  method BearishPoints(p1: Num, p2: Num, kVal: Num, kPrev: Num, overSold: real, overBought: real) returns (s: int)
    ensures s == Strength(true, p1, p2, kVal, kPrev, overSold, overBought)
  {
    s := 0;
    if Gt(p1, Avail(overBought + 5.0)) { s := s + 3; }
    else if Gt(p1, Avail(overBought)) { s := s + 2; }
    else if Gt(p1, Avail(overBought - 10.0)) { s := s + 1; }
    assert s == LevelPoints(true, p1, overSold, overBought);
    var fall := Sub(p1, p2);
    if Gt(fall, Avail(25.0)) { s := s + 3; }
    else if Gt(fall, Avail(15.0)) { s := s + 2; }
    else if Gt(fall, Avail(5.0)) { s := s + 1; }
    assert s == LevelPoints(true, p1, overSold, overBought) + MovePoints(true, p1, p2);
    var kSlope := Sub(kVal, kPrev);
    if Lt(kSlope, Avail(-7.0)) { s := s + 3; }
    else if Lt(kSlope, Avail(-3.0)) { s := s + 2; }
    else if Lt(kSlope, Avail(-1.0)) { s := s + 1; }
  }

  /** The bullish branch: level, rise and slope points added up. */
  method BullishPoints(p1: Num, p2: Num, kVal: Num, kPrev: Num, overSold: real, overBought: real) returns (s: int)
    ensures s == Strength(false, p1, p2, kVal, kPrev, overSold, overBought)
  {
    s := 0;
    if Lt(p1, Avail(overSold - 5.0)) { s := s + 3; }
    else if Lt(p1, Avail(overSold)) { s := s + 2; }
    else if Lt(p1, Avail(overSold + 10.0)) { s := s + 1; }
    assert s == LevelPoints(false, p1, overSold, overBought);
    var rise := Sub(p2, p1);
    if Gt(rise, Avail(25.0)) { s := s + 3; }
    else if Gt(rise, Avail(15.0)) { s := s + 2; }
    else if Gt(rise, Avail(5.0)) { s := s + 1; }
    assert s == LevelPoints(false, p1, overSold, overBought) + MovePoints(false, p1, p2);
    var kSlope := Sub(kVal, kPrev);
    if Gt(kSlope, Avail(7.0)) { s := s + 3; }
    else if Gt(kSlope, Avail(3.0)) { s := s + 2; }
    else if Gt(kSlope, Avail(1.0)) { s := s + 1; }
  }

  /** Math.round: the nearest integer, halves rounded up. */
  function Round(x: real): int {
    (x + 0.5).Floor
  }

  /** The tooltip's 1..10 signal strength: min(10, max(1, round(score / 9 * 9) + 1)). */
  function SignalStrength(score: int): (r: int)
    ensures 1 <= r <= 10
    ensures 0 <= score <= 9 ==> r == score + 1
  {
    Min(10, Max(1, Round(score as real / 9.0 * 9.0) + 1))
  }

  // ---------------------------------------------------------------- candles

  // Candle measurements of bar j; reads before the first bar are undefined, so every
  // comparison involving them is false.
  function O(b: Bars, j: int): Num { At(b.open, j) }
  function H(b: Bars, j: int): Num { At(b.high, j) }
  function L(b: Bars, j: int): Num { At(b.low, j) }
  function C(b: Bars, j: int): Num { At(b.close, j) }

  predicate IsBullish(b: Bars, j: int) { Gt(C(b, j), O(b, j)) }
  predicate IsBearish(b: Bars, j: int) { Lt(C(b, j), O(b, j)) }
  function BodySize(b: Bars, j: int): Num { NAbs(Sub(C(b, j), O(b, j))) }
  function UpperShadow(b: Bars, j: int): Num { Sub(H(b, j), NMax(O(b, j), C(b, j))) }
  function LowerShadow(b: Bars, j: int): Num { Sub(NMin(O(b, j), C(b, j)), L(b, j)) }
  function CandleRange(b: Bars, j: int): Num { Sub(H(b, j), L(b, j)) }

  predicate IsDojiBody(b: Bars, j: int) {
    Gt(CandleRange(b, j), Avail(0.0)) && Le(BodySize(b, j), Scale(0.1, CandleRange(b, j)))
  }

  /** checkPriorTrend: the previous close against the close `lookback` bars back, clamped at bar 0. */
  predicate PriorTrend(b: Bars, i: int, lookback: int, up: bool) {
    var start := Max(0, i - lookback);
    if up then Gt(C(b, i - 1), C(b, start)) else Lt(C(b, i - 1), C(b, start))
  }

  function Mid(a: Num, c: Num): Num { Scale(0.5, Add(a, c)) }

  /** The sixteen Nison conditions evaluated at bar i. */
  datatype Conds = Conds(
    hammer: bool, invertedHammer: bool, bullEngulf: bool, piercing: bool, morningStar: bool,
    threeWhite: bool, bullHarami: bool, hangingMan: bool, shootingStar: bool, bearEngulf: bool,
    darkCloud: bool, eveningStar: bool, threeBlack: bool, bearHarami: bool, doji: bool,
    haramiCross: bool)

  predicate HammerShape(b: Bars, i: int) {
    Ge(LowerShadow(b, i), Scale(2.0, BodySize(b, i))) && Lt(UpperShadow(b, i), BodySize(b, i))
    && Gt(BodySize(b, i), Avail(0.0))
  }

  predicate InvertedHammerShape(b: Bars, i: int) {
    Ge(UpperShadow(b, i), Scale(2.0, BodySize(b, i))) && Lt(LowerShadow(b, i), BodySize(b, i))
    && Gt(BodySize(b, i), Avail(0.0))
  }

  function NisonConds(b: Bars, lookback: int, i: int): Conds {
    var up := PriorTrend(b, i, lookback, true);
    var down := PriorTrend(b, i, lookback, false);
    Conds(
      hammer := down && HammerShape(b, i),
      invertedHammer := down && InvertedHammerShape(b, i),
      bullEngulf := down && IsBearish(b, i - 1) && IsBullish(b, i)
        && Gt(C(b, i), O(b, i - 1)) && Lt(O(b, i), C(b, i - 1)),
      piercing := down && IsBearish(b, i - 1) && IsBullish(b, i) && Lt(O(b, i), C(b, i - 1))
        && Gt(C(b, i), Mid(O(b, i - 1), C(b, i - 1))) && Lt(C(b, i), O(b, i - 1)),
      morningStar := down && IsBearish(b, i - 2) && Gt(BodySize(b, i - 2), BodySize(b, i - 1))
        && Lt(NMin(O(b, i - 1), C(b, i - 1)), C(b, i - 2)) && IsBullish(b, i)
        && Gt(C(b, i), Mid(O(b, i - 2), C(b, i - 2))),
      threeWhite := down && IsBullish(b, i - 2) && IsBullish(b, i - 1) && IsBullish(b, i)
        && Gt(C(b, i - 1), C(b, i - 2)) && Gt(C(b, i), C(b, i - 1))
        && Gt(O(b, i - 1), O(b, i - 2)) && Lt(O(b, i - 1), C(b, i - 2))
        && Gt(O(b, i), O(b, i - 1)) && Lt(O(b, i), C(b, i - 1)),
      bullHarami := down && IsBearish(b, i - 1) && IsBullish(b, i)
        && Gt(O(b, i), C(b, i - 1)) && Lt(C(b, i), O(b, i - 1)),
      hangingMan := up && HammerShape(b, i),
      shootingStar := up && InvertedHammerShape(b, i),
      bearEngulf := up && IsBullish(b, i - 1) && IsBearish(b, i)
        && Lt(C(b, i), O(b, i - 1)) && Gt(O(b, i), C(b, i - 1)),
      darkCloud := up && IsBullish(b, i - 1) && IsBearish(b, i) && Gt(O(b, i), C(b, i - 1))
        && Lt(C(b, i), Mid(O(b, i - 1), C(b, i - 1))) && Gt(C(b, i), O(b, i - 1)),
      eveningStar := up && IsBullish(b, i - 2) && Gt(BodySize(b, i - 2), BodySize(b, i - 1))
        && Gt(NMax(O(b, i - 1), C(b, i - 1)), C(b, i - 2)) && IsBearish(b, i)
        && Lt(C(b, i), Mid(O(b, i - 2), C(b, i - 2))),
      threeBlack := up && IsBearish(b, i - 2) && IsBearish(b, i - 1) && IsBearish(b, i)
        && Lt(C(b, i - 1), C(b, i - 2)) && Lt(C(b, i), C(b, i - 1))
        && Lt(O(b, i - 1), O(b, i - 2)) && Gt(O(b, i - 1), C(b, i - 2))
        && Lt(O(b, i), O(b, i - 1)) && Gt(O(b, i), C(b, i - 1)),
      bearHarami := up && IsBullish(b, i - 1) && IsBearish(b, i)
        && Lt(O(b, i), C(b, i - 1)) && Gt(C(b, i), O(b, i - 1)),
      doji := IsDojiBody(b, i),
      haramiCross := (up || down) && Gt(BodySize(b, i - 1), Scale(3.0, BodySize(b, i)))
        && IsDojiBody(b, i) && Lt(H(b, i), H(b, i - 1)) && Gt(L(b, i), L(b, i - 1)))
  }

  /** A three-bar pattern needs two earlier bars: none of them fires before bar 2. */
  lemma ThreeBarPatternsNeedHistory(b: Bars, lookback: int, i: int)
    requires i < 2
    ensures !NisonConds(b, lookback, i).morningStar && !NisonConds(b, lookback, i).eveningStar
    ensures !NisonConds(b, lookback, i).threeWhite && !NisonConds(b, lookback, i).threeBlack
  {
    assert !At(b.close, i - 2).Avail?;
  }

  /** At bar 0 there is no previous close, so no trend and only the plain doji can fire. */
  lemma FirstBarOnlyDoji(b: Bars, lookback: int)
    ensures NisonConds(b, lookback, 0) == Conds(false, false, false, false, false, false, false,
      false, false, false, false, false, false, false, IsDojiBody(b, 0), false)
  {
    assert !At(b.close, -1).Avail?;
  }

  // ---------------------------------------------------------------- pattern selection

  datatype Pattern =
    | ThreeWhiteSoldiers | ThreeBlackCrows | MorningStar | EveningStar
    | BullishEngulfing | BearishEngulfing | PiercingPattern | DarkCloudCover
    | HaramiCross | BullishHarami | BearishHarami | Hammer | HangingMan
    | InvertedHammer | ShootingStar | Doji | NoPattern

  /** The condition that detects pattern p. */
  predicate Holds(c: Conds, p: Pattern) {
    match p
    case ThreeWhiteSoldiers => c.threeWhite
    case ThreeBlackCrows => c.threeBlack
    case MorningStar => c.morningStar
    case EveningStar => c.eveningStar
    case BullishEngulfing => c.bullEngulf
    case BearishEngulfing => c.bearEngulf
    case PiercingPattern => c.piercing
    case DarkCloudCover => c.darkCloud
    case HaramiCross => c.haramiCross
    case BullishHarami => c.bullHarami
    case BearishHarami => c.bearHarami
    case Hammer => c.hammer
    case HangingMan => c.hangingMan
    case InvertedHammer => c.invertedHammer
    case ShootingStar => c.shootingStar
    case Doji => c.doji
    case NoPattern => false
  }

  /** The position of each pattern in the order the cascade tries them, strongest first. */
  function PriorityRank(p: Pattern): int {
    match p
    case ThreeWhiteSoldiers => 0
    case ThreeBlackCrows => 1
    case MorningStar => 2
    case EveningStar => 3
    case BullishEngulfing => 4
    case BearishEngulfing => 5
    case PiercingPattern => 6
    case DarkCloudCover => 7
    case HaramiCross => 8
    case BullishHarami => 9
    case BearishHarami => 10
    case Hammer => 11
    case HangingMan => 12
    case InvertedHammer => 13
    case ShootingStar => 14
    case Doji => 15
    case NoPattern => 16
  }

  /** The if / else-if cascade of the nison closure. */
  function Select(c: Conds): Pattern {
    if c.threeWhite then ThreeWhiteSoldiers
    else if c.threeBlack then ThreeBlackCrows
    else if c.morningStar then MorningStar
    else if c.eveningStar then EveningStar
    else if c.bullEngulf then BullishEngulfing
    else if c.bearEngulf then BearishEngulfing
    else if c.piercing then PiercingPattern
    else if c.darkCloud then DarkCloudCover
    else if c.haramiCross then HaramiCross
    else if c.bullHarami then BullishHarami
    else if c.bearHarami then BearishHarami
    else if c.hammer then Hammer
    else if c.hangingMan then HangingMan
    else if c.invertedHammer then InvertedHammer
    else if c.shootingStar then ShootingStar
    else if c.doji then Doji
    else NoPattern
  }

  /**
   * The cascade picks the highest-priority pattern whose condition holds, and no pattern
   * exactly when none holds.
   */
  lemma SelectIsFirstMatch(c: Conds)
    ensures Select(c) == NoPattern <==> forall p :: !Holds(c, p)
    ensures Select(c) != NoPattern ==> Holds(c, Select(c))
    ensures forall q :: PriorityRank(q) < PriorityRank(Select(c)) ==> !Holds(c, q)
  {
    forall q | PriorityRank(q) < PriorityRank(Select(c)) ensures !Holds(c, q) {
      SkippedFails(c, q);
    }
    forall p ensures Select(c) == NoPattern ==> !Holds(c, p) {
      SkippedFails(c, p);
    }
    if Select(c) != NoPattern {
      assert Holds(c, Select(c));
    }
  }

  /** Every pattern the cascade passes over before its answer has a false condition. */
  lemma SkippedFails(c: Conds, q: Pattern)
    ensures PriorityRank(q) < PriorityRank(Select(c)) ==> !Holds(c, q)
    ensures Select(c) == NoPattern ==> !Holds(c, q)
  {
    match q
    case ThreeWhiteSoldiers =>
    case ThreeBlackCrows =>
    case MorningStar =>
    case EveningStar =>
    case BullishEngulfing =>
    case BearishEngulfing =>
    case PiercingPattern =>
    case DarkCloudCover =>
    case HaramiCross =>
    case BullishHarami =>
    case BearishHarami =>
    case Hammer =>
    case HangingMan =>
    case InvertedHammer =>
    case ShootingStar =>
    case Doji =>
    case NoPattern =>
  }

  function PatternName(p: Pattern): (s: string)
    ensures s == "" <==> p == NoPattern
  {
    match p
    case ThreeWhiteSoldiers => "Three White Soldiers"
    case ThreeBlackCrows => "Three Black Crows"
    case MorningStar => "Morning Star"
    case EveningStar => "Evening Star"
    case BullishEngulfing => "Bullish Engulfing"
    case BearishEngulfing => "Bearish Engulfing"
    case PiercingPattern => "Piercing Pattern"
    case DarkCloudCover => "Dark Cloud Cover"
    case HaramiCross => "Harami Cross"
    case BullishHarami => "Bullish Harami"
    case BearishHarami => "Bearish Harami"
    case Hammer => "Hammer"
    case HangingMan => "Hanging Man"
    case InvertedHammer => "Inverted Hammer"
    case ShootingStar => "Shooting Star"
    case Doji => "Doji"
    case NoPattern => ""
  }

  /** The direction label; a harami cross takes its side from the colour of the previous bar. */
  function Direction(p: Pattern, prevBearish: bool): string {
    match p
    case ThreeWhiteSoldiers => "Long"
    case ThreeBlackCrows => "Short"
    case MorningStar => "Long"
    case EveningStar => "Short"
    case BullishEngulfing => "Long"
    case BearishEngulfing => "Short"
    case PiercingPattern => "Long"
    case DarkCloudCover => "Short"
    case HaramiCross => if prevBearish then "Long (Potential)" else "Short (Potential)"
    case BullishHarami => "Long (Requires Confirmation)"
    case BearishHarami => "Short (Requires Confirmation)"
    case Hammer => "Long"
    case HangingMan => "Short"
    case InvertedHammer => "Long (Requires Confirmation)"
    case ShootingStar => "Short"
    case Doji => "Neutral - Potential Reversal"
    case NoPattern => ""
  }

  function BaseScore(p: Pattern): (r: int)
    ensures r == 0 <==> p == NoPattern
    ensures p != NoPattern ==> 30 <= r <= 90
  {
    match p
    case ThreeWhiteSoldiers => 90
    case ThreeBlackCrows => 90
    case MorningStar => 85
    case EveningStar => 85
    case BullishEngulfing => 75
    case BearishEngulfing => 75
    case PiercingPattern => 70
    case DarkCloudCover => 70
    case HaramiCross => 65
    case BullishHarami => 60
    case BearishHarami => 60
    case Hammer => 50
    case HangingMan => 50
    case InvertedHammer => 45
    case ShootingStar => 45
    case Doji => 30
    case NoPattern => 0
  }

  predicate StartsWith(s: string, prefix: string) {
    |prefix| <= |s| && s[..|prefix|] == prefix
  }

  /** +15 when %K sits in the zone the pattern's direction reverses from. */
  function StochBonus(dir: string, kVal: Num, overSold: real, overBought: real): (r: int)
    ensures r == 0 || r == 15
    ensures r == 15 <==> (StartsWith(dir, "Long") && Lt(kVal, Avail(overSold)))
                         || (StartsWith(dir, "Short") && Gt(kVal, Avail(overBought)))
  {
    if (StartsWith(dir, "Long") && Lt(kVal, Avail(overSold)))
      || (StartsWith(dir, "Short") && Gt(kVal, Avail(overBought))) then 15 else 0
  }

  /** +15 for volume above 1.5 times its average, +5 for volume above the average. */
  function VolumeBonus(vol: Num, avgVol: Num): (r: int)
    ensures r == 0 || r == 5 || r == 15
    ensures r == 15 <==> Gt(vol, Scale(1.5, avgVol))
    ensures r == 5 <==> !Gt(vol, Scale(1.5, avgVol)) && Gt(vol, avgVol)
    ensures avgVol == NotYet ==> r == 0
  {
    if Gt(vol, Scale(1.5, avgVol)) then 15 else if Gt(vol, avgVol) then 5 else 0
  }

  datatype NisonInfo = NisonInfo(pattern: string, dir: string, finalScore: int)

  /** The nison closure at bar i. */
  function Nison(b: Bars, cfg: Config, i: int): NisonInfo {
    var p := Select(NisonConds(b, cfg.trendLookback, i));
    var dir := Direction(p, IsBearish(b, i - 1));
    var base := BaseScore(p);
    var score :=
      if base > 0 then
        Min(100, base + StochBonus(dir, AtNum(b.k, i), cfg.overSold, cfg.overBought)
                      + VolumeBonus(At(b.volume, i), AtNum(b.avgVol, i)))
      else base;
    NisonInfo(PatternName(p), dir, score)
  }

  /** The nison closure as a value: the bar loop receives it and calls it on a bar index. */
  type NisonFn = int -> NisonInfo

  function NisonOf(b: Bars, cfg: Config): NisonFn {
    i => Nison(b, cfg, i)
  }

  /** No pattern name exactly when no condition holds; then direction and score are empty. */
  lemma NisonNoPattern(b: Bars, cfg: Config, i: int)
    ensures Nison(b, cfg, i).pattern == "" <==> forall p :: !Holds(NisonConds(b, cfg.trendLookback, i), p)
    ensures Nison(b, cfg, i).pattern == "" ==> Nison(b, cfg, i).dir == "" && Nison(b, cfg, i).finalScore == 0
  {
    SelectIsFirstMatch(NisonConds(b, cfg.trendLookback, i));
  }

  /**
   * A detected pattern scores its base plus 0 or 15 for %K and 0, 5 or 15 for volume,
   * capped at 100.
   */
  lemma NisonScoreBounds(b: Bars, cfg: Config, i: int)
    requires Nison(b, cfg, i).pattern != ""
    ensures var base := BaseScore(Select(NisonConds(b, cfg.trendLookback, i)));
      var score := Nison(b, cfg, i).finalScore;
      score == Min(100, base) || score == Min(100, base + 5) || score == Min(100, base + 15)
      || score == Min(100, base + 20) || score == Min(100, base + 30)
    ensures BaseScore(Select(NisonConds(b, cfg.trendLookback, i))) <= Nison(b, cfg, i).finalScore <= 100
    ensures Nison(b, cfg, i).finalScore <= BaseScore(Select(NisonConds(b, cfg.trendLookback, i))) + 30
    ensures 30 <= Nison(b, cfg, i).finalScore
  {
    var p := Select(NisonConds(b, cfg.trendLookback, i));
    assert p != NoPattern;
  }

  /** A doji is directionless: it never earns the stochastic bonus and scores at most 45. */
  lemma DojiNoStochBonus(b: Bars, cfg: Config, i: int)
    requires Select(NisonConds(b, cfg.trendLookback, i)) == Doji
    ensures Nison(b, cfg, i).finalScore == 30 + VolumeBonus(At(b.volume, i), AtNum(b.avgVol, i))
    ensures Nison(b, cfg, i).finalScore <= 45
  {
    var dir := Direction(Doji, IsBearish(b, i - 1));
    assert dir[0] == 'N';
    assert !StartsWith(dir, "Long") && !StartsWith(dir, "Short");
  }

  /**
   * A long pattern at an oversold %K on heavy volume earns both bonuses; the cap of 100 binds
   * for every base above 70.
   */
  lemma LongPatternFullBonus(b: Bars, cfg: Config, i: int)
    requires Direction(Select(NisonConds(b, cfg.trendLookback, i)), IsBearish(b, i - 1)) == "Long"
    requires Lt(AtNum(b.k, i), Avail(cfg.overSold))
    requires Gt(At(b.volume, i), Scale(1.5, AtNum(b.avgVol, i)))
    ensures Nison(b, cfg, i).finalScore == Min(100, BaseScore(Select(NisonConds(b, cfg.trendLookback, i))) + 30)
  {
    assert StartsWith("Long", "Long");
  }
}
