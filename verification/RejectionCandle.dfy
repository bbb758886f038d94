/**
 * The rejection candle every detector of the multi-setup strategy wants on the current bar
 * (strategy/patterns/_multi_setup_common.py): a pin or an engulfing bar, on enough volume.
 */
module RejectionCandle {
  import opened Common
  import opened Market
  import opened RealFacts

  const PIN_BODY_MAX_FRAC := 0.33
  const PIN_WICK_MIN_BODY_MULT := 2.0
  const PIN_WICK_MIN_RANGE_FRAC := 0.55
  const ENGULF_BODY_MIN_MULT := 1.0
  const ENGULF_BODY_MIN_RANGE_FRAC := 0.40
  const REJECT_VOL_MIN_MULT := 1.1
  const REJECT_VOL_LOOKBACK_BARS := 20

  function Body(b: Bar): real {
    Abs(b.close - b.open)
  }

  function Range(b: Bar): real {
    b.high - b.low
  }

  /** The wick that shows rejection in this direction: the lower one for a buy. */
  function Wick(dir: Direction, b: Bar): real {
    if dir.Buy? then Min(b.open, b.close) - b.low else b.high - Max(b.open, b.close)
  }

  /** A small body of the right colour, or none, behind a long wick. */
  predicate IsPin(dir: Direction, b: Bar) {
    var body, wick := Body(b), Wick(dir, b);
    && Range(b) > 0.0 && body <= PIN_BODY_MAX_FRAC * Range(b)
    && (body > 0.0 ==> wick >= PIN_WICK_MIN_BODY_MULT * body)
    && wick >= PIN_WICK_MIN_RANGE_FRAC * Range(b)
    && (body > 0.0 ==> Gain(dir, b.open, b.close) > 0.0)
  }

  /** A body that covers the opposite body before it and makes up enough of its own bar. */
  predicate IsEngulfing(dir: Direction, prev: Bar, b: Bar) {
    var body := Gain(dir, b.open, b.close);
    && Gain(dir, prev.open, prev.close) < 0.0
    && Gain(dir, b.open, prev.close) >= 0.0 && Gain(dir, prev.open, b.close) >= 0.0
    && body > 0.0 && body >= ENGULF_BODY_MIN_MULT * Body(prev)
    && Range(b) > 0.0 && body >= ENGULF_BODY_MIN_RANGE_FRAC * Range(b)
  }

  function VolumeSum(bars: seq<Bar>): int {
    if bars == [] then 0 else VolumeSum(Front(bars)) + Last(bars).volume
  }

  /** At least the multiple of the mean volume before it; without a mean every volume will do. */
  predicate VolumeOk(bars: seq<Bar>, k: nat)
    requires k < |bars|
  {
    var window := bars[MaxInt(0, k - REJECT_VOL_LOOKBACK_BARS)..k];
    window == [] ||
    var mean := VolumeSum(window) as real / |window| as real;
    mean <= 0.0 || bars[k].volume as real >= REJECT_VOL_MIN_MULT * mean
  }

  predicate IsRejection(dir: Direction, bars: seq<Bar>, k: nat)
    requires k < |bars|
  {
    (IsPin(dir, bars[k]) || (k >= 1 && IsEngulfing(dir, bars[k - 1], bars[k]))) && VolumeOk(bars, k)
  }

  /** The pre-gate of the event loop. */
  predicate IsCandidate(bars: seq<Bar>, k: nat)
    requires k < |bars|
  {
    IsRejection(Buy, bars, k) || IsRejection(Sell, bars, k)
  }

  lemma VolumeLooksBack(bars: seq<Bar>, others: seq<Bar>, k: nat)
    requires k < |bars| && k < |others| && bars[..k + 1] == others[..k + 1]
    ensures VolumeOk(bars, k) == VolumeOk(others, k)
  {
    hide VolumeSum;
    var from := MaxInt(0, k - REJECT_VOL_LOOKBACK_BARS);
    assert bars[from..k] == bars[..k + 1][from..k] == others[from..k];
    assert bars[k] == bars[..k + 1][k] == others[k];
  }

  /** It looks at nothing after bar `k`. */
  lemma CandidateLooksBack(bars: seq<Bar>, others: seq<Bar>, k: nat)
    requires k < |bars| && k < |others| && bars[..k + 1] == others[..k + 1]
    ensures IsCandidate(bars, k) == IsCandidate(others, k)
  {
    hide IsPin, IsEngulfing, VolumeOk;
    VolumeLooksBack(bars, others, k);
    assert bars[k] == bars[..k + 1][k] == others[k];
    if k >= 1 { assert bars[k - 1] == bars[..k + 1][k - 1] == others[k - 1]; }
  }

  // ------------------------------------------------------------------ what the candle looks like

  /** Rises, or stands still, on a small body over a long lower wick. */
  predicate PinUp(b: Bar) {
    var r := b.high - b.low;
    && r > 0.0 && b.open <= b.close <= b.open + 0.33 * r
    && b.open - b.low >= 0.55 * r && b.open - b.low >= 2.0 * (b.close - b.open)
  }

  predicate PinDown(b: Bar) {
    var r := b.high - b.low;
    && r > 0.0 && b.close <= b.open <= b.close + 0.33 * r
    && b.high - b.open >= 0.55 * r && b.high - b.open >= 2.0 * (b.open - b.close)
  }

  /** Rises from the close before or lower to the open before or higher, over two fifths of its range. */
  predicate EngulfsUp(a: Bar, b: Bar) {
    && a.close < a.open && b.open <= a.close && b.close >= a.open
    && b.high > b.low && b.close - b.open >= 0.4 * (b.high - b.low)
  }

  predicate EngulfsDown(a: Bar, b: Bar) {
    && a.close > a.open && b.open >= a.close && b.close <= a.open
    && b.high > b.low && b.open - b.close >= 0.4 * (b.high - b.low)
  }

  function Traded(bars: seq<Bar>, from: nat, to: nat): int
    requires from <= to <= |bars|
  {
    if from == to then 0 else Traded(bars, from, to - 1) + bars[to - 1].volume
  }

  /** Eleven tenths of the mean of up to twenty volumes before it, unless that mean is not positive. */
  predicate Busy(bars: seq<Bar>, k: nat)
    requires k < |bars|
  {
    var from := if k < 20 then 0 else k - 20;
    k == 0 || Traded(bars, from, k) <= 0
    || bars[k].volume as real * (k - from) as real >= 1.1 * Traded(bars, from, k) as real
  }

  lemma {:induction false} VolumeSumIsTraded(bars: seq<Bar>, from: nat, to: nat)
    requires from <= to <= |bars|
    ensures VolumeSum(bars[from..to]) == Traded(bars, from, to)
  {
    if from < to {
      VolumeSumIsTraded(bars, from, to - 1);
      assert Front(bars[from..to]) == bars[from..to - 1];
    }
  }

  lemma OverMean(v: real, sum: real, n: real)
    requires n > 0.0
    ensures sum / n <= 0.0 <==> sum <= 0.0
    ensures v >= 1.1 * (sum / n) <==> v * n >= 1.1 * sum
  {
    var mean := sum / n;
    assert sum == mean * n;
    SignOfProduct(mean, n, sum);
    SignOfProduct(-mean, n, -sum);
    var gap := v - 1.1 * mean;
    SignOfProduct(gap, n, v * n - 1.1 * sum);
    SignOfProduct(-gap, n, 1.1 * sum - v * n);
  }

  lemma VolumeOkIsBusy(bars: seq<Bar>, k: nat)
    requires k < |bars|
    ensures VolumeOk(bars, k) <==> Busy(bars, k)
  {
    hide Traded, VolumeSum;
    var from := if k < 20 then 0 else k - 20;
    VolumeSumIsTraded(bars, from, k);
    if k > 0 { OverMean(bars[k].volume as real, Traded(bars, from, k) as real, (k - from) as real); }
  }

  /** The pre-gate lets a bar through exactly when it is a pin or an engulfing bar, either way, and busy. */
  lemma CandidateIs(bars: seq<Bar>, k: nat)
    requires k < |bars|
    ensures IsCandidate(bars, k) <==>
        && Busy(bars, k)
        && (PinUp(bars[k]) || PinDown(bars[k])
            || (k > 0 && (EngulfsUp(bars[k - 1], bars[k]) || EngulfsDown(bars[k - 1], bars[k]))))
  {
    hide VolumeOk, Busy;
    VolumeOkIsBusy(bars, k);
    var b := bars[k];
    assert IsPin(Buy, b) == PinUp(b) && IsPin(Sell, b) == PinDown(b);
    if k > 0 {
      assert IsEngulfing(Buy, bars[k - 1], b) == EngulfsUp(bars[k - 1], b);
      assert IsEngulfing(Sell, bars[k - 1], b) == EngulfsDown(bars[k - 1], b);
    }
  }
}
