/** The stateful sweep detector of the NY Gold strategy (strategy/ny_gold_detector.py). */
module NyGoldDetector {
  import opened Clock
  import opened Common
  import opened NyGoldData
  import opened Sorting

  const PIP_SIZE := 1.0
  const L_SWING_15M := 2
  const SEARCH_BARS := 80
  const LEVEL_LOOKBACK_MS := 8 * HOUR_MS
  const LEVEL_INVALIDATE := 0.5 * PIP_SIZE
  const ZONE_PROXIMITY := 1.5 * PIP_SIZE
  const ZONE_MAX_DWELL_MS := 25 * MINUTE_MS
  const SWEEP_MIN_PENETRATION_PIPS := 0.1
  const SWEEP_MAX_PENETRATION_PIPS := 0.8
  const SWEEP_MAX_ATR_MULT := 0.4
  const SWEEP_REJECT_TOLERANCE := 0.1 * PIP_SIZE
  const REVERSAL_MAX_WAIT_BARS := 3
  const ENGULF_MIN_BODY := 0.2 * PIP_SIZE
  const PIN_WICK_BODY_RATIO := 2.0
  const PIN_MIN_WICK := 0.3 * PIP_SIZE
  const ATR_5M_PERIOD := 14
  const SL_BUFFER := 0.2 * PIP_SIZE
  const MIN_RISK_PIPS := 0.3
  const TP_RR := 1.5
  const TP_RR_MAX := 3.0
  const MIN_RR_FOR_OPPOSING := 1.0
  const OPPOSING_BUFFER := 0.2 * PIP_SIZE
  const OPPOSING_MAX_DISTANCE := 8.0 * PIP_SIZE
  const TOUCH_TOLERANCE := 0.5 * PIP_SIZE
  const GRADE_A_MIN_TOUCHES := 2
  const GRADE_A_PENETRATION_LO := 0.2
  const GRADE_A_PENETRATION_HI := 0.6

  /** What identifies a level in the burned set: price and swing time. */
  type Key = (real, int)

  /** A swing low is a target for buying, a swing high for selling. */
  datatype Level = Level(price: real, swingTime: int, dir: Direction, confirmed: int, touches: nat)

  function KeyOf(l: Level): Key {
    (l.price, l.swingTime)
  }

  datatype Grade = A | B
  datatype Reversal = Engulf | Pin
  datatype TpMode = FixedRR | Opposing | Hybrid

  datatype Signal = Signal(
    dir: Direction, sl: real, tp: real, grade: Grade, barTime: int, fillTime: int, rIdx: nat, sIdx: nat,
    levelPrice: real, levelSwingTime: int, depthPips: real, reversal: Reversal)

  function SignalKey(s: Signal): Key {
    (s.levelPrice, s.levelSwingTime)
  }

  /** The extreme of a bar on the side a level of this direction is swept from. */
  function Extreme(dir: Direction, b: GoldBar): real {
    if dir.Buy? then b.low else b.high
  }

  /** How far a price lies beyond the level, on the losing side. */
  function Beyond(l: Level, price: real): real {
    Gain(l.dir, price, l.price)
  }

  // ------------------------------------------------------------------ candles

  function Body(dir: Direction, b: GoldBar): real {
    Gain(dir, b.open, b.close)
  }

  predicate IsEngulf(dir: Direction, bars: seq<GoldBar>, i: nat)
    requires i < |bars|
  {
    && i >= 1
    && Body(dir, bars[i]) > 0.0
    && Body(dir, bars[i]) >= ENGULF_MIN_BODY
    && Body(dir, bars[i - 1]) < 0.0
    && Gain(dir, bars[i - 1].open, bars[i].close) >= 0.0
    && Gain(dir, bars[i].open, bars[i - 1].close) >= 0.0
  }

  predicate IsPin(dir: Direction, b: GoldBar) {
    var body := Body(dir, b);
    var wick := Gain(dir, Extreme(dir, b), b.open);
    var range := b.high - b.low;
    && body > 0.0
    && wick >= PIN_WICK_BODY_RATIO * body
    && wick >= PIN_MIN_WICK
    && range > 0.0
    && (if dir.Buy? then b.close >= b.low + range * 2.0 / 3.0 else b.close <= b.low + range * 1.0 / 3.0)
  }

  function TrueRange(prevClose: real, b: GoldBar): real {
    Max(Max(b.high - b.low, Abs(b.high - prevClose)), Abs(b.low - prevClose))
  }

  /** Sum of the true ranges of the bars from `from` on. */
  function TrueRangeSum(bars: seq<GoldBar>, from: nat): real
    requires 1 <= from <= |bars|
    decreases |bars| - from
  {
    if from == |bars| then 0.0 else TrueRange(bars[from - 1].close, bars[from]) + TrueRangeSum(bars, from + 1)
  }

  function AtrPips(v5: Frame): real {
    var n := |v5.bars|;
    if n < ATR_5M_PERIOD + 1 then 0.0
    else TrueRangeSum(v5.bars, n - ATR_5M_PERIOD) / (ATR_5M_PERIOD as real) / PIP_SIZE
  }

  // ------------------------------------------------------------------ levels

  /** Strictly more extreme than the two bars on each side. */
  predicate IsSwing15(bars: seq<GoldBar>, i: nat, dir: Direction)
    requires 2 <= i < |bars| - 2
  {
    && Gain(dir, Extreme(dir, bars[i]), Extreme(dir, bars[i - 2])) > 0.0
    && Gain(dir, Extreme(dir, bars[i]), Extreme(dir, bars[i - 1])) > 0.0
    && Gain(dir, Extreme(dir, bars[i]), Extreme(dir, bars[i + 1])) > 0.0
    && Gain(dir, Extreme(dir, bars[i]), Extreme(dir, bars[i + 2])) > 0.0
  }

  function CountTouches(bars: seq<GoldBar>, dir: Direction, price: real, start: int, end: int): nat {
    if bars == [] then 0
    else
      CountTouches(Front(bars), dir, price, start, end)
      + if start <= Last(bars).time <= end && Abs(Extreme(dir, Last(bars)) - price) <= TOUCH_TOLERANCE then 1 else 0
  }

  /** No 1M bar opened since the confirmation has pierced the level by more than the tolerance. */
  predicate IsFresh(v1: Frame, price: real, dir: Direction, confirmed: int, t: int) {
    forall i :: 0 <= i < |v1.bars| && confirmed <= v1.bars[i].time <= t ==>
      Gain(dir, Extreme(dir, v1.bars[i]), price) <= LEVEL_INVALIDATE
  }

  datatype Scan = Scan(levels: seq<Level>, burned: set<Key>)

  function LevelAt(v15: Frame, i: nat, dir: Direction, t: int): Level
    requires i + L_SWING_15M < |v15.bars|
  {
    var price := Extreme(dir, v15.bars[i]);
    Level(price, v15.bars[i].time, dir, CloseTime(v15, i + L_SWING_15M),
          CountTouches(v15.bars, dir, price, t - LEVEL_LOOKBACK_MS, t))
  }

  /** A swing whose key is not burned is a level while it is fresh; once stale it is burned. */
  function Admit(sc: Scan, v1: Frame, l: Level, t: int): Scan {
    if IsFresh(v1, l.price, l.dir, l.confirmed, t) then sc.(levels := sc.levels + [l])
    else sc.(burned := sc.burned + {KeyOf(l)})
  }

  /** One 15M bar. A swing low that is already burned also skips the swing-high test of the same bar. */
  function ScanBar(sc: Scan, v1: Frame, v15: Frame, i: nat, t: int): Scan
    requires 2 <= i < |v15.bars| - 2
  {
    if v15.bars[i].time < t - LEVEL_LOOKBACK_MS then sc
    else
      var low, high := LevelAt(v15, i, Buy, t), LevelAt(v15, i, Sell, t);
      if IsSwing15(v15.bars, i, Buy) && KeyOf(low) in sc.burned then sc
      else
        var sc1 := if IsSwing15(v15.bars, i, Buy) then Admit(sc, v1, low, t) else sc;
        if IsSwing15(v15.bars, i, Sell) && KeyOf(high) !in sc1.burned then Admit(sc1, v1, high, t) else sc1
  }

  function SearchStart(v15: Frame): nat {
    if |v15.bars| < L_SWING_15M + SEARCH_BARS then L_SWING_15M else |v15.bars| - SEARCH_BARS
  }

  /** The scan of the bars from the start of the search up to `n`. */
  function ScanTo(burned: set<Key>, v1: Frame, v15: Frame, t: int, n: nat): Scan
    requires |v15.bars| >= 2 * L_SWING_15M + 1
    requires SearchStart(v15) <= n <= |v15.bars| - L_SWING_15M
  {
    if n == SearchStart(v15) then Scan([], burned)
    else ScanBar(ScanTo(burned, v1, v15, t, n - 1), v1, v15, n - 1, t)
  }

  function FreshLevels(burned: set<Key>, v1: Frame, v15: Frame, t: int): Scan {
    if |v15.bars| < 2 * L_SWING_15M + 1 then Scan([], burned)
    else ScanTo(burned, v1, v15, t, |v15.bars| - L_SWING_15M)
  }

  // ------------------------------------------------------------------ zone

  datatype Zone = Zone(active: seq<Level>, burned: set<Key>, firstSeen: map<Key, int>)

  predicate InZone(l: Level, last: GoldBar) {
    Gain(l.dir, l.price, Extreme(l.dir, last)) <= ZONE_PROXIMITY
  }

  /** Price near the level keeps its dwell clock running; too long burns it, leaving resets the clock. */
  function ZoneStep(z: Zone, l: Level, last: GoldBar, t: int): Zone {
    var key := KeyOf(l);
    if !InZone(l, last) then z.(firstSeen := z.firstSeen - {key})
    else
      var first := if key in z.firstSeen then z.firstSeen[key] else t;
      if t - first > ZONE_MAX_DWELL_MS then
        z.(burned := z.burned + {key}, firstSeen := z.firstSeen - {key})
      else
        z.(active := z.active + [l], firstSeen := z.firstSeen[key := first])
  }

  function ZoneAll(z: Zone, levels: seq<Level>, last: GoldBar, t: int): Zone {
    if levels == [] then z else ZoneStep(ZoneAll(z, Front(levels), last, t), Last(levels), last, t)
  }

  function Zoned(burned: set<Key>, firstSeen: map<Key, int>, levels: seq<Level>, v5: Frame, t: int): Zone {
    if v5.bars == [] then Zone([], burned, firstSeen)
    else ZoneAll(Zone([], burned, firstSeen), levels, Last(v5.bars), t)
  }

  // ------------------------------------------------------------------ nearest first

  function Distance(price: real, l: Level): real {
    Abs(price - l.price)
  }

  function DistanceFrom(price: real): Level -> real {
    l => Distance(price, l)
  }

  function NearestFirst(price: real, levels: seq<Level>): seq<Level> {
    SortBy(levels, DistanceFrom(price))
  }

  // ------------------------------------------------------------------ sweep and reversal

  datatype Eval = NoMatch | TooDeep | Match(reversal: Reversal)

  /** Bars strictly between the sweep and the reversal that pierced the level by more than the maximum. */
  predicate DeepWickBetween(bars: seq<GoldBar>, l: Level, penMax: real, s: nat, r: nat)
    requires r <= |bars|
  {
    exists k :: s < k < r && Beyond(l, Extreme(l.dir, bars[k])) > penMax
  }

  predicate IsSweep(bars: seq<GoldBar>, l: Level, penMax: real, s: nat)
    requires s < |bars|
  {
    && SWEEP_MIN_PENETRATION_PIPS * PIP_SIZE < Beyond(l, Extreme(l.dir, bars[s])) <= penMax
    && Gain(l.dir, l.price, bars[s].close) > -SWEEP_REJECT_TOLERANCE
  }

  function EvalPair(bars: seq<GoldBar>, l: Level, penMax: real, s: nat, r: nat): Eval
    requires s <= r < |bars|
  {
    if !IsSweep(bars, l, penMax, s) then NoMatch
    else if DeepWickBetween(bars, l, penMax, s, r) then TooDeep
    else if Beyond(l, Extreme(l.dir, bars[r])) > penMax then TooDeep
    else if Gain(l.dir, l.price, bars[r].close) <= 0.0 then NoMatch
    else if IsEngulf(l.dir, bars, r) then Match(Engulf)
    else if IsPin(l.dir, bars[r]) then Match(Pin)
    else NoMatch
  }

  // ------------------------------------------------------------------ stop, target, grade

  function TpFixed(dir: Direction, entry: real, sl: real): real {
    Shift(dir, entry, TP_RR * Abs(entry - sl))
  }

  /** The target a swing on the opposite side offers, if it is ahead of the entry and in reach. */
  function OpposingAt(bars: seq<GoldBar>, i: nat, dir: Direction, entry: real, start: int): Option<real>
    requires 2 <= i < |bars| - 2
  {
    var against := Opposite(dir);
    var price := Extreme(against, bars[i]);
    if bars[i].time < start || !IsSwing15(bars, i, against) then None
    else if Gain(dir, entry, price) <= 0.0 || Gain(dir, entry, price) > OPPOSING_MAX_DISTANCE then None
    else if Gain(dir, entry, price) - OPPOSING_BUFFER <= 0.0 then None
    else Some(Shift(dir, price, -OPPOSING_BUFFER))
  }

  function Nearer(dir: Direction, best: Option<real>, cand: Option<real>): Option<real> {
    if cand.None? then best
    else if best.None? || Gain(dir, cand.value, best.value) > 0.0 then cand
    else best
  }

  function OpposingTo(v15: Frame, dir: Direction, entry: real, t: int, n: nat): Option<real>
    requires |v15.bars| >= 2 * L_SWING_15M + 1
    requires SearchStart(v15) <= n <= |v15.bars| - L_SWING_15M
  {
    if n == SearchStart(v15) then None
    else
      Nearer(dir, OpposingTo(v15, dir, entry, t, n - 1),
             OpposingAt(v15.bars, n - 1, dir, entry, t - LEVEL_LOOKBACK_MS))
  }

  function TpOpposing(v15: Frame, dir: Direction, entry: real, t: int): Option<real> {
    if |v15.bars| < 2 * L_SWING_15M + 1 then None else OpposingTo(v15, dir, entry, t, |v15.bars| - L_SWING_15M)
  }

  /** The opposing level if it pays at least 1R, capped at 3R; the fixed multiple otherwise. */
  function TpHybrid(dir: Direction, entry: real, sl: real, opposing: Option<real>): real
    requires entry != sl
  {
    var risk := Abs(entry - sl);
    if opposing.None? then TpFixed(dir, entry, sl)
    else if Gain(dir, entry, opposing.value) / risk >= MIN_RR_FOR_OPPOSING then
      Shift(dir, entry, Min(Gain(dir, entry, opposing.value), TP_RR_MAX * risk))
    else TpFixed(dir, entry, sl)
  }

  function TakeProfit(mode: TpMode, dir: Direction, entry: real, sl: real, opposing: Option<real>): real
    requires entry != sl
  {
    match mode
    case FixedRR => TpFixed(dir, entry, sl)
    case Opposing => if opposing.Some? then opposing.value else TpFixed(dir, entry, sl)
    case Hybrid => TpHybrid(dir, entry, sl, opposing)
  }

  function Finalise(mode: TpMode, t: int, r: nat, s: nat, reversal: Reversal, v1: Frame, v15: Frame, l: Level)
    : Option<Signal>
    requires s < |v1.bars| && r < |v1.bars|
  {
    var extreme := Extreme(l.dir, v1.bars[s]);
    var sl := Shift(l.dir, extreme, -SL_BUFFER);
    var entry := v1.bars[r].close;
    if Gain(l.dir, sl, entry) / PIP_SIZE < MIN_RISK_PIPS then None
    else
      var tp := TakeProfit(mode, l.dir, entry, sl, TpOpposing(v15, l.dir, entry, t));
      var depth := Beyond(l, extreme) / PIP_SIZE;
      var grade :=
        if l.touches >= GRADE_A_MIN_TOUCHES && reversal == Engulf
           && GRADE_A_PENETRATION_LO <= depth <= GRADE_A_PENETRATION_HI then A else B;
      if Gain(l.dir, entry, tp) <= 0.0 then None
      else
        Some(Signal(l.dir, sl, tp, grade, t, v1.bars[r].time + v1.barMs, r, s, l.price, l.swingTime, depth, reversal))
  }

  function PenMax(atrPips: real): real {
    Max(SWEEP_MAX_PENETRATION_PIPS, SWEEP_MAX_ATR_MULT * atrPips) * PIP_SIZE
  }

  /** The sweep bar may be looked at: it exists and does not predate the level's confirmation. */
  predicate Eligible(v1: Frame, l: Level, cur: nat, wait: nat)
    requires cur < |v1.bars|
  {
    wait <= cur && v1.bars[cur - wait].time >= l.confirmed
  }

  datatype Trigger = Trigger(signal: Option<Signal>, burned: bool)

  /** Waits from `wait` on. The first match decides, even when it is then rejected; a deep wick burns and goes on. */
  function TriggerFrom(mode: TpMode, t: int, cur: nat, v1: Frame, v15: Frame, l: Level, penMax: real,
                       wait: nat): Trigger
    requires cur < |v1.bars| && wait <= REVERSAL_MAX_WAIT_BARS + 1
    decreases REVERSAL_MAX_WAIT_BARS + 1 - wait
  {
    if wait > REVERSAL_MAX_WAIT_BARS then Trigger(None, false)
    else if !Eligible(v1, l, cur, wait) then TriggerFrom(mode, t, cur, v1, v15, l, penMax, wait + 1)
    else
      match EvalPair(v1.bars, l, penMax, cur - wait, cur)
      case Match(reversal) => Trigger(Finalise(mode, t, cur, cur - wait, reversal, v1, v15, l), false)
      case TooDeep => TriggerFrom(mode, t, cur, v1, v15, l, penMax, wait + 1).(burned := true)
      case NoMatch => TriggerFrom(mode, t, cur, v1, v15, l, penMax, wait + 1)
  }

  datatype Attempt = Attempt(signal: Option<Signal>, burned: set<Key>)

  function BurnIf(burned: set<Key>, key: Key, yes: bool): set<Key> {
    if yes then burned + {key} else burned
  }

  /** The levels in order, until one signals; a level that signals is burned. */
  function TryLevels(mode: TpMode, burned: set<Key>, t: int, cur: nat, v1: Frame, v15: Frame, levels: seq<Level>,
                     penMax: real)
    : Attempt
    requires cur < |v1.bars|
    decreases |levels|
  {
    if levels == [] then Attempt(None, burned)
    else
      var tr := TriggerFrom(mode, t, cur, v1, v15, levels[0], penMax, 0);
      var burned1 := BurnIf(burned, KeyOf(levels[0]), tr.burned);
      if tr.signal.Some? then Attempt(tr.signal, burned1 + {KeyOf(levels[0])})
      else TryLevels(mode, burned1, t, cur, v1, v15, levels[1..], penMax)
  }

  // ------------------------------------------------------------------ one call

  datatype Memory = Memory(day: int, burned: set<Key>, firstSeen: map<Key, int>)

  const NO_MEMORY := Memory(-1, {}, map[])

  /** Burned levels and dwell clocks are forgotten when the UTC day changes. */
  function Rolled(m: Memory, t: int): Memory {
    if DateKey(t) != m.day then Memory(DateKey(t), {}, map[]) else m
  }

  datatype Detection = Detection(memory: Memory, signal: Option<Signal>)

  /** The zone step of a call, after levels were scanned. */
  function CallZone(m: Memory, t: int, v1: Frame, v5: Frame, v15: Frame): Zone {
    var sc := FreshLevels(m.burned, v1, v15, t);
    if sc.levels == [] then Zone([], sc.burned, m.firstSeen) else Zoned(sc.burned, m.firstSeen, sc.levels, v5, t)
  }

  function DetectOnDay(mode: TpMode, m: Memory, t: int, cur: nat, v1: Frame, v5: Frame, v15: Frame): Detection
    requires cur < |v1.bars|
  {
    var z := CallZone(m, t, v1, v5, v15);
    if z.active == [] then Detection(m.(burned := z.burned, firstSeen := z.firstSeen), None)
    else
      var nearest := NearestFirst(v1.bars[cur].close, z.active);
      var a := TryLevels(mode, z.burned, t, cur, v1, v15, nearest, PenMax(AtrPips(v5)));
      Detection(m.(burned := a.burned, firstSeen := z.firstSeen), a.signal)
  }

  function Decide(mode: TpMode, m: Memory, t: int, cur: nat, v1: Frame, v5: Frame, v15: Frame): Detection
    requires cur < |v1.bars|
  {
    DetectOnDay(mode, Rolled(m, t), t, cur, v1, v5, v15)
  }

  // ------------------------------------------------------------------ the detector object

  class NYGoldSweepDetector {
    const mode: TpMode
    var currentDay: int
    var burned: set<Key>
    var zoneFirstSeen: map<Key, int>

    constructor (mode: TpMode)
      ensures this.mode == mode && View() == NO_MEMORY
    {
      this.mode := mode;
      currentDay, burned, zoneFirstSeen := -1, {}, map[];
    }

    function View(): Memory
      reads this
    {
      Memory(currentDay, burned, zoneFirstSeen)
    }

    method Detect(t: int, cur: nat, v1: Frame, v5: Frame, v15: Frame) returns (signal: Option<Signal>)
      requires cur < |v1.bars|
      modifies this
      ensures Detection(View(), signal) == Decide(mode, old(View()), t, cur, v1, v5, v15)
    {
      var day := DateKey(t);
      if day != currentDay {
        currentDay := day;
        burned := {};
        zoneFirstSeen := map[];
      }
      ghost var m := View();
      assert m == Rolled(old(View()), t);
      var levels := FindFreshLevels(t, v1, v15);
      if levels == [] { return None; }
      var zoned := FilterZone(t, v5, levels);
      if zoned == [] { return None; }
      assert Zone(zoned, burned, zoneFirstSeen) == CallZone(m, t, v1, v5, v15);
      var candidates := NearestFirst(v1.bars[cur].close, zoned);
      var penMax := PenMax(AtrPips(v5));
      ghost var burned0 := burned;
      ghost var whole := TryLevels(mode, burned0, t, cur, v1, v15, candidates, penMax);
      for i := 0 to |candidates|
        invariant whole == TryLevels(mode, burned, t, cur, v1, v15, candidates[i..], penMax)
        invariant currentDay == m.day && zoneFirstSeen == CallZone(m, t, v1, v5, v15).firstSeen
      {
        var l := candidates[i];
        assert candidates[i..][1..] == candidates[i + 1..];
        var sig := TryTrigger(t, cur, v1, v15, l, penMax);
        if sig.Some? {
          burned := burned + {KeyOf(l)};
          return sig;
        }
      }
      signal := None;
    }

    method FindFreshLevels(t: int, v1: Frame, v15: Frame) returns (levels: seq<Level>)
      modifies this`burned
      ensures Scan(levels, burned) == FreshLevels(old(burned), v1, v15, t)
    {
      levels := [];
      var n := |v15.bars|;
      if n < 2 * L_SWING_15M + 1 { return; }
      var start := SearchStart(v15);
      for i := start to n - L_SWING_15M
        invariant Scan(levels, burned) == ScanTo(old(burned), v1, v15, t, i)
      {
        if v15.bars[i].time < t - LEVEL_LOOKBACK_MS { continue; }
        if IsSwing15(v15.bars, i, Buy) {
          var l := LevelAt(v15, i, Buy, t);
          if KeyOf(l) in burned { continue; }
          if IsFresh(v1, l.price, Buy, l.confirmed, t) {
            levels := levels + [l];
          } else {
            burned := burned + {KeyOf(l)};
          }
        }
        if IsSwing15(v15.bars, i, Sell) {
          var l := LevelAt(v15, i, Sell, t);
          if KeyOf(l) in burned { continue; }
          if IsFresh(v1, l.price, Sell, l.confirmed, t) {
            levels := levels + [l];
          } else {
            burned := burned + {KeyOf(l)};
          }
        }
      }
    }

    method FilterZone(t: int, v5: Frame, levels: seq<Level>) returns (active: seq<Level>)
      modifies this`burned, this`zoneFirstSeen
      ensures Zone(active, burned, zoneFirstSeen) == Zoned(old(burned), old(zoneFirstSeen), levels, v5, t)
    {
      active := [];
      if |v5.bars| == 0 { return; }
      var last := v5.bars[|v5.bars| - 1];
      for i := 0 to |levels|
        invariant Zone(active, burned, zoneFirstSeen)
               == ZoneAll(Zone([], old(burned), old(zoneFirstSeen)), levels[..i], last, t)
      {
        assert Front(levels[..i + 1]) == levels[..i];
        var l := levels[i];
        var key := KeyOf(l);
        var inZone := if l.dir == Buy then last.low <= l.price + ZONE_PROXIMITY
                      else last.high >= l.price - ZONE_PROXIMITY;
        if !inZone {
          zoneFirstSeen := zoneFirstSeen - {key};
          continue;
        }
        if key !in zoneFirstSeen { zoneFirstSeen := zoneFirstSeen[key := t]; }
        var first := zoneFirstSeen[key];
        if t - first > ZONE_MAX_DWELL_MS {
          burned := burned + {key};
          zoneFirstSeen := zoneFirstSeen - {key};
          continue;
        }
        active := active + [l];
      }
      assert levels[..|levels|] == levels;
    }

    method TryTrigger(t: int, cur: nat, v1: Frame, v15: Frame, l: Level, penMax: real) returns (signal: Option<Signal>)
      requires cur < |v1.bars|
      modifies this`burned
      ensures var tr := TriggerFrom(mode, t, cur, v1, v15, l, penMax, 0);
        signal == tr.signal && burned == BurnIf(old(burned), KeyOf(l), tr.burned)
    {
      ghost var whole := TriggerFrom(mode, t, cur, v1, v15, l, penMax, 0);
      ghost var deep := false;
      for wait := 0 to REVERSAL_MAX_WAIT_BARS + 1
        invariant var rest := TriggerFrom(mode, t, cur, v1, v15, l, penMax, wait);
          whole == Trigger(rest.signal, deep || rest.burned)
        invariant burned == BurnIf(old(burned), KeyOf(l), deep)
      {
        if cur < wait { continue; }
        var s := cur - wait;
        if v1.bars[s].time < l.confirmed { continue; }
        var tooDeep, reversal := Evaluate(s, cur, v1, l, penMax);
        deep := deep || tooDeep;
        if reversal.Some? {
          return Finalise(mode, t, cur, s, reversal.value, v1, v15, l);
        }
      }
      signal := None;
    }

    /** One sweep bar against the current bar, burning the level on a wick that went too deep. */
    method Evaluate(s: nat, r: nat, v1: Frame, l: Level, penMax: real)
      returns (ghost tooDeep: bool, reversal: Option<Reversal>)
      requires s <= r < |v1.bars|
      modifies this`burned
      ensures var e := EvalPair(v1.bars, l, penMax, s, r);
        && tooDeep == e.TooDeep?
        && reversal == (if e.Match? then Some(e.reversal) else None)
      ensures burned == BurnIf(old(burned), KeyOf(l), tooDeep)
    {
      tooDeep, reversal := false, None;
      var penMin := SWEEP_MIN_PENETRATION_PIPS * PIP_SIZE;
      if l.dir == Buy {
        var sLow, sClose := v1.bars[s].low, v1.bars[s].close;
        if !(l.price - penMax <= sLow < l.price - penMin) { return; }
        if sClose <= l.price - SWEEP_REJECT_TOLERANCE { return; }
      } else {
        var sHigh, sClose := v1.bars[s].high, v1.bars[s].close;
        if !(l.price + penMin < sHigh <= l.price + penMax) { return; }
        if sClose >= l.price + SWEEP_REJECT_TOLERANCE { return; }
      }
      assert IsSweep(v1.bars, l, penMax, s);
      for k := s + 1 to MaxInt(r, s + 1)
        invariant burned == old(burned)
        invariant forall j :: s < j < k ==> Beyond(l, Extreme(l.dir, v1.bars[j])) <= penMax
      {
        var wick := if l.dir == Buy then v1.bars[k].low < l.price - penMax else v1.bars[k].high > l.price + penMax;
        if wick {
          assert Beyond(l, Extreme(l.dir, v1.bars[k])) > penMax;
          burned := burned + {KeyOf(l)};
          tooDeep := true;
          return;
        }
      }
      assert !DeepWickBetween(v1.bars, l, penMax, s, r);
      var deep, closed;
      if l.dir == Buy {
        deep := v1.bars[r].low < l.price - penMax;
        closed := v1.bars[r].close > l.price;
      } else {
        deep := v1.bars[r].high > l.price + penMax;
        closed := v1.bars[r].close < l.price;
      }
      if deep {
        burned := burned + {KeyOf(l)};
        tooDeep := true;
        return;
      }
      if !closed { return; }
      var isEngulf := IsEngulf(l.dir, v1.bars, r);
      var isPin := IsPin(l.dir, v1.bars[r]);
      if !(isEngulf || isPin) { return; }
      reversal := Some(if isEngulf then Engulf else Pin);
    }

    /** The loop behind the opposing-level target. */
    static method TpModeB(entry: real, dir: Direction, v15: Frame, t: int) returns (best: Option<real>)
      ensures best == TpOpposing(v15, dir, entry, t)
    {
      best := None;
      var n := |v15.bars|;
      if n < 2 * L_SWING_15M + 1 { return; }
      for i := SearchStart(v15) to n - L_SWING_15M
        invariant best == OpposingTo(v15, dir, entry, t, i)
      {
        var b := v15.bars[i];
        if b.time < t - LEVEL_LOOKBACK_MS { continue; }
        if dir == Buy {
          if !IsSwing15(v15.bars, i, Sell) { continue; }
          var price := b.high;
          if price <= entry || price - entry > OPPOSING_MAX_DISTANCE { continue; }
          var cand := price - OPPOSING_BUFFER;
          if cand <= entry { continue; }
          if best.None? || cand < best.value { best := Some(cand); }
        } else {
          if !IsSwing15(v15.bars, i, Buy) { continue; }
          var price := b.low;
          if price >= entry || entry - price > OPPOSING_MAX_DISTANCE { continue; }
          var cand := price + OPPOSING_BUFFER;
          if cand >= entry { continue; }
          if best.None? || cand > best.value { best := Some(cand); }
        }
      }
    }
  }
}
