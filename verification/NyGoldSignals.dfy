/**
 * When an NY Gold call signals and what the signal asks for: the nearest open level with a worthwhile reversal signals,
 * and its target is the nearest opposing swing or a multiple of the risk. The comparisons are written out here.
 */
module NyGoldSignals {
  import opened Clock
  import opened Common
  import opened NyGoldData
  import opened NyGoldDetector
  import opened NyGoldLevels
  import opened NyGoldLife
  import opened RealFacts

  // ------------------------------------------------------------------ the average range

  /** From the lower of the low and the close before to the higher of the high and the close before. */
  function Span(bars: seq<GoldBar>, i: nat): real
    requires 0 < i < |bars|
  {
    var before, b := bars[i - 1].close, bars[i];
    (if b.high > before then b.high else before) - (if b.low < before then b.low else before)
  }

  function Spans(bars: seq<GoldBar>, from: nat): seq<real>
    requires 1 <= from <= |bars|
  {
    seq(|bars| - from, k requires 0 <= k < |bars| - from => Span(bars, from + k))
  }

  lemma TrueRangeIsSpan(bars: seq<GoldBar>, i: nat)
    requires 0 < i < |bars| && bars[i].low <= bars[i].high
    ensures TrueRange(bars[i - 1].close, bars[i]) == Span(bars, i)
  {
  }

  lemma {:induction false} SumOfPrepend(x: real, xs: seq<real>)
    ensures Sum([x] + xs) == x + Sum(xs)
  {
    if xs == [] {
      assert [x] + xs == [] + [x];
      SumOfAppend([], x);
    } else {
      assert [x] + xs == ([x] + Front(xs)) + [Last(xs)];
      SumOfPrepend(x, Front(xs));
    }
  }

  lemma {:induction false} RangesAreSpans(bars: seq<GoldBar>, from: nat)
    requires 1 <= from <= |bars| && forall i :: 0 <= i < |bars| ==> bars[i].low <= bars[i].high
    ensures TrueRangeSum(bars, from) == Sum(Spans(bars, from))
    decreases |bars| - from
  {
    if from < |bars| {
      RangesAreSpans(bars, from + 1);
      TrueRangeIsSpan(bars, from);
      assert Spans(bars, from) == [Span(bars, from)] + Spans(bars, from + 1);
      SumOfPrepend(Span(bars, from), Spans(bars, from + 1));
    }
  }

  /** The mean span of the last fourteen 5M bars, or nothing when there are not fifteen. */
  lemma AverageRangeIs(v5: Frame)
    requires RealBars(v5)
    ensures var n := |v5.bars|; AtrPips(v5) == if n < 15 then 0.0 else Sum(Spans(v5.bars, n - 14)) / 14.0
  {
    if |v5.bars| >= 15 { RangesAreSpans(v5.bars, |v5.bars| - 14); }
  }

  // ------------------------------------------------------------------ the target

  /** The swing at 15M bar `i` that faces a position: a high for a long, a low for a short. */
  predicate Faces(v15: Frame, i: nat, dir: Direction, entry: real, t: int) {
    && InReach(v15, i, t)
    && match dir
       case Buy => IsExtreme(v15.bars, i, Sell) && entry + 0.2 < v15.bars[i].high <= entry + 8.0
       case Sell => IsExtreme(v15.bars, i, Buy) && entry - 8.0 <= v15.bars[i].low < entry - 0.2
  }

  /** A fifth of a pip short of it. */
  function ShortOf(v15: Frame, i: nat, dir: Direction): real
    requires i < |v15.bars|
  {
    match dir
    case Buy => v15.bars[i].high - 0.2
    case Sell => v15.bars[i].low + 0.2
  }

  /** `tp` is what the nearest facing swing among the bars before `n` offers. */
  ghost predicate OfNearest(v15: Frame, dir: Direction, entry: real, t: int, n: nat, tp: Option<real>)
    requires n <= |v15.bars|
  {
    match tp
    case None => forall i :: 0 <= i < n ==> !Faces(v15, i, dir, entry, t)
    case Some(price) =>
      && (exists i :: 0 <= i < n && Faces(v15, i, dir, entry, t) && ShortOf(v15, i, dir) == price)
      && forall i :: 0 <= i < n && Faces(v15, i, dir, entry, t) ==>
           match dir case Buy => price <= ShortOf(v15, i, dir) case Sell => price >= ShortOf(v15, i, dir)
  }

  lemma OpposingFaces(v15: Frame, i: nat, dir: Direction, entry: real, t: int)
    requires 2 <= i < |v15.bars| - 2 && i + 80 >= |v15.bars|
    ensures OpposingAt(v15.bars, i, dir, entry, t - LEVEL_LOOKBACK_MS) ==
        if Faces(v15, i, dir, entry, t) then Some(ShortOf(v15, i, dir)) else None
  {
    SwingIsExtreme(v15.bars, i, Opposite(dir));
  }

  lemma {:induction false} OpposingToIsNearest(v15: Frame, dir: Direction, entry: real, t: int, n: nat)
    requires |v15.bars| >= 2 * L_SWING_15M + 1 && SearchStart(v15) <= n <= |v15.bars| - L_SWING_15M
    ensures OfNearest(v15, dir, entry, t, n, OpposingTo(v15, dir, entry, t, n))
  {
    hide OpposingAt, IsExtreme;
    if n > SearchStart(v15) {
      OpposingToIsNearest(v15, dir, entry, t, n - 1);
      OpposingFaces(v15, n - 1, dir, entry, t);
      var before := OpposingTo(v15, dir, entry, t, n - 1);
      var tp := OpposingTo(v15, dir, entry, t, n);
      if tp.Some? && tp != before { assert Faces(v15, n - 1, dir, entry, t); }
    }
  }

  lemma TpOpposingIsNearest(v15: Frame, dir: Direction, entry: real, t: int)
    ensures OfNearest(v15, dir, entry, t, |v15.bars|, TpOpposing(v15, dir, entry, t))
  {
    hide OpposingTo, IsExtreme;
    if |v15.bars| >= 2 * L_SWING_15M + 1 {
      var n := |v15.bars| - L_SWING_15M;
      OpposingToIsNearest(v15, dir, entry, t, n);
      assert forall i :: n <= i < |v15.bars| ==> !Faces(v15, i, dir, entry, t);
    }
  }

  /** What a mode asks for, given the risk and what the nearest facing swing pays, if there is one. */
  function Reward(mode: TpMode, risk: real, offers: Option<real>): real {
    match mode
    case FixedRR => 1.5 * risk
    case Opposing => if offers.Some? then offers.value else 1.5 * risk
    case Hybrid =>
      if offers.None? || offers.value < risk then 1.5 * risk
      else if offers.value < 3.0 * risk then offers.value else 3.0 * risk
  }

  function Pays(dir: Direction, entry: real, tp: Option<real>): Option<real> {
    if tp.None? then None else Some(match dir case Buy => tp.value - entry case Sell => entry - tp.value)
  }

  lemma TargetIsReward(mode: TpMode, dir: Direction, entry: real, sl: real, tp: Option<real>)
    requires Gain(dir, sl, entry) > 0.0
    ensures Gain(dir, entry, TakeProfit(mode, dir, entry, sl, tp)) ==
        Reward(mode, Gain(dir, sl, entry), Pays(dir, entry, tp))
  {
    var risk := Abs(entry - sl);
    if tp.Some? { OverRisk(Gain(dir, entry, tp.value), risk); }
  }

  lemma OverRisk(x: real, risk: real)
    requires risk > 0.0
    ensures x / risk >= 1.0 <==> x >= risk
  {
    var q := x / risk;
    assert x == q * risk;
    if q >= 1.0 { Scales(q, 1.0, risk); } else { Scales(1.0, q, risk); }
  }

  /** What a signal asks for: its target, how deep the sweep was, and the close it is filled after. */
  lemma SignalAsks(mode: TpMode, m: Memory, t: int, cur: nat, v1: Frame, v5: Frame, v15: Frame)
    returns (facing: Option<real>)
    requires cur < |v1.bars| && Decide(mode, m, t, cur, v1, v5, v15).signal.Some?
    ensures var s, entry := Decide(mode, m, t, cur, v1, v5, v15).signal.value, v1.bars[cur].close;
      && OfNearest(v15, s.dir, entry, t, |v15.bars|, facing)
      && s.barTime == t && s.fillTime == CloseTime(v1, cur) && s.sIdx < |v1.bars|
      && match s.dir
         case Buy =>
           && entry - s.sl >= 0.3 && s.tp == entry + Reward(mode, entry - s.sl, Pays(s.dir, entry, facing))
           && s.depthPips == s.levelPrice - v1.bars[s.sIdx].low
         case Sell =>
           && s.sl - entry >= 0.3 && s.tp == entry - Reward(mode, s.sl - entry, Pays(s.dir, entry, facing))
           && s.depthPips == v1.bars[s.sIdx].high - s.levelPrice
  {
    hide CallZone, TryLevels, NearestFirst, TriggerFrom, EvalPair, AtrPips, OfNearest, TpOpposing, TakeProfit, Reward;
    var z := CallZone(Rolled(m, t), t, v1, v5, v15);
    var price, penMax := v1.bars[cur].close, PenMax(AtrPips(v5));
    var nearest := NearestFirst(price, z.active);
    var k := SignalLevel(mode, z.burned, t, cur, v1, v15, nearest, penMax);
    TriggerSignal(mode, t, cur, v1, v15, nearest[k], penMax, 0);
    var s := Decide(mode, m, t, cur, v1, v5, v15).signal;
    var rev :| EvalPair(v1.bars, nearest[k], penMax, s.value.sIdx, cur) == Match(rev)
               && Finalise(mode, t, cur, s.value.sIdx, rev, v1, v15, nearest[k]) == s;
    facing := TpOpposing(v15, s.value.dir, price, t);
    TpOpposingIsNearest(v15, s.value.dir, price, t);
    TargetIsReward(mode, s.value.dir, price, s.value.sl, facing);
  }

  // ------------------------------------------------------------------ the grade

  /** The bar engulfs the body of the one before it. */
  predicate Engulfs(bars: seq<GoldBar>, r: nat, dir: Direction)
    requires r < |bars|
  {
    r > 0
    && var a, b := bars[r - 1], bars[r];
       match dir
       case Buy => b.close - b.open >= 0.2 && a.close < a.open && b.close >= a.open && b.open <= a.close
       case Sell => b.open - b.close >= 0.2 && a.close > a.open && b.close <= a.open && b.open >= a.close
  }

  /** A bar of the last eight hours has its low (high) within half a pip of the price. */
  predicate TouchesAt(bars: seq<GoldBar>, i: nat, dir: Direction, price: real, t: int) {
    && i < |bars| && t - 8 * HOUR_MS <= bars[i].time <= t
    && match dir
       case Buy => price - 0.5 <= bars[i].low <= price + 0.5
       case Sell => price - 0.5 <= bars[i].high <= price + 0.5
  }

  ghost predicate TouchedTwice(bars: seq<GoldBar>, dir: Direction, price: real, t: int) {
    exists i: nat, j: nat :: i < j && TouchesAt(bars, i, dir, price, t) && TouchesAt(bars, j, dir, price, t)
  }

  lemma {:induction false} TouchesCounted(bars: seq<GoldBar>, dir: Direction, price: real, t: int)
    ensures var n := CountTouches(bars, dir, price, t - LEVEL_LOOKBACK_MS, t);
      && (n >= 1 <==> exists i: nat :: TouchesAt(bars, i, dir, price, t))
      && (n >= 2 <==> TouchedTwice(bars, dir, price, t))
  {
    if bars != [] {
      var front, n := Front(bars), |bars| - 1;
      TouchesCounted(front, dir, price, t);
      assert forall i: nat :: i < n ==> (TouchesAt(front, i, dir, price, t) <==> TouchesAt(bars, i, dir, price, t));
      assert Abs(Extreme(dir, Last(bars)) - price) <= TOUCH_TOLERANCE && t - LEVEL_LOOKBACK_MS <= Last(bars).time <= t
             <==> TouchesAt(bars, n, dir, price, t);
    }
  }

  lemma {:induction false} LevelsCountTouches(burned: set<Key>, v1: Frame, v15: Frame, t: int, n: nat)
    requires |v15.bars| >= 2 * L_SWING_15M + 1 && SearchStart(v15) <= n <= |v15.bars| - L_SWING_15M
    ensures forall l :: l in ScanTo(burned, v1, v15, t, n).levels ==>
        l.touches == CountTouches(v15.bars, l.dir, l.price, t - LEVEL_LOOKBACK_MS, t)
  {
    hide IsFresh, IsSwing15, CountTouches;
    if n > SearchStart(v15) { LevelsCountTouches(burned, v1, v15, t, n - 1); }
  }

  /** Grade A is for a level touched twice, an engulfing reversal and a sweep of two to six tenths of a pip. */
  lemma GradeIsEarned(mode: TpMode, m: Memory, t: int, cur: nat, v1: Frame, v5: Frame, v15: Frame)
    requires cur < |v1.bars| && Decide(mode, m, t, cur, v1, v5, v15).signal.Some?
    ensures var s := Decide(mode, m, t, cur, v1, v5, v15).signal.value;
      && (s.reversal == Engulf <==> Engulfs(v1.bars, cur, s.dir))
      && (s.grade == A <==>
            && TouchedTwice(v15.bars, s.dir, s.levelPrice, t)
            && Engulfs(v1.bars, cur, s.dir) && 0.2 <= s.depthPips <= 0.6)
  {
    hide TryLevels, NearestFirst, TriggerFrom, AtrPips, CountTouches, TouchedTwice;
    hide TpOpposing, TakeProfit, ScanTo, ZoneAll;
    hide IsSweep, DeepWickBetween, IsPin;
    var r := Rolled(m, t);
    var z := CallZone(r, t, v1, v5, v15);
    var price, penMax := v1.bars[cur].close, PenMax(AtrPips(v5));
    var nearest := NearestFirst(price, z.active);
    var k := SignalLevel(mode, z.burned, t, cur, v1, v15, nearest, penMax);
    var l := nearest[k];
    TriggerSignal(mode, t, cur, v1, v15, l, penMax, 0);
    var s := Decide(mode, m, t, cur, v1, v5, v15).signal;
    var rev :| EvalPair(v1.bars, l, penMax, s.value.sIdx, cur) == Match(rev)
               && Finalise(mode, t, cur, s.value.sIdx, rev, v1, v15, l) == s;
    EngulfIs(v1.bars, cur, l.dir);
    NearestFirstSorts(price, z.active);
    assert l in multiset(nearest);
    var sc := FreshLevels(r.burned, v1, v15, t);
    ActiveAreNear(Zone([], sc.burned, r.firstSeen), sc.levels, v5, t);
    LevelsCountTouches(r.burned, v1, v15, t, |v15.bars| - L_SWING_15M);
    TouchesCounted(v15.bars, l.dir, l.price, t);
  }

  lemma EngulfIs(bars: seq<GoldBar>, r: nat, dir: Direction)
    requires r < |bars|
    ensures IsEngulf(dir, bars, r) <==> Engulfs(bars, r, dir)
  {
  }

  // ------------------------------------------------------------------ when a call signals

  /** The bars from `s` to `r` sweep the level and turn. */
  ghost predicate Reverses(bars: seq<GoldBar>, price: real, dir: Direction, pen: real, s: nat, r: nat)
    requires s <= r < |bars|
  {
    match dir
    case Buy => SweptLow(bars, price, pen, s, r) && TurnsUp(bars, r)
    case Sell => SweptHigh(bars, price, pen, s, r) && TurnsDown(bars, r)
  }

  /** What the trade would risk from the close to a fifth of a pip beyond the sweep. */
  function Risk(bars: seq<GoldBar>, dir: Direction, s: nat, r: nat): real
    requires s <= r < |bars|
  {
    match dir
    case Buy => bars[r].close - (bars[s].low - 0.2)
    case Sell => bars[s].high + 0.2 - bars[r].close
  }

  /**
   * Among the last four bars since the confirmation, the latest from which the level is swept and turned leaves the
   * minimum risk.
   */
  ghost predicate Worthwhile(v1: Frame, price: real, dir: Direction, confirmed: int, pen: real, cur: nat, s: nat)
    requires cur < |v1.bars|
  {
    && s <= cur <= s + 3 && v1.bars[s].time >= confirmed
    && Reverses(v1.bars, price, dir, pen, s, cur) && Risk(v1.bars, dir, s, cur) >= 0.3
    && forall k :: s < k <= cur && v1.bars[k].time >= confirmed ==> !Reverses(v1.bars, price, dir, pen, k, cur)
  }

  lemma ReversesIsMatch(bars: seq<GoldBar>, l: Level, pen: real, s: nat, r: nat)
    requires s <= r < |bars| && pen > 0.0
    ensures EvalPair(bars, l, pen, s, r).Match? <==> Reverses(bars, l.price, l.dir, pen, s, r)
  {
    hide EvalPair, SweptLow, SweptHigh, TurnsUp, TurnsDown;
    PairTestIsSweepAndTurn(bars, l, pen, s, r);
  }

  /** With the minimum risk a match is a signal: every target lies ahead. */
  lemma MatchSignals(mode: TpMode, t: int, r: nat, s: nat, reversal: Reversal, v1: Frame, v15: Frame, l: Level)
    requires s <= r < |v1.bars| && Risk(v1.bars, l.dir, s, r) >= 0.3
    ensures Finalise(mode, t, r, s, reversal, v1, v15, l).Some?
  {
    hide TpOpposing, TakeProfit, OfNearest;
    var entry, sl := v1.bars[r].close, Shift(l.dir, Extreme(l.dir, v1.bars[s]), -SL_BUFFER);
    var tp := TpOpposing(v15, l.dir, entry, t);
    assert Gain(l.dir, sl, entry) == Risk(v1.bars, l.dir, s, r);
    TpOpposingIsNearest(v15, l.dir, entry, t);
    TargetIsReward(mode, l.dir, entry, sl, tp);
    NearestPays(v15, l.dir, entry, t, tp);
  }

  lemma NearestPays(v15: Frame, dir: Direction, entry: real, t: int, tp: Option<real>)
    requires OfNearest(v15, dir, entry, t, |v15.bars|, tp)
    ensures tp.Some? ==> Pays(dir, entry, tp).value > 0.0
  {
    hide IsExtreme;
  }

  lemma {:induction false} FirstMatchDecides(mode: TpMode, t: int, cur: nat, v1: Frame, v15: Frame, l: Level, pen: real,
                                             wait: nat, s: nat)
    requires cur < |v1.bars| && wait <= cur - s && s <= cur && pen > 0.0
    requires Worthwhile(v1, l.price, l.dir, l.confirmed, pen, cur, s)
    ensures TriggerFrom(mode, t, cur, v1, v15, l, pen, wait).signal.Some?
    decreases cur - s - wait
  {
    hide EvalPair, Finalise, Reverses, Risk;
    ReversesIsMatch(v1.bars, l, pen, cur - wait, cur);
    if wait == cur - s {
      var e := EvalPair(v1.bars, l, pen, s, cur);
      MatchSignals(mode, t, cur, s, e.reversal, v1, v15, l);
    } else {
      FirstMatchDecides(mode, t, cur, v1, v15, l, pen, wait + 1, s);
    }
  }

  lemma {:induction false} TriesEndBy(mode: TpMode, burned: set<Key>, t: int, cur: nat, v1: Frame, v15: Frame,
                                      levels: seq<Level>, pen: real, k: nat)
    returns (j: nat)
    requires cur < |v1.bars| && k < |levels| && TriggerFrom(mode, t, cur, v1, v15, levels[k], pen, 0).signal.Some?
    ensures j <= k
    ensures var a := TryLevels(mode, burned, t, cur, v1, v15, levels, pen).signal;
      a.Some? && a == TriggerFrom(mode, t, cur, v1, v15, levels[j], pen, 0).signal
    decreases k
  {
    hide TriggerFrom;
    var tr := TriggerFrom(mode, t, cur, v1, v15, levels[0], pen, 0);
    if tr.signal.Some? {
      j := 0;
    } else {
      j := TriesEndBy(mode, BurnIf(burned, KeyOf(levels[0]), tr.burned), t, cur, v1, v15, levels[1..], pen, k - 1);
      j := j + 1;
    }
  }

  /** A swing in reach whose key is not burned, unpierced, with price near it and not for too long. */
  ghost predicate IsOpen(m: Memory, v1: Frame, v5: Frame, v15: Frame, i: nat, dir: Direction, t: int): (yes: bool)
    ensures yes ==> 2 <= i && i + 2 < |v15.bars|
  {
    && InReach(v15, i, t) && IsExtreme(v15.bars, i, dir)
    && KeyAt(v15.bars, i, dir) !in m.burned && Tested(m.burned, v15, i, dir)
    && !PiercedAt(v1, v15, i, dir, t) && Near(v5, KeyAt(v15.bars, i, dir).0, dir)
    && t - Since(m.firstSeen, KeyAt(v15.bars, i, dir), t) <= 25 * MINUTE_MS
  }

  lemma NearNeedsBars(v5: Frame, price: real, dir: Direction)
    requires Near(v5, price, dir)
    ensures v5.bars != []
  {
  }

  lemma OpenIsActive(m: Memory, v1: Frame, v5: Frame, v15: Frame, i: nat, dir: Direction, t: int)
    requires RealBars(v15) && IsOpen(m, v1, v5, v15, i, dir, t)
    ensures LevelAt(v15, i, dir, t) in CallZone(m, t, v1, v5, v15).active
  {
    hide CallZone, IsExtreme, Near, RealBars, CountTouches, Pierced;
    ZoneOfCall(m, t, v1, v5, v15, i, dir);
    var z, l := CallZone(m, t, v1, v5, v15), LevelAt(v15, i, dir, t);
    assert v5.bars != [] by { NearNeedsBars(v5, l.price, dir); }
    var b :| KeyOf(l) !in b && ZoneVerdict(Zone([], b, m.firstSeen), z, l, v5, t);
  }

  /**
   * A call on which some open level has a worthwhile reversal signals, and what it signals is no further from the close
   * than that level: no reversal is missed, and the nearest comes first.
   */
  lemma NearestReversalSignals(mode: TpMode, m: Memory, t: int, cur: nat, v1: Frame, v5: Frame, v15: Frame, i: nat,
                               dir: Direction, s: nat)
    requires cur < |v1.bars| && RealBars(v15) && IsOpen(Rolled(m, t), v1, v5, v15, i, dir, t)
    requires Worthwhile(v1, KeyAt(v15.bars, i, dir).0, dir, v15.bars[i + 2].time + v15.barMs, Deepest(v5), cur, s)
    ensures var d, close := Decide(mode, m, t, cur, v1, v5, v15), v1.bars[cur].close;
      && d.signal.Some?
      && Abs(close - d.signal.value.levelPrice) <= Abs(close - KeyAt(v15.bars, i, dir).0)
  {
    hide CallZone, TryLevels, NearestFirst, TriggerFrom, Worthwhile, IsOpen, RealBars, CountTouches, AtrPips;
    var z := CallZone(Rolled(m, t), t, v1, v5, v15);
    var price, pen := v1.bars[cur].close, PenMax(AtrPips(v5));
    assert pen == Deepest(v5);
    var l := LevelAt(v15, i, dir, t);
    OpenIsActive(Rolled(m, t), v1, v5, v15, i, dir, t);
    var nearest := NearestFirst(price, z.active);
    NearestFirstSorts(price, z.active);
    assert l in multiset(nearest);
    var k :| 0 <= k < |nearest| && nearest[k] == l;
    WorthwhileBounds(v1, l.price, dir, l.confirmed, pen, cur, s);
    FirstMatchDecides(mode, t, cur, v1, v15, l, pen, 0, s);
    var j := TriesEndBy(mode, z.burned, t, cur, v1, v15, nearest, pen, k);
    TriggerSignal(mode, t, cur, v1, v15, nearest[j], pen, 0);
    assert Distance(price, nearest[j]) <= Distance(price, nearest[k]);
  }

  lemma WorthwhileBounds(v1: Frame, price: real, dir: Direction, confirmed: int, pen: real, cur: nat, s: nat)
    requires cur < |v1.bars| && Worthwhile(v1, price, dir, confirmed, pen, cur, s)
    ensures s <= cur
  {
    hide Reverses, Risk;
  }

  // ------------------------------------------------------------------ when a deep wick burns

  /** Bar `s` sweeps the level, and a later bar up to `r` goes deeper than a sweep may. */
  ghost predicate GoesTooDeep(bars: seq<GoldBar>, price: real, dir: Direction, pen: real, s: nat, r: nat)
    requires s <= r < |bars|
  {
    match dir
    case Buy =>
      && price - pen <= bars[s].low < price - 0.1 && bars[s].close > price - 0.1
      && exists k :: s < k <= r && bars[k].low < price - pen
    case Sell =>
      && price + 0.1 < bars[s].high <= price + pen && bars[s].close < price + 0.1
      && exists k :: s < k <= r && bars[k].high > price + pen
  }

  lemma TooDeepIs(bars: seq<GoldBar>, l: Level, pen: real, s: nat, r: nat)
    requires s <= r < |bars| && pen > 0.0
    ensures EvalPair(bars, l, pen, s, r) == TooDeep <==> GoesTooDeep(bars, l.price, l.dir, pen, s, r)
  {
    NoDeeperWick(bars, l, pen, s, r);
    if GoesTooDeep(bars, l.price, l.dir, pen, s, r) {
      var k :| s < k <= r && if l.dir.Buy? then bars[k].low < l.price - pen else bars[k].high > l.price + pen;
      assert Beyond(l, Extreme(l.dir, bars[k])) > pen;
    }
  }

  /** One of the last four bars since the confirmation does so, and price turns from none after it, `wait` bars back. */
  ghost predicate DeepWick(v1: Frame, price: real, dir: Direction, confirmed: int, pen: real, cur: nat, wait: nat,
                           s: nat)
    requires cur < |v1.bars|
  {
    && s + wait <= cur <= s + 3 && v1.bars[s].time >= confirmed && GoesTooDeep(v1.bars, price, dir, pen, s, cur)
    && forall k :: s < k <= cur - wait && v1.bars[k].time >= confirmed ==> !Reverses(v1.bars, price, dir, pen, k, cur)
  }

  ghost predicate WentTooDeep(v1: Frame, price: real, dir: Direction, confirmed: int, pen: real, cur: nat)
    requires cur < |v1.bars|
  {
    exists s: nat :: DeepWick(v1, price, dir, confirmed, pen, cur, 0, s)
  }

  lemma {:induction false} TriggerBurns(mode: TpMode, t: int, cur: nat, v1: Frame, v15: Frame, l: Level, pen: real,
                                        wait: nat)
    requires cur < |v1.bars| && wait <= REVERSAL_MAX_WAIT_BARS + 1 && pen > 0.0
    ensures TriggerFrom(mode, t, cur, v1, v15, l, pen, wait).burned
            <==> exists s: nat :: DeepWick(v1, l.price, l.dir, l.confirmed, pen, cur, wait, s)
    decreases REVERSAL_MAX_WAIT_BARS + 1 - wait
  {
    hide EvalPair, Finalise, Reverses, GoesTooDeep;
    var burned, next := TriggerFrom(mode, t, cur, v1, v15, l, pen, wait).burned, wait + 1;
    if wait <= REVERSAL_MAX_WAIT_BARS {
      TriggerBurns(mode, t, cur, v1, v15, l, pen, next);
      if Eligible(v1, l, cur, wait) {
        ReversesIsMatch(v1.bars, l, pen, cur - wait, cur);
        TooDeepIs(v1.bars, l, pen, cur - wait, cur);
        if EvalPair(v1.bars, l, pen, cur - wait, cur) == TooDeep {
          assert DeepWick(v1, l.price, l.dir, l.confirmed, pen, cur, wait, cur - wait);
        }
      }
      forall s: nat | DeepWick(v1, l.price, l.dir, l.confirmed, pen, cur, wait, s) ensures burned {
        assert s + wait < cur ==> DeepWick(v1, l.price, l.dir, l.confirmed, pen, cur, next, s);
      }
      if s: nat :| DeepWick(v1, l.price, l.dir, l.confirmed, pen, cur, next, s) && burned {
        assert DeepWick(v1, l.price, l.dir, l.confirmed, pen, cur, wait, s);
      }
    }
  }

  /** A level that is tried is burned by its trigger; one that is burned by the tries signals or was burned so. */
  lemma {:induction false} TriesBurn(mode: TpMode, burned: set<Key>, t: int, cur: nat, v1: Frame, v15: Frame,
                                     levels: seq<Level>, pen: real, k: nat)
    requires cur < |v1.bars| && DistinctKeys(levels) && k < |levels| && KeyOf(levels[k]) !in burned
    ensures var a, tr := TryLevels(mode, burned, t, cur, v1, v15, levels, pen),
                         TriggerFrom(mode, t, cur, v1, v15, levels[k], pen, 0);
      && (KeyOf(levels[k]) in a.burned ==> tr.burned || (tr.signal.Some? && a.signal == tr.signal))
      && (tr.burned && (forall i :: 0 <= i < k ==> TriggerFrom(mode, t, cur, v1, v15, levels[i], pen, 0).signal.None?)
          ==> KeyOf(levels[k]) in a.burned)
    decreases k
  {
    hide TriggerFrom;
    var first := TriggerFrom(mode, t, cur, v1, v15, levels[0], pen, 0);
    var burned1, rest := BurnIf(burned, KeyOf(levels[0]), first.burned), levels[1..];
    if first.signal.None? {
      if k == 0 {
        TriesBurnOwn(mode, burned1, t, cur, v1, v15, rest, pen, KeyOf(levels[0]));
      } else {
        TriesBurn(mode, burned1, t, cur, v1, v15, rest, pen, k - 1);
        assert forall i :: 0 <= i < |rest| ==> rest[i] == levels[i + 1];
      }
    }
  }

  /**
   * An open level is burned by a call exactly when it signals or, coming to it before the one that signals, the call
   * finds that price has gone too deep since its last sweep.
   */
  lemma DeepWickBurns(mode: TpMode, m: Memory, t: int, cur: nat, v1: Frame, v5: Frame, v15: Frame, i: nat,
                      dir: Direction)
    requires cur < |v1.bars| && RealBars(v15) && IsOpen(Rolled(m, t), v1, v5, v15, i, dir, t)
    ensures var d, close, key := Decide(mode, m, t, cur, v1, v5, v15), v1.bars[cur].close, KeyAt(v15.bars, i, dir);
      var deep := WentTooDeep(v1, key.0, dir, v15.bars[i + 2].time + v15.barMs, Deepest(v5), cur);
      && (key in d.memory.burned ==> deep || (d.signal.Some? && SignalKey(d.signal.value) == key))
      && (deep && (d.signal.None? || Abs(close - d.signal.value.levelPrice) > Abs(close - key.0)) ==>
            key in d.memory.burned)
  {
    hide CallZone, TryLevels, NearestFirst, TriggerFrom, DeepWick, IsOpen;
    hide RealBars, CountTouches, AtrPips, DistinctKeys;
    var z := CallZone(Rolled(m, t), t, v1, v5, v15);
    var price, pen := v1.bars[cur].close, PenMax(AtrPips(v5));
    assert pen == Deepest(v5);
    var l := LevelAt(v15, i, dir, t);
    OpenIsActive(Rolled(m, t), v1, v5, v15, i, dir, t);
    ActiveKeysDiffer(Rolled(m, t), t, v1, v5, v15);
    var nearest := NearestFirst(price, z.active);
    NearestFirstSorts(price, z.active);
    SamePermutationSameKeys(nearest, z.active);
    var k :| 0 <= k < |nearest| && nearest[k] == l;
    TriggerBurns(mode, t, cur, v1, v15, l, pen, 0);
    TriesBurn(mode, z.burned, t, cur, v1, v15, nearest, pen, k);
    TriggerSignal(mode, t, cur, v1, v15, l, pen, 0);
    var d := Decide(mode, m, t, cur, v1, v5, v15);
    if d.signal.None? || Abs(price - d.signal.value.levelPrice) > Abs(price - l.price) {
      forall j | 0 <= j < k ensures TriggerFrom(mode, t, cur, v1, v15, nearest[j], pen, 0).signal.None? {
        if TriggerFrom(mode, t, cur, v1, v15, nearest[j], pen, 0).signal.Some? {
          var first := TriesEndBy(mode, z.burned, t, cur, v1, v15, nearest, pen, j);
          TriggerSignal(mode, t, cur, v1, v15, nearest[first], pen, 0);
          NearerFirst(price, z.active, first, k);
          assert false;
        }
      }
    }
  }

  lemma NearerFirst(price: real, levels: seq<Level>, a: nat, b: nat)
    requires a <= b < |NearestFirst(price, levels)|
    ensures var r := NearestFirst(price, levels); Abs(price - r[a].price) <= Abs(price - r[b].price)
  {
    NearestFirstSorts(price, levels);
    var r := NearestFirst(price, levels);
    assert |r| == |levels|;
    assert a < b ==> Distance(price, r[a]) <= Distance(price, r[b]);
  }

  lemma ActiveKeysDiffer(m: Memory, t: int, v1: Frame, v5: Frame, v15: Frame)
    requires RealBars(v15)
    ensures var z := CallZone(m, t, v1, v5, v15);
      DistinctKeys(z.active) && forall l :: l in z.active ==> KeyOf(l) !in z.burned
  {
    hide ScanTo, ZoneAll, RealBars;
    var sc := FreshLevels(m.burned, v1, v15, t);
    if |v15.bars| >= 2 * L_SWING_15M + 1 { ScanIsClean(m.burned, v1, v15, t, |v15.bars| - L_SWING_15M); }
    if sc.levels != [] && v5.bars != [] {
      ZoneIsClean(Zone([], sc.burned, m.firstSeen), sc.levels, Last(v5.bars), t);
    }
  }
}
