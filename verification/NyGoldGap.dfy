/** A run of the NY Gold backtest over given bars in which two losses of one day cost only the short cooldown. */
module NyGoldGap {
  import opened Clock
  import opened Common
  import opened NyGoldBacktest
  import opened NyGoldData
  import opened NyGoldDetector
  import opened NyGoldLevels
  import opened NyGoldRun
  import opened Sorting

  /** Milliseconds of a time of day. */
  function At(day: int, hour: int, minute: int): int {
    day * DAY_MS + hour * HOUR_MS + minute * MINUTE_MS
  }

  function Quiet(time: int, price: real): GoldBar {
    GoldBar(time, price, price + 0.1, price - 0.1, price, None)
  }

  /** A bar that dips half a dollar below 100 and closes above it. */
  function Pin(time: int): GoldBar {
    GoldBar(time, 100.0, 100.1, 99.5, 100.1, None)
  }

  /** A quarter of an hour well above 100, or one that touches it. */
  function Quarter(time: int, low: real): GoldBar {
    GoldBar(time, 101.5, 102.0, low, 101.5, None)
  }

  /** Five quarters of an hour with a swing low at 100 in the middle. */
  function Swing(day: int): seq<GoldBar> {
    [Quarter(At(day, 10, 0), 101.0), Quarter(At(day, 10, 15), 101.0), Quarter(At(day, 10, 30), 100.0),
     Quarter(At(day, 10, 45), 101.0), Quarter(At(day, 11, 0), 101.0)]
  }

  /**
   * Both days sweep the level at five past one. The first day's bars end there, the second begins at half past twelve.
   */
  function Minutes(): seq<GoldBar> {
    [Pin(At(0, 13, 5)), Quiet(At(0, 13, 6), 100.1),
     Quiet(At(1, 12, 30), 100.7), Pin(At(1, 13, 5)), Quiet(At(1, 13, 6), 100.1),
     GoldBar(At(1, 13, 7), 100.0, 100.0, 98.0, 98.0, None)]
  }

  function Gapped(): Data {
    Data(Frame(MINUTE_MS, Minutes()), Frame(5 * MINUTE_MS, [Quiet(At(0, 13, 0), 100.5)]),
         Frame(15 * MINUTE_MS, Swing(0) + Swing(1)))
  }

  // ------------------------------------------------------------------ the detector on such a bar

  /** The level a swing low at 100 makes. */
  ghost predicate LevelAt100(l: Level, b: GoldBar) {
    l.price == 100.0 && l.dir == Buy && l.confirmed <= b.time
  }

  lemma PinMatches(bars: seq<GoldBar>, l: Level, r: nat)
    requires r < |bars| && LevelAt100(l, bars[r]) && bars[r] == Pin(bars[r].time)
    ensures EvalPair(bars, l, 0.8, r, r).Match?
  {
  }

  /** A level at 100 and a pin bar below it make a signal with its stop at 99.3. */
  lemma PinSignals(t: int, cur: nat, v1: Frame, v15: Frame, l: Level)
    requires cur < |v1.bars| && LevelAt100(l, v1.bars[cur]) && v1.bars[cur] == Pin(v1.bars[cur].time)
    ensures var s := TriggerFrom(Hybrid, t, cur, v1, v15, l, 0.8, 0).signal;
      s.Some? && s.value.dir == Buy && s.value.sl == 99.3 && s.value.tp >= 100.9
  {
    hide TpOpposing, EvalPair, TpHybrid;
    PinMatches(v1.bars, l, cur);
    HybridReward(Buy, 100.1, 99.3, TpOpposing(v15, Buy, 100.1, t));
  }

  lemma OneBarHasNoAtr(v5: Frame)
    requires |v5.bars| == 1
    ensures PenMax(AtrPips(v5)) == 0.8
  {
  }

  lemma OneLevelIsSorted(price: real, l: Level)
    ensures NearestFirst(price, [l]) == [l]
  {
    var key := DistanceFrom(price);
    assert Front([l]) == [] && SortBy([], key) == [];
    assert Insert([], l, key) == [l];
  }

  /** One fresh level at 100, near enough, and a pin bar below it: a signal. */
  lemma DetectorSignals(m: Memory, t: int, cur: nat, v1: Frame, v5: Frame, v15: Frame, l: Level, burned: set<Key>)
    requires cur < |v1.bars| && LevelAt100(l, v1.bars[cur]) && v1.bars[cur] == Pin(v1.bars[cur].time)
    requires |v5.bars| == 1 && v5.bars[0].low <= 101.5 && KeyOf(l) !in Rolled(m, t).firstSeen
    requires FreshLevels(Rolled(m, t).burned, v1, v15, t) == Scan([l], burned)
    ensures var s := Decide(Hybrid, m, t, cur, v1, v5, v15).signal;
      s.Some? && s.value.dir == Buy && s.value.sl == 99.3 && s.value.tp >= 100.9
  {
    hide FreshLevels, TriggerFrom, NearestFirst, AtrPips, PenMax;
    var z := CallZone(Rolled(m, t), t, v1, v5, v15);
    OneLevelZone(Zone([], burned, Rolled(m, t).firstSeen), l, v5.bars[0], t);
    assert z.active == [l];
    OneLevelIsSorted(v1.bars[cur].close, l);
    OneBarHasNoAtr(v5);
    PinSignals(t, cur, v1, v15, l);
  }

  lemma OneLevelZone(z: Zone, l: Level, last: GoldBar, t: int)
    requires z.active == [] && l.price == 100.0 && l.dir == Buy && last.low <= 101.5 && KeyOf(l) !in z.firstSeen
    ensures ZoneAll(z, [l], last, t).active == [l]
  {
    assert Front([l]) == [];
    assert ZoneAll(z, [], last, t) == z;
  }

  // ------------------------------------------------------------------ the level of each day

  /** The middle quarter is a swing low and nothing else. */
  lemma MiddleIsLow(bars: seq<GoldBar>, i: nat, day: int)
    requires 2 <= i < |bars| - 2 && bars[i - 2..i + 3] == Swing(day)
    ensures IsSwing15(bars, i, Buy) && !IsSwing15(bars, i, Sell)
  {
    var w := bars[i - 2..i + 3];
    assert bars[i - 2] == w[0] && bars[i - 1] == w[1] && bars[i] == w[2] && bars[i + 1] == w[3] && bars[i + 2] == w[4];
  }

  lemma OnlyLevel(sc: Scan, v1: Frame, v15: Frame, i: nat, t: int, day: int)
    requires 2 <= i < |v15.bars| - 2 && v15.bars[i - 2..i + 3] == Swing(day) && sc == Scan([], {})
    requires v15.bars[i].time >= t - LEVEL_LOOKBACK_MS && IsFresh(v1, 100.0, Buy, CloseTime(v15, i + 2), t)
    ensures ScanBar(sc, v1, v15, i, t) == Scan([LevelAt(v15, i, Buy, t)], {})
  {
    hide IsSwing15, IsFresh, CountTouches;
    MiddleIsLow(v15.bars, i, day);
    assert v15.bars[i] == v15.bars[i - 2..i + 3][2];
  }

  lemma FirstDayLevel(v1: Frame, v15: Frame, t: int)
    requires t == At(0, 13, 6) && v1 == Frame(MINUTE_MS, Minutes()[..1]) && v15 == Frame(15 * MINUTE_MS, Swing(0))
    ensures var l := LevelAt(v15, 2, Buy, t);
      FreshLevels({}, v1, v15, t) == Scan([l], {}) && LevelAt100(l, Pin(At(0, 13, 5)))
  {
    hide IsSwing15, CountTouches, ScanBar;
    assert v15.bars[0..5] == Swing(0);
    OnlyLevel(Scan([], {}), v1, v15, 2, t, 0);
    assert ScanTo({}, v1, v15, t, 2) == Scan([], {});
    assert ScanTo({}, v1, v15, t, 3) == ScanBar(Scan([], {}), v1, v15, 2, t);
  }

  /** The quarters between the two swings are none. */
  lemma NoSwingBetween(bars: seq<GoldBar>, i: nat)
    requires bars == Swing(0) + Swing(1) && (i == 5 || i == 6)
    ensures !IsSwing15(bars, i, Buy) && !IsSwing15(bars, i, Sell)
  {
  }

  lemma SecondDayLevel(v1: Frame, v15: Frame, t: int)
    requires t == At(1, 13, 6) && v1 == Frame(MINUTE_MS, Minutes()[..4])
    requires v15 == Frame(15 * MINUTE_MS, Swing(0) + Swing(1))
    ensures var l := LevelAt(v15, 7, Buy, t);
      FreshLevels({}, v1, v15, t) == Scan([l], {}) && LevelAt100(l, Pin(At(1, 13, 5)))
  {
    hide IsSwing15, CountTouches;
    var bars, none := v15.bars, Scan([], {});
    assert bars[5..10] == Swing(1);
    assert none == ScanTo({}, v1, v15, t, 2);
    assert none == ScanTo({}, v1, v15, t, 3);
    assert none == ScanTo({}, v1, v15, t, 4);
    assert none == ScanTo({}, v1, v15, t, 5);
    NoSwingBetween(bars, 5);
    NoSwingBetween(bars, 6);
    assert none == ScanTo({}, v1, v15, t, 6);
    assert none == ScanTo({}, v1, v15, t, 7);
    assert IsFresh(v1, 100.0, Buy, CloseTime(v15, 9), t);
    OnlyLevel(none, v1, v15, 7, t, 1);
    assert ScanTo({}, v1, v15, t, 8) == ScanBar(none, v1, v15, 7, t);
  }

  // ------------------------------------------------------------------ what the decisions see

  lemma CountIs(f: Frame, t: int, n: nat)
    requires Sorted(f) && n <= |f.bars|
    requires (0 < n ==> CloseTime(f, n - 1) <= t) && (n < |f.bars| ==> t < CloseTime(f, n))
    ensures Slice(f, t) == f.(bars := f.bars[..n])
  {
    hide BisectRight;
  }

  predicate InStep(f: Frame, i: nat)
    requires 0 < i < |f.bars|
  {
    f.bars[i - 1].time + f.barMs <= f.bars[i].time
  }

  lemma {:induction false} StepsSort(f: Frame, i: nat, j: nat)
    requires i < j < |f.bars| && f.barMs > 0 && forall k :: 0 < k < |f.bars| ==> InStep(f, k)
    ensures f.bars[i].time + f.barMs <= f.bars[j].time
  {
    assert InStep(f, j);
    if i < j - 1 { StepsSort(f, i, j - 1); }
  }

  lemma StepsAreSorted(f: Frame)
    requires f.barMs > 0 && forall k :: 0 < k < |f.bars| ==> InStep(f, k)
    ensures Sorted(f)
  {
    forall i, j | 0 <= i < j < |f.bars| ensures f.bars[i].time <= f.bars[j].time { StepsSort(f, i, j); }
  }

  lemma MinutesInStep()
    ensures forall k :: 0 < k < |Gapped().oneM.bars| ==> InStep(Gapped().oneM, k)
  {
  }

  lemma QuartersInStep()
    ensures forall k :: 0 < k < |Gapped().fifteenM.bars| ==> InStep(Gapped().fifteenM, k)
  {
  }

  lemma GappedIsSorted()
    ensures SortedData(Gapped()) && Spaced(Gapped())
  {
    hide Minutes, Swing;
    MinutesInStep();
    StepsAreSorted(Gapped().oneM);
    QuartersInStep();
    StepsAreSorted(Gapped().fifteenM);
    forall i, j | 0 <= i < j < |Gapped().oneM.bars|
      ensures Gapped().oneM.bars[i].time + MINUTE_MS <= Gapped().oneM.bars[j].time
    {
      StepsSort(Gapped().oneM, i, j);
    }
  }

  lemma FirstView()
    ensures var d := Gapped();
      SortedData(d) && ViewAt(d, At(0, 13, 6)) == View(At(0, 13, 6), Frame(MINUTE_MS, Minutes()[..1]),
                                                       d.fiveM, Frame(15 * MINUTE_MS, Swing(0)))
  {
    hide VisibleCount;
    GappedIsSorted();
    var d, t := Gapped(), At(0, 13, 6);
    CountIs(d.oneM, t, 1);
    CountIs(d.fiveM, t, 1);
    CountIs(d.fifteenM, t, 5);
    assert d.fiveM.bars[..1] == d.fiveM.bars && d.fifteenM.bars[..5] == Swing(0);
  }

  lemma SecondView()
    ensures var d := Gapped();
      && SortedData(d)
      && ViewAt(d, At(1, 13, 6)) == View(At(1, 13, 6), Frame(MINUTE_MS, Minutes()[..4]), d.fiveM, d.fifteenM)
  {
    hide VisibleCount;
    GappedIsSorted();
    var d, t := Gapped(), At(1, 13, 6);
    CountIs(d.oneM, t, 4);
    CountIs(d.fiveM, t, 1);
    CountIs(d.fifteenM, t, 10);
    assert d.fiveM.bars[..1] == d.fiveM.bars && d.fifteenM.bars[..10] == d.fifteenM.bars;
  }

  // ------------------------------------------------------------------ the six decisions

  /** Nothing open, nothing halted, and enough money left. */
  ghost predicate Flat(s: Run) {
    && s.open.None? && !s.dailyHalted && !s.totalHalted && s.dailyCount < MAX_TRADES_PER_DAY
    && 0.99 * INITIAL_BALANCE <= s.balance <= INITIAL_BALANCE && s.sodBalance <= INITIAL_BALANCE && s.lossStreak == 0
  }

  ghost predicate BuySignal(sig: Option<Signal>) {
    sig.Some? && sig.value.dir == Buy && sig.value.sl == 99.3 && sig.value.tp >= 100.9
  }

  /** In session, past its first minute, and not late; these are days 0 and 1. */
  lemma PinTimes(day: int)
    requires day == 0 || day == 1
    ensures var b := Pin(At(day, 13, 5));
      && DetectorBar(b) && !LateForEntry(b) && DateKey(b.time) == DateKey(At(day, 13, 6)) == day
      && b.time + MINUTE_MS == At(day, 13, 6)
  {
  }

  lemma MemoryDay(m: Memory, t: int, cur: nat, v1: Frame, v5: Frame, v15: Frame)
    requires cur < |v1.bars|
    ensures Decide(Hybrid, m, t, cur, v1, v5, v15).memory.day == DateKey(t)
  {
    hide CallZone, TryLevels, NearestFirst, PenMax, DateKey;
  }

  /** A flat run, allowed to enter, on a bar on which the detector signals. */
  lemma SignalDecision(s: Run, b: GoldBar, idx: nat, v: View)
    requires idx < |v.v1.bars| && Flat(s) && s.pending.None? && DetectorBar(b) && !LateForEntry(b)
    requires s.cooldownUntil.Some? ==> s.cooldownUntil.value <= v.t
    requires BuySignal(Decide(Hybrid, s.memory, v.t, idx, v.v1, v.v5, v.v15).signal)
    ensures var r := Decision(Hybrid, (t: int) => false, s, b, idx, v);
      && BuySignal(r.pending) && Flat(r) && r.closed == s.closed && r.balance == s.balance
      && r.sodDay == DateKey(b.time) && r.cooldownUntil == s.cooldownUntil
      && r.memory == Decide(Hybrid, s.memory, v.t, idx, v.v1, v.v5, v.v15).memory
  {
    hide Decide, DetectorBar, LateForEntry, DateKey, BuySignal;
  }

  lemma PinDecision(s: Run, idx: nat, day: int)
    requires (day == 0 && idx == 0) || (day == 1 && idx == 3)
    requires Flat(s) && s.pending.None? && s.memory.day != day
    requires s.cooldownUntil.Some? ==> s.cooldownUntil.value <= At(day, 13, 6)
    ensures SortedData(Gapped()) && idx < |Gapped().oneM.bars|
    ensures var r := DecisionAt(Hybrid, (t: int) => false, s, Gapped(), idx);
      && BuySignal(r.pending) && Flat(r) && r.closed == s.closed && r.balance == s.balance
      && r.sodDay == day && r.memory.day == day && r.cooldownUntil == s.cooldownUntil
  {
    hide ViewAt, Decide, VisibleCount, FreshLevels, DetectorBar, LateForEntry;
    hide LevelAt, Decision, DateKey, BuySignal, Flat;
    GappedIsSorted();
    PinTimes(day);
    var d, t := Gapped(), At(day, 13, 6);
    var v := ViewAt(d, t);
    if day == 0 {
      FirstView();
      FirstDayLevel(v.v1, v.v15, t);
      DetectorSignals(s.memory, t, 0, v.v1, v.v5, v.v15, LevelAt(v.v15, 2, Buy, t), {});
    } else {
      SecondView();
      SecondDayLevel(v.v1, v.v15, t);
      DetectorSignals(s.memory, t, 3, v.v1, v.v5, v.v15, LevelAt(v.v15, 7, Buy, t), {});
    }
    assert BuySignal(Decide(Hybrid, s.memory, v.t, idx, v.v1, v.v5, v.v15).signal) by {
      IsBuySignal(Decide(Hybrid, s.memory, v.t, idx, v.v1, v.v5, v.v15).signal);
    }
    MemoryDay(s.memory, v.t, idx, v.v1, v.v5, v.v15);
    SignalDecision(s, d.oneM.bars[idx], idx, v);
  }

  lemma IsBuySignal(sig: Option<Signal>)
    requires sig.Some? && sig.value.dir == Buy && sig.value.sl == 99.3 && sig.value.tp >= 100.9
    ensures BuySignal(sig)
  {
  }

  /** The trade that fills such a signal at 100.1. */
  ghost predicate BoughtAt(ot: OpenTrade, idx: nat, time: int) {
    && ot.dir == Buy && ot.entryIdx == idx && ot.entryTime == time && ot.entryPrice == 100.525 && ot.sl == 99.3
    && ot.tp >= 100.9 && 0.0 < ot.lot <= LOT_MAX && ot.deferred.None?
  }

  lemma FillsSignal(sig: Signal, time: int, idx: nat, balance: real)
    requires BuySignal(Some(sig))
    ensures var ot := Filled(sig, Quiet(time, 100.1), idx, balance); ot.Some? && BoughtAt(ot.value, idx, time)
  {
    hide RoundLot;
    forall raw ensures LOT_MIN <= RoundLot(raw) <= LOT_MAX { LotInRange(raw); }
  }

  lemma LotInRange(raw: real)
    ensures LOT_MIN <= RoundLot(raw) <= LOT_MAX
  {
  }

  /** The next bar fills it; an open trade keeps the detector quiet. */
  lemma FillDecision(s: Run, time: int, idx: nat, v: View)
    requires idx < |v.v1.bars| && Flat(s) && BuySignal(s.pending) && DateKey(time) == s.sodDay
    ensures var r := Decision(Hybrid, (t: int) => false, s, Quiet(time, 100.1), idx, v);
      && r.open.Some? && BoughtAt(r.open.value, idx, time) && r.pending.None?
      && r.closed == s.closed && r.balance == s.balance && r.lossStreak == 0 && !r.dailyHalted && !r.totalHalted
      && r.sodDay == s.sodDay && r.memory == s.memory && r.sodBalance == s.sodBalance
  {
    hide Decide, DetectorBar, LateForEntry, DateKey, Filled, BoughtAt;
    FillsSignal(s.pending.value, time, idx, SizingBalance(AfterDailyHalt(AfterDayRoll(s, Quiet(time, 100.1)))));
  }

  /** The overnight gap: the time stop books a small loss, and the new day forgets it at once. */
  lemma GapDecision(s: Run, idx: nat, v: View)
    requires idx == 2 && idx < |v.v1.bars| && v.t == At(1, 12, 31)
    requires s.open.Some? && BoughtAt(s.open.value, 1, At(0, 13, 6))
    requires s.pending.None? && !s.dailyHalted && !s.totalHalted
    requires s.sodDay == 0 && s.lossStreak == 0 && s.balance == INITIAL_BALANCE
    ensures var b := Quiet(At(1, 12, 30), 100.7);
      var r := Decision(Hybrid, (t: int) => false, s, b, idx, v);
      && Flat(r) && r.pending.None? && r.sodDay == 1 && r.memory == s.memory
      && r.cooldownUntil == Some(At(1, 13, 0))
      && |r.closed| == |s.closed| + 1 && Loss(Last(r.closed)) && Last(r.closed).exitTime == At(1, 12, 30)
      && r.closed[..|s.closed|] == s.closed
  {
    hide Decide, LateForEntry;
    var ot, b := s.open.value, Quiet(At(1, 12, 30), 100.7);
    assert Managed(ot, b, idx) == Some(Exit(100.475, TimeStop));
    SmallLoss(ot);
  }

  lemma SmallLoss(ot: OpenTrade)
    requires BoughtAt(ot, 1, At(0, 13, 6))
    ensures -600.0 <= NetPnl(ot, 100.475) < 0.0
  {
    assert NetPnl(ot, 100.475) == -12.0 * ot.lot;
  }

  /** The second trade is stopped out a minute later: the second loss of that day. */
  lemma StopDecision(s: Run, idx: nat, v: View)
    requires idx == 5 && idx < |v.v1.bars| && s.open.Some? && BoughtAt(s.open.value, 4, At(1, 13, 6))
    requires s.sodDay == 1 && s.lossStreak == 0
    ensures var b := GoldBar(At(1, 13, 7), 100.0, 100.0, 98.0, 98.0, None);
      var r := Decision(Hybrid, (t: int) => false, s, b, idx, v);
      && r.lossStreak == 1 && r.cooldownUntil == Some(At(1, 13, 37))
      && |r.closed| == |s.closed| + 1 && Loss(Last(r.closed)) && Last(r.closed).exitTime == At(1, 13, 7)
      && r.closed[..|s.closed|] == s.closed
  {
    hide Decide, LateForEntry, DetectorBar;
    var ot, b := s.open.value, GoldBar(At(1, 13, 7), 100.0, 100.0, 98.0, 98.0, None);
    assert Managed(ot, b, idx) == Some(Exit(99.3, SlHit));
    assert NetPnl(ot, 99.3) == -129.5 * ot.lot;
  }

  /**
   * The backtest over these bars books two losing trades in a row, both closed on the second day, and the wait after
   * the second is 30 minutes.
   */
  lemma TwoLossesShortWait()
    ensures var d := Gapped();
      && SortedData(d) && Spaced(d) && |d.oneM.bars| == 6
      && var r := After(Hybrid, (t: int) => false, d, 6);
         && |r.closed| == 2 && Loss(r.closed[0]) && Loss(r.closed[1])
         && DateKey(r.closed[0].exitTime) == DateKey(r.closed[1].exitTime) == 1
         && r.cooldownUntil == Some(r.closed[1].exitTime + COOLDOWN_AFTER_LOSS_MIN * MINUTE_MS)
  {
    hide Decision, ViewAt, Swing, BoughtAt, BuySignal, Flat;
    GappedIsSorted();
    var d, news := Gapped(), (t: int) => false;
    var s0 := After(Hybrid, news, d, 0);
    assert Flat(s0) by { FreshIsFlat(); }
    PinDecision(s0, 0, 0);
    var s1 := After(Hybrid, news, d, 1);
    OwnBarsVisible();
    FillDecision(s1, At(0, 13, 6), 1, ViewAt(d, CloseTime(d.oneM, 1)));
    var s2 := After(Hybrid, news, d, 2);
    GapDecision(s2, 2, ViewAt(d, CloseTime(d.oneM, 2)));
    var s3 := After(Hybrid, news, d, 3);
    PinDecision(s3, 3, 1);
    var s4 := After(Hybrid, news, d, 4);
    FillDecision(s4, At(1, 13, 6), 4, ViewAt(d, CloseTime(d.oneM, 4)));
    var s5 := After(Hybrid, news, d, 5);
    StopDecision(s5, 5, ViewAt(d, CloseTime(d.oneM, 5)));
  }

  lemma OwnBarsVisible()
    ensures var d := Gapped();
      SortedData(d) && forall i :: 0 <= i < |d.oneM.bars| ==> i < |ViewAt(d, CloseTime(d.oneM, i)).v1.bars|
  {
    hide VisibleCount;
    GappedIsSorted();
    var d := Gapped();
    forall i | 0 <= i < |d.oneM.bars| ensures i < |ViewAt(d, CloseTime(d.oneM, i)).v1.bars| {
      SliceIsClosedBars(d.oneM, CloseTime(d.oneM, i));
    }
  }

  lemma FreshIsFlat()
    ensures Flat(FRESH_RUN)
  {
  }
}
