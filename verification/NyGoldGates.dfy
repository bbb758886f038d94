/** When the NY Gold backtest asks the detector and when it fills: exactly, in terms of balances, bars and entries. */
module NyGoldGates {
  import opened Clock
  import opened Common
  import opened NyGoldBacktest
  import opened NyGoldData
  import opened NyGoldDetector
  import opened NyGoldExits
  import opened NyGoldKeys
  import opened NyGoldRun

  // ------------------------------------------------------------------ the drawdown limits

  /** The first bar of the UTC day that bar `i` belongs to. */
  function FirstOfDay(d: Data, i: nat): (j: nat)
    requires i < |d.oneM.bars|
    ensures j <= i && DateKey(TimeAt(d, j)) == DateKey(TimeAt(d, i))
  {
    if i > 0 && DateKey(TimeAt(d, i - 1)) == DateKey(TimeAt(d, i)) then FirstOfDay(d, i - 1) else i
  }

  /** Up to bar `i` the balance never stood at or below nine tenths of what the run began with. */
  ghost predicate InTotalLimit(equity: seq<(int, real)>, i: nat)
    requires i < |equity|
  {
    forall j :: 0 <= j <= i ==> equity[j].1 > 90_000.0
  }

  /** Nor, since the first bar of the day, at or below nineteen twentieths of what the day began with. */
  ghost predicate InDayLimit(d: Data, equity: seq<(int, real)>, i: nat)
    requires i < |equity| && i < |d.oneM.bars|
  {
    var first := FirstOfDay(d, i);
    forall j :: first <= j <= i ==> equity[j].1 > 0.95 * equity[first].1
  }

  /** The flags of a run say so, and the day's balance is that of its first bar. */
  ghost predicate FlagsTrue(d: Data, s: Run, n: nat)
    requires n <= |d.oneM.bars|
  {
    && |s.equity| == n
    && (n == 0 ==> !s.totalHalted && !s.dailyHalted && s.sodBalance == s.balance)
    && (n > 0 ==>
          && s.sodDay == DateKey(TimeAt(d, n - 1))
          && s.sodBalance == s.equity[FirstOfDay(d, n - 1)].1
          && (s.totalHalted <==> !InTotalLimit(s.equity, n - 1))
          && (!s.totalHalted ==> (s.dailyHalted <==> !InDayLimit(d, s.equity, n - 1))))
  }

  lemma TotalLimitStep(before: seq<(int, real)>, sample: (int, real))
    ensures var n := |before|;
      InTotalLimit(before + [sample], n) <==> (n == 0 || InTotalLimit(before, n - 1)) && sample.1 > 90_000.0
  {
    var e, n := before + [sample], |before|;
    assert e[n] == sample && forall j :: 0 <= j < n ==> e[j] == before[j];
    if n > 0 && InTotalLimit(e, n) {
      forall j | 0 <= j <= n - 1 ensures before[j].1 > 90_000.0 { assert e[j].1 > 90_000.0; }
    }
  }

  /** A day that goes on adds one bar to look at, a new one starts afresh. */
  lemma DayLimitStep(d: Data, before: seq<(int, real)>, sample: (int, real), n: nat)
    requires |before| == n < |d.oneM.bars|
    ensures var e, first := before + [sample], FirstOfDay(d, n);
      if n > 0 && DateKey(TimeAt(d, n - 1)) == DateKey(TimeAt(d, n)) then
        && first == FirstOfDay(d, n - 1) && e[first] == before[first]
        && (InDayLimit(d, e, n) <==> InDayLimit(d, before, n - 1) && sample.1 > 0.95 * e[first].1)
      else first == n && (InDayLimit(d, e, n) <==> sample.1 > 0.95 * sample.1)
  {
    hide DateKey;
    var e, first := before + [sample], FirstOfDay(d, n);
    assert e[n] == sample && forall j :: 0 <= j < n ==> e[j] == before[j];
    if n > 0 && DateKey(TimeAt(d, n - 1)) == DateKey(TimeAt(d, n)) && InDayLimit(d, e, n) {
      forall j | first <= j <= n - 1 ensures before[j].1 > 0.95 * before[first].1 {
        assert e[j].1 > 0.95 * e[first].1;
      }
    }
  }

  /** What a decision leaves behind, stage by stage; `f` is the state once the pending signal has been dealt with. */
  ghost predicate Stages(mode: TpMode, news: News, d: Data, s: Run, f: Run, x: Run, n: nat)
    requires SortedData(d) && n < |d.oneM.bars|
  {
    var b := d.oneM.bars[n];
    var r := AfterDayRoll(AfterManagement(s, b, n), b);
    && x.equity == s.equity + [(b.time, r.balance)] && x.sodDay == DateKey(b.time) && x.sodBalance == r.sodBalance
    && x.open == f.open && x.closed == f.closed && x.dailyCount == f.dailyCount && x.cooldownUntil == f.cooldownUntil
    && x.totalHalted == f.totalHalted && x.dailyHalted == f.dailyHalted && x.sodDay == f.sodDay
    && if TotalDrawdown(r) then f == r.(totalHalted := true)
       else f == AfterFill(AfterDailyHalt(r), b, n)
  }

  function Filling(s: Run, b: GoldBar, n: nat): Run {
    var r := AfterDayRoll(AfterManagement(s, b, n), b);
    if TotalDrawdown(r) then r.(totalHalted := true) else AfterFill(AfterDailyHalt(r), b, n)
  }

  lemma RollSetsDay(s: Run, b: GoldBar)
    ensures var r := AfterDayRoll(s, b);
      && r.balance == s.balance && r.equity == s.equity && r.sodDay == DateKey(b.time)
      && r.totalHalted == s.totalHalted
      && (if DateKey(b.time) == s.sodDay then r.sodBalance == s.sodBalance && r.dailyHalted == s.dailyHalted
          else r.sodBalance == s.balance && !r.dailyHalted)
  {
    hide DateKey;
  }

  lemma ManagementKeepsFlags(s: Run, b: GoldBar, idx: nat)
    ensures var m := AfterManagement(s, b, idx);
      && m.equity == s.equity && m.sodDay == s.sodDay && m.sodBalance == s.sodBalance
      && m.totalHalted == s.totalHalted && m.dailyHalted == s.dailyHalted
      && (s.open.None? ==> m == s)
  {
    hide Managed, NetPnl;
  }

  lemma DetectorKeepsRest(mode: TpMode, news: News, s: Run, b: GoldBar, idx: nat, v: View)
    requires idx < |v.v1.bars|
    ensures var r := AfterDetector(mode, news, s, b, idx, v); r == s.(memory := r.memory, pending := r.pending)
  {
    hide Decide, DetectorBar, GatesBlock;
  }

  lemma FillKeepsRest(s: Run, b: GoldBar, idx: nat)
    ensures var f := AfterFill(s, b, idx);
      && f.equity == s.equity && f.balance == s.balance && f.sodDay == s.sodDay && f.sodBalance == s.sodBalance
  {
    hide Filled;
  }

  lemma DecisionStages(mode: TpMode, news: News, s: Run, d: Data, n: nat)
    requires SortedData(d) && n < |d.oneM.bars|
    ensures Stages(mode, news, d, s, Filling(s, d.oneM.bars[n], n), DecisionAt(mode, news, s, d, n), n)
  {
    hide AfterManagement, AfterDayRoll, AfterFill, AfterDetector, ViewAt, DateKey;
    var b, v := d.oneM.bars[n], ViewAt(d, CloseTime(d.oneM, n));
    SeesItsBar(d, n);
    var m := AfterManagement(s, b, n);
    var q := AfterDailyHalt(AfterDayRoll(m, b));
    ManagementKeepsFlags(s, b, n);
    RollSetsDay(m, b);
    FillKeepsRest(q, b, n);
    DetectorKeepsRest(mode, news, AfterFill(q, b, n), b, n, v);
  }

  lemma DecisionKeepsFlags(mode: TpMode, news: News, s: Run, d: Data, n: nat)
    requires SortedData(d) && n < |d.oneM.bars| && FlagsTrue(d, s, n) && (n == 0 ==> s.open.None?)
    ensures FlagsTrue(d, DecisionAt(mode, news, s, d, n), n + 1)
  {
    hide DecisionAt, AfterManagement, AfterDayRoll, InTotalLimit, InDayLimit, DateKey, FirstOfDay, Filled;
    var b, x := d.oneM.bars[n], DecisionAt(mode, news, s, d, n);
    var m := AfterManagement(s, b, n);
    var r := AfterDayRoll(m, b);
    DecisionStages(mode, news, s, d, n);
    ManagementKeepsFlags(s, b, n);
    RollSetsDay(m, b);
    TotalLimitStep(s.equity, (b.time, r.balance));
    DayLimitStep(d, s.equity, (b.time, r.balance), n);
  }

  lemma {:induction false} FlagsAreTrue(mode: TpMode, news: News, d: Data, n: nat)
    requires SortedData(d) && n <= |d.oneM.bars|
    ensures FlagsTrue(d, After(mode, news, d, n), n)
  {
    hide DecisionAt, InTotalLimit, InDayLimit, FirstOfDay, DateKey;
    if n > 0 {
      FlagsAreTrue(mode, news, d, n - 1);
      DecisionKeepsFlags(mode, news, After(mode, news, d, n - 1), d, n - 1);
    }
  }

  // ------------------------------------------------------------------ filling

  /** Both drawdown limits are kept and the day has seen fewer than three entries. */
  ghost predicate MayTrade(d: Data, equity: seq<(int, real)>, entries: seq<int>, n: nat)
    requires n < |equity| && n < |d.oneM.bars|
  {
    InTotalLimit(equity, n) && InDayLimit(d, equity, n) && CountOn(entries, DateKey(TimeAt(d, n))) < 3
  }

  /** What a fill at this bar's open would risk, per unit. */
  function RiskAtOpen(s: Signal, b: GoldBar): real {
    match s.dir
    case Buy => b.open + Half(b) + 0.2 - s.sl
    case Sell => s.sl - (b.open - Half(b) - 0.2)
  }

  lemma FilledUnlessTight(s: Signal, b: GoldBar, idx: nat, balance: real)
    ensures Filled(s, b, idx, balance).Some? <==> RiskAtOpen(s, b) >= 0.3
  {
    hide Deferred;
    SpreadSides(s.dir, b);
    assert EntryPrice(s.dir, b) == (if s.dir.Buy? then b.open + Half(b) + 0.2 else b.open - Half(b) - 0.2);
  }

  lemma FillDecides(s: Run, b: GoldBar, idx: nat)
    requires s.open.None?
    ensures var f := AfterFill(s, b, idx);
      && f.pending.None?
      && (f.open.Some? <==> s.pending.Some? && MayEnter(s) && RiskAtOpen(s.pending.value, b) >= 0.3)
      && (f.open.Some? ==> f.open.value.signal == s.pending.value)
  {
    hide Filled, RiskAtOpen;
    if s.pending.Some? { FilledUnlessTight(s.pending.value, b, idx, SizingBalance(s)); }
  }

  /**
   * With nothing open, a bar opens a trade exactly when a signal is pending, the limits allow it, and the entry leaves
   * at least the minimum risk; the trade is that of the signal.
   */
  lemma FillsExactly(mode: TpMode, news: News, d: Data, n: nat)
    requires SortedData(d) && n < |d.oneM.bars| && After(mode, news, d, n).open.None?
    ensures var s, r := After(mode, news, d, n), After(mode, news, d, n + 1);
      && |r.equity| == n + 1
      && (r.open.Some? <==>
            && s.pending.Some? && MayTrade(d, r.equity, Entries(s), n)
            && RiskAtOpen(s.pending.value, d.oneM.bars[n]) >= 0.3)
      && (r.open.Some? ==> r.open.value.signal == s.pending.value)
  {
    hide DecisionAt, InTotalLimit, InDayLimit, FirstOfDay, DateKey, RiskAtOpen;
    hide AfterFill, Entries, CountOn, AfterDayRoll;
    var s, r, b := After(mode, news, d, n), After(mode, news, d, n + 1), d.oneM.bars[n];
    FlagsAreTrue(mode, news, d, n);
    DailyCap(mode, news, d, n);
    RollKeepsCap(d, s, n);
    DecisionStages(mode, news, s, d, n);
    var m := AfterDayRoll(AfterManagement(s, b, n), b);
    RollSetsDay(s, b);
    RollKeepsPending(s, b);
    TotalLimitStep(s.equity, (b.time, m.balance));
    DayLimitStep(d, s.equity, (b.time, m.balance), n);
    if !TotalDrawdown(m) { FillDecides(AfterDailyHalt(m), b, n); }
  }

  lemma RollKeepsPending(s: Run, b: GoldBar)
    ensures var r := AfterDayRoll(s, b); r.pending == s.pending && r.open == s.open
  {
  }

  // ------------------------------------------------------------------ asking the detector

  /** Nothing is open, the limits allow a trade, the wait after a loss is over, and it is between 12:01 and 16:54. */
  ghost predicate Asks(d: Data, r: Run, n: nat)
    requires n < |r.equity| && n < |d.oneM.bars|
  {
    && r.open.None? && MayTrade(d, r.equity, Entries(r), n)
    && (r.cooldownUntil.Some? ==> CloseTime(d.oneM, n) >= r.cooldownUntil.value)
    && 12 * 60 + 1 <= MinuteOfDay(TimeAt(d, n)) < 16 * 60 + 55
  }

  lemma DetectorMinutes(b: GoldBar)
    ensures DetectorBar(b) && !LateForEntry(b) <==> 12 * 60 + 1 <= MinuteOfDay(b.time) < 16 * 60 + 55
  {
    hide Hour, Minute, Second, MinuteOfDay;
    MinuteOfDayIs(b.time);
  }

  /** No gate of this state is shut at `t`, the minutes of the day aside. */
  predicate Unblocked(s: Run, t: int) {
    && s.open.None? && !s.dailyHalted && !s.totalHalted && s.dailyCount < 3
    && (s.cooldownUntil.Some? ==> t >= s.cooldownUntil.value)
  }

  lemma DetectorAsks(mode: TpMode, news: News, s: Run, b: GoldBar, idx: nat, v: View)
    requires idx < |v.v1.bars| && s.pending.None?
    ensures var r := AfterDetector(mode, news, s, b, idx, v);
      if Unblocked(s, v.t) && 12 * 60 + 1 <= MinuteOfDay(b.time) < 16 * 60 + 55 then
        var x := NyGoldDetector.Decide(mode, s.memory, v.t, idx, v.v1, v.v5, v.v15);
        r == s.(memory := x.memory, pending := if news(v.t) then None else x.signal)
      else r == s
  {
    hide NyGoldDetector.Decide, Hour, Minute, Second, MinuteOfDay;
    DetectorMinutes(b);
  }

  lemma FillingKeepsMemory(s: Run, b: GoldBar, n: nat)
    requires s.open.Some? ==> s.pending.None?
    ensures var f := Filling(s, b, n);
      f.memory == s.memory && (!TotalDrawdown(AfterDayRoll(AfterManagement(s, b, n), b)) ==> f.pending.None?)
  {
    hide Filled, DateKey, Managed, NetPnl;
  }

  /** The last stage of a decision. */
  lemma LastStage(mode: TpMode, news: News, s: Run, d: Data, n: nat)
    requires SortedData(d) && n < |d.oneM.bars| && OneAtATime(d, s, n)
    ensures var b, v := d.oneM.bars[n], ViewAt(d, CloseTime(d.oneM, n));
      && n < |v.v1.bars|
      && var f, x := Filling(s, b, n), DecisionAt(mode, news, s, d, n);
         && f.memory == s.memory
         && if TotalDrawdown(AfterDayRoll(AfterManagement(s, b, n), b)) then x == Logged(f, b) && f.totalHalted
            else f.pending.None? && x == Logged(AfterDetector(mode, news, f, b, n, v), b)
  {
    hide AfterDetector, AfterFill, AfterManagement, ViewAt, AfterDayRoll, OneAtATime;
    SeesItsBar(d, n);
    OnePending(d, s, n);
    FillingKeepsMemory(s, d.oneM.bars[n], n);
  }

  /**
   * A bar asks the detector exactly when it may, about what has closed by then, and outside the news takes the answer
   * for the next bar; otherwise it leaves the detector's memory alone and nothing pending, the total halt aside.
   */
  lemma AsksExactly(mode: TpMode, news: News, d: Data, n: nat)
    requires SortedData(d) && n < |d.oneM.bars|
    ensures var s, r, t := After(mode, news, d, n), After(mode, news, d, n + 1), CloseTime(d.oneM, n);
      var v := ViewAt(d, t);
      && |r.equity| == n + 1 && n < |v.v1.bars|
      && if Asks(d, r, n) then
           var x := NyGoldDetector.Decide(mode, s.memory, t, n, v.v1, v.v5, v.v15);
           r.memory == x.memory && r.pending == if news(t) then None else x.signal
         else r.memory == s.memory && (InTotalLimit(r.equity, n) ==> r.pending.None?)
  {
    hide DecisionAt, InTotalLimit, InDayLimit, FirstOfDay, DateKey, AfterFill;
    hide Entries, CountOn, AfterDayRoll, MinuteOfDay;
    hide AfterManagement, Filling, NyGoldDetector.Decide, ViewAt, OneAtATime;
    var s, r, b := After(mode, news, d, n), After(mode, news, d, n + 1), d.oneM.bars[n];
    FlagsAreTrue(mode, news, d, n + 1);
    DailyCap(mode, news, d, n + 1);
    TradesDoNotOverlap(mode, news, d, n);
    LastStage(mode, news, s, d, n);
    var f, v := Filling(s, b, n), ViewAt(d, CloseTime(d.oneM, n));
    if !TotalDrawdown(AfterDayRoll(AfterManagement(s, b, n), b)) { DetectorAsks(mode, news, f, b, n, v); }
  }
}
