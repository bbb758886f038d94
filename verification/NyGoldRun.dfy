/** Whole-run properties of the NY Gold backtest: it is causal, and it keeps its trading discipline. */
module NyGoldRun {
  import opened Clock
  import opened Common
  import opened NyGoldData
  import opened NyGoldDetector
  import opened NyGoldBacktest

  // ------------------------------------------------------------------ causality

  /** A decision sees the same bar and the same slices in data that agree up to it. */
  lemma SameView(d: Data, e: Data, horizon: int, idx: nat)
    requires SortedData(d) && SortedData(e) && AgreeData(d, e, horizon)
    requires idx < VisibleCount(d.oneM, horizon)
    ensures idx < |e.oneM.bars| && d.oneM.bars[idx] == e.oneM.bars[idx]
    ensures CloseTime(d.oneM, idx) == CloseTime(e.oneM, idx)
    ensures ViewAt(d, CloseTime(d.oneM, idx)) == ViewAt(e, CloseTime(e.oneM, idx))
  {
    hide BisectRight;
    assert |Slice(d.oneM, horizon).bars| == |Slice(e.oneM, horizon).bars|;
    assert Slice(d.oneM, horizon).bars[idx] == d.oneM.bars[idx];
    assert Slice(e.oneM, horizon).bars[idx] == e.oneM.bars[idx];
    SliceIsClosedBars(d.oneM, horizon);
    var t := CloseTime(d.oneM, idx);
    AgreeEarlier(d.oneM, e.oneM, t, horizon);
    AgreeEarlier(d.fiveM, e.fiveM, t, horizon);
    AgreeEarlier(d.fifteenM, e.fifteenM, t, horizon);
  }

  /** Data that agree on what is visible at `horizon` give the same state after every decision up to it. */
  lemma {:induction false} DecisionsAgree(mode: TpMode, news: News, d: Data, e: Data, horizon: int, n: nat)
    requires SortedData(d) && SortedData(e) && AgreeData(d, e, horizon)
    requires n <= VisibleCount(d.oneM, horizon)
    ensures n <= |e.oneM.bars| && After(mode, news, d, n) == After(mode, news, e, n)
  {
    hide Decision, ViewAt, VisibleCount, Slice;
    if n > 0 {
      DecisionsAgree(mode, news, d, e, horizon, n - 1);
      SameView(d, e, horizon, n - 1);
    }
  }

  function TimeAt(d: Data, i: nat): int
    requires i < |d.oneM.bars|
  {
    d.oneM.bars[i].time
  }

  /** What a decision does once position management, which led to `m`, is over: no booking, maybe a fill or a signal. */
  ghost predicate AfterBooking(d: Data, m: Run, x: Run, n: nat)
    requires n < |d.oneM.bars|
  {
    var b := d.oneM.bars[n];
    && x.balance == m.balance && x.closed == m.closed && x.equity == m.equity + [(b.time, m.balance)]
    && x.cooldownUntil == m.cooldownUntil && x.sodDay == DateKey(b.time)
    && x.lossStreak == (if DateKey(b.time) == m.sodDay then m.lossStreak else 0)
    && (x.open == m.open
        || (m.open.None? && m.pending.Some? && x.open.Some?
            && x.open.value.entryIdx == n && x.open.value.entryTime == b.time))
    && (x.pending.None?
        || (x.pending == m.pending && x.open == m.open)
        || (x.open.None? && (m.cooldownUntil.None? || CloseTime(d.oneM, n) >= m.cooldownUntil.value)))
  }

  lemma RestOfDecision(mode: TpMode, news: News, s: Run, d: Data, n: nat)
    requires SortedData(d) && n < |d.oneM.bars|
    ensures AfterBooking(d, AfterManagement(s, d.oneM.bars[n], n), DecisionAt(mode, news, s, d, n), n)
  {
    hide Decide, ViewAt, AfterManagement, Filled;
    var b := d.oneM.bars[n];
    var r := AfterDayRoll(AfterManagement(s, b, n), b);
    var f := AfterFill(AfterDailyHalt(r), b, n);
    assert f.pending.Some? ==> f.open == r.open && f.pending == r.pending;
  }

  /** What a run has recorded is never rewritten. */
  lemma {:induction false} RecordsOnlyGrow(mode: TpMode, news: News, d: Data, n: nat, m: nat)
    requires SortedData(d) && n <= m <= |d.oneM.bars|
    ensures After(mode, news, d, n).closed <= After(mode, news, d, m).closed
    ensures After(mode, news, d, n).equity <= After(mode, news, d, m).equity
  {
    hide Decision, ViewAt;
    if n < m {
      RecordsOnlyGrow(mode, news, d, n, m - 1);
      OneDecisionGrows(mode, news, After(mode, news, d, m - 1), d, m - 1);
    }
  }

  lemma OneDecisionGrows(mode: TpMode, news: News, s: Run, d: Data, idx: nat)
    requires SortedData(d) && idx < |d.oneM.bars|
    ensures s.closed <= DecisionAt(mode, news, s, d, idx).closed
    ensures s.equity <= DecisionAt(mode, news, s, d, idx).equity
  {
    hide DecisionAt, AfterManagement;
    RestOfDecision(mode, news, s, d, idx);
    ManagementGrows(s, d.oneM.bars[idx], idx);
  }

  lemma ManagementGrows(s: Run, b: GoldBar, idx: nat)
    ensures var m := AfterManagement(s, b, idx); s.closed <= m.closed && s.equity == m.equity
  {
    hide Managed, NetPnl;
  }

  /** The result of the whole backtest. */
  function Outcome(mode: TpMode, news: News, d: Data): Run
    requires SortedData(d)
  {
    Finished(After(mode, news, d, |d.oneM.bars|), d)
  }

  /**
   * The run is causal. Whatever two sorted data sets hold beyond `horizon`, every state up to it is the same: balance,
   * detector memory, pending signal, open trade, closes and equity samples. So a run on data cut at `horizon` is a
   * prefix of the full run, apart from the close of a trade that is still open at the cut.
   */
  lemma Causality(mode: TpMode, news: News, d: Data, horizon: int)
    requires SortedData(d)
    ensures var cut := Data(Slice(d.oneM, horizon), Slice(d.fiveM, horizon), Slice(d.fifteenM, horizon));
      && SortedData(cut)
      && var n := |cut.oneM.bars|;
         && After(mode, news, cut, n) == After(mode, news, d, n)
         && After(mode, news, cut, n).closed <= Outcome(mode, news, d).closed
         && Outcome(mode, news, cut).equity <= Outcome(mode, news, d).equity
         && (Outcome(mode, news, cut).closed == After(mode, news, d, n).closed
             || (&& After(mode, news, d, n).open.Some?
                 && Outcome(mode, news, cut).closed != []
                 && Front(Outcome(mode, news, cut).closed) == After(mode, news, d, n).closed
                 && Last(Outcome(mode, news, cut).closed).exit.reason == DataEnd))
  {
    hide After, SortedData;
    TruncationAgrees(d, horizon);
    var cut := Data(Slice(d.oneM, horizon), Slice(d.fiveM, horizon), Slice(d.fifteenM, horizon));
    var n := |cut.oneM.bars|;
    DecisionsAgree(mode, news, d, cut, horizon, n);
    RecordsOnlyGrow(mode, news, d, n, |d.oneM.bars|);
  }

  // ------------------------------------------------------------------ the order of trades

  /** 1M bars last a minute and do not overlap; gaps are allowed. */
  ghost predicate Spaced(d: Data) {
    && d.oneM.barMs == MINUTE_MS
    && forall i, j :: 0 <= i < j < |d.oneM.bars| ==> TimeAt(d, i) + MINUTE_MS <= TimeAt(d, j)
  }

  ghost predicate OpenedAtBar(d: Data, ot: OpenTrade, n: nat)
    requires n <= |d.oneM.bars|
  {
    0 < ot.entryIdx < n && ot.entryTime == TimeAt(d, ot.entryIdx)
  }

  ghost predicate ClosedAtBar(d: Data, c: ClosedTrade, n: nat)
    requires n <= |d.oneM.bars|
  {
    && OpenedAtBar(d, c.trade, n)
    && c.trade.entryIdx < c.exitIdx < n && c.exitTime == TimeAt(d, c.exitIdx)
  }

  /** Trades follow one another: each is opened on a bar after the one the previous trade left on. */
  ghost predicate OneAtATime(d: Data, s: Run, n: nat)
    requires n <= |d.oneM.bars|
  {
    && (forall i :: 0 <= i < |s.closed| ==> ClosedAtBar(d, s.closed[i], n))
    && (forall i :: 0 < i < |s.closed| ==> s.closed[i - 1].exitIdx < s.closed[i].trade.entryIdx)
    && (n == 0 ==> s.pending.None?)
    && (s.open.Some? ==>
          && s.pending.None? && OpenedAtBar(d, s.open.value, n)
          && (s.closed != [] ==> Last(s.closed).exitIdx < s.open.value.entryIdx))
  }

  lemma ManagementKeepsOrder(d: Data, s: Run, n: nat)
    requires n < |d.oneM.bars| && OneAtATime(d, s, n)
    ensures var m := AfterManagement(s, d.oneM.bars[n], n);
      && OneAtATime(d, m, n + 1) && m.pending == s.pending
      && (m.pending.Some? ==> m == s && forall i :: 0 <= i < |m.closed| ==> m.closed[i].exitIdx < n)
  {
  }

  lemma DecisionKeepsOrder(mode: TpMode, news: News, s: Run, d: Data, n: nat)
    requires SortedData(d) && n < |d.oneM.bars| && OneAtATime(d, s, n)
    ensures OneAtATime(d, DecisionAt(mode, news, s, d, n), n + 1)
  {
    hide DecisionAt, AfterManagement;
    ManagementKeepsOrder(d, s, n);
    RestOfDecision(mode, news, s, d, n);
  }

  lemma {:induction false} TradesDoNotOverlap(mode: TpMode, news: News, d: Data, n: nat)
    requires SortedData(d) && n <= |d.oneM.bars|
    ensures OneAtATime(d, After(mode, news, d, n), n)
  {
    hide Decision, ViewAt;
    if n > 0 {
      TradesDoNotOverlap(mode, news, d, n - 1);
      DecisionKeepsOrder(mode, news, After(mode, news, d, n - 1), d, n - 1);
    }
  }

  /** Every exit during the run comes at least a minute after the entry. */
  lemma MinimumHold(mode: TpMode, news: News, d: Data, n: nat, i: nat)
    requires SortedData(d) && Spaced(d) && n <= |d.oneM.bars| && i < |After(mode, news, d, n).closed|
    ensures var c := After(mode, news, d, n).closed[i]; c.exitTime >= c.trade.entryTime + MINUTE_MS
  {
    TradesDoNotOverlap(mode, news, d, n);
    var c := After(mode, news, d, n).closed[i];
    assert ClosedAtBar(d, c, n);
  }

  // ------------------------------------------------------------------ the books

  function Pnls(closed: seq<ClosedTrade>): seq<real> {
    seq(|closed|, i requires 0 <= i < |closed| => closed[i].pnlUsd)
  }

  /** Each recorded balance is the initial balance plus the P&L up to and including that trade. */
  ghost predicate PrefixBalances(closed: seq<ClosedTrade>) {
    forall i :: 0 <= i < |closed| ==> closed[i].balanceAfter == INITIAL_BALANCE + Sum(Pnls(closed[..i + 1]))
  }

  ghost predicate BooksBalance(d: Data, s: Run, n: nat)
    requires n <= |d.oneM.bars|
  {
    && s.balance == INITIAL_BALANCE + Sum(Pnls(s.closed))
    && PrefixBalances(s.closed)
    && |s.equity| == n
    && (n > 0 ==> Last(s.equity) == (TimeAt(d, n - 1), s.balance))
  }

  lemma BookedBalances(s: Run, ot: OpenTrade, idx: nat, time: int, e: Exit)
    requires s.balance == INITIAL_BALANCE + Sum(Pnls(s.closed))
    requires PrefixBalances(s.closed)
    ensures var b := Booked(s, ot, idx, time, e);
      && b.balance == INITIAL_BALANCE + Sum(Pnls(b.closed))
      && PrefixBalances(b.closed)
  {
    var b := Booked(s, ot, idx, time, e);
    assert Pnls(b.closed) == Pnls(s.closed) + [NetPnl(ot, e.price)];
    SumOfAppend(Pnls(s.closed), NetPnl(ot, e.price));
    forall i | 0 <= i < |b.closed|
      ensures b.closed[i].balanceAfter == INITIAL_BALANCE + Sum(Pnls(b.closed[..i + 1]))
    {
      if i < |s.closed| {
        assert b.closed[..i + 1] == s.closed[..i + 1];
      } else {
        assert b.closed[..i + 1] == b.closed;
      }
    }
  }

  lemma ManagementKeepsBooks(s: Run, b: GoldBar, idx: nat)
    requires s.balance == INITIAL_BALANCE + Sum(Pnls(s.closed))
    requires PrefixBalances(s.closed)
    ensures var m := AfterManagement(s, b, idx);
      && m.balance == INITIAL_BALANCE + Sum(Pnls(m.closed)) && m.equity == s.equity
      && PrefixBalances(m.closed)
  {
    if s.open.Some? && Managed(s.open.value, b, idx).Some? {
      BookedBalances(s, s.open.value, idx, b.time, Managed(s.open.value, b, idx).value);
    }
  }

  /** The balance is the initial balance plus all P&L, at the end and after every single trade. */
  lemma {:induction false} LedgerBalances(mode: TpMode, news: News, d: Data, n: nat)
    requires SortedData(d) && n <= |d.oneM.bars|
    ensures BooksBalance(d, After(mode, news, d, n), n)
  {
    hide DecisionAt, AfterManagement;
    if n > 0 {
      LedgerBalances(mode, news, d, n - 1);
      var s := After(mode, news, d, n - 1);
      ManagementKeepsBooks(s, d.oneM.bars[n - 1], n - 1);
      RestOfDecision(mode, news, s, d, n - 1);
    }
  }

  /** Although entries are sized from the last equity sample, that sample is the running balance at every fill. */
  lemma SizingUsesRunningBalance(mode: TpMode, news: News, d: Data, n: nat)
    requires SortedData(d) && n < |d.oneM.bars|
    ensures var s := After(mode, news, d, n);
      s.pending.Some? ==> AfterManagement(s, d.oneM.bars[n], n) == s && SizingBalance(s) == s.balance
  {
    LedgerBalances(mode, news, d, n);
    TradesDoNotOverlap(mode, news, d, n);
    if n == 0 { assert After(mode, news, d, n) == FRESH_RUN; }
  }

  // ------------------------------------------------------------------ the daily cap

  /** Entry times of all trades so far, the open one last. */
  function Entries(s: Run): seq<int> {
    seq(|s.closed|, i requires 0 <= i < |s.closed| => s.closed[i].trade.entryTime)
    + if s.open.Some? then [s.open.value.entryTime] else []
  }

  function CountOn(times: seq<int>, day: int): nat {
    if times == [] then 0 else CountOn(Front(times), day) + if DateKey(Last(times)) == day then 1 else 0
  }

  lemma {:induction false} NoneAfter(times: seq<int>, day: int)
    requires forall t :: t in times ==> DateKey(t) < day
    ensures CountOn(times, day) == 0
  {
    if times != [] { NoneAfter(Front(times), day); }
  }

  ghost predicate CapHolds(d: Data, s: Run, n: nat)
    requires n <= |d.oneM.bars|
  {
    && (n == 0 ==> Entries(s) == [])
    && (n > 0 ==> s.sodDay == DateKey(TimeAt(d, n - 1)) && s.dailyCount == CountOn(Entries(s), s.sodDay))
    && (forall t :: t in Entries(s) ==> n > 0 && DateKey(t) <= s.sodDay)
    && (forall day :: CountOn(Entries(s), day) <= 3)
  }

  lemma ManagementKeepsEntries(s: Run, b: GoldBar, idx: nat)
    ensures var m := AfterManagement(s, b, idx);
      && Entries(m) == Entries(s) && m.dailyCount == s.dailyCount && m.sodDay == s.sodDay
      && m.totalHalted == s.totalHalted && m.dailyHalted == s.dailyHalted
  {
    var m := AfterManagement(s, b, idx);
    assert Entries(m) == Entries(s);
  }

  lemma RollKeepsCap(d: Data, s: Run, n: nat)
    requires SortedData(d) && n < |d.oneM.bars| && CapHolds(d, s, n)
    requires n == 0 ==> s.dailyCount == 0
    ensures var m := AfterDayRoll(AfterManagement(s, d.oneM.bars[n], n), d.oneM.bars[n]);
      && Entries(m) == Entries(s) && m.sodDay == DateKey(TimeAt(d, n))
      && m.dailyCount == CountOn(Entries(m), m.sodDay)
      && forall t :: t in Entries(m) ==> DateKey(t) <= m.sodDay
  {
    var b := d.oneM.bars[n];
    ManagementKeepsEntries(s, b, n);
    var day := DateKey(TimeAt(d, n));
    if n > 0 {
      assert TimeAt(d, n - 1) <= TimeAt(d, n);
      DateKeyIsMonotone(TimeAt(d, n - 1), TimeAt(d, n));
    }
    if day != s.sodDay { NoneAfter(Entries(s), day); }
  }

  lemma FillKeepsCap(s: Run, b: GoldBar, idx: nat)
    requires s.sodDay == DateKey(b.time) && s.dailyCount == CountOn(Entries(s), s.sodDay)
    requires forall t :: t in Entries(s) ==> DateKey(t) <= s.sodDay
    requires forall day :: CountOn(Entries(s), day) <= 3
    ensures var f := AfterFill(s, b, idx);
      && f.sodDay == s.sodDay && f.dailyCount == CountOn(Entries(f), f.sodDay)
      && (forall t :: t in Entries(f) ==> DateKey(t) <= f.sodDay)
      && (forall day :: CountOn(Entries(f), day) <= 3)
  {
    var f := AfterFill(s, b, idx);
    if Entries(f) != Entries(s) {
      assert Entries(f) == Entries(s) + [b.time];
      assert Front(Entries(f)) == Entries(s);
    }
  }

  lemma DecisionEntries(mode: TpMode, news: News, s: Run, d: Data, n: nat)
    requires SortedData(d) && n < |d.oneM.bars|
    ensures var b := d.oneM.bars[n];
      var m := AfterDayRoll(AfterManagement(s, b, n), b);
      var x := DecisionAt(mode, news, s, d, n);
      var f := if TotalDrawdown(m) then m else AfterFill(AfterDailyHalt(m), b, n);
      && x.closed == f.closed && x.open == f.open && x.dailyCount == f.dailyCount && x.sodDay == f.sodDay
      && Entries(x) == Entries(f)
  {
    hide Decide, ViewAt, AfterManagement, Filled;
  }

  lemma DecisionKeepsCap(mode: TpMode, news: News, s: Run, d: Data, n: nat)
    requires SortedData(d) && n < |d.oneM.bars| && CapHolds(d, s, n)
    requires n == 0 ==> s.dailyCount == 0
    ensures CapHolds(d, DecisionAt(mode, news, s, d, n), n + 1)
  {
    hide DecisionAt, AfterManagement, AfterFill;
    var b := d.oneM.bars[n];
    RollKeepsCap(d, s, n);
    DecisionEntries(mode, news, s, d, n);
    var m := AfterDayRoll(AfterManagement(s, b, n), b);
    assert Entries(AfterDailyHalt(m)) == Entries(m);
    FillKeepsCap(AfterDailyHalt(m), b, n);
  }

  /** No UTC day sees more than three fills. */
  lemma {:induction false} DailyCap(mode: TpMode, news: News, d: Data, n: nat)
    requires SortedData(d) && n <= |d.oneM.bars|
    ensures CapHolds(d, After(mode, news, d, n), n)
  {
    hide Decision, ViewAt;
    if n == 0 {
      assert Entries(FRESH_RUN) == [];
    } else {
      DailyCap(mode, news, d, n - 1);
      DecisionKeepsCap(mode, news, After(mode, news, d, n - 1), d, n - 1);
    }
  }

  // ------------------------------------------------------------------ the cooldown

  predicate Loss(c: ClosedTrade) {
    c.pnlUsd <= 0.0
  }

  /** The UTC day the run was counting when this trade left: that of the bar before the exit bar. */
  function CountedDay(d: Data, c: ClosedTrade): int
    requires 0 < c.exitIdx <= |d.oneM.bars|
  {
    DateKey(TimeAt(d, c.exitIdx - 1))
  }

  ghost predicate ExitsOnBars(d: Data, closed: seq<ClosedTrade>) {
    forall i :: 0 <= i < |closed| ==> 0 < closed[i].exitIdx < |d.oneM.bars|
  }

  /** Minutes to wait after trade `i`: none after a win, longer after the second loss in a row counted on one day. */
  function WaitAfter(d: Data, closed: seq<ClosedTrade>, i: nat): int
    requires i < |closed| && ExitsOnBars(d, closed)
  {
    if !Loss(closed[i]) then 0
    else if i > 0 && Loss(closed[i - 1]) && CountedDay(d, closed[i - 1]) == CountedDay(d, closed[i]) then 60
    else 30
  }

  ghost predicate WaitsRespected(d: Data, closed: seq<ClosedTrade>)
    requires ExitsOnBars(d, closed)
  {
    forall i :: 0 < i < |closed| ==>
      closed[i].trade.entryTime >= closed[i - 1].exitTime + WaitAfter(d, closed, i - 1) * MINUTE_MS
  }

  /** The cooldown is exactly the wait the last trade calls for; entries and pending signals come after it. */
  ghost predicate CooldownHolds(d: Data, s: Run, n: nat)
    requires n <= |d.oneM.bars|
  {
    && ExitsOnBars(d, s.closed) && WaitsRespected(d, s.closed)
    && (s.closed == [] ==> s.cooldownUntil.None? && s.lossStreak == 0)
    && (s.closed != [] ==>
          var last := Last(s.closed);
          if Loss(last) then
            && s.cooldownUntil == Some(last.exitTime + WaitAfter(d, s.closed, |s.closed| - 1) * MINUTE_MS)
            && (s.lossStreak >= 1 <==> CountedDay(d, last) == s.sodDay)
          else s.cooldownUntil.None? && s.lossStreak == 0)
    && (s.cooldownUntil.Some? && s.open.Some? ==> s.open.value.entryTime >= s.cooldownUntil.value)
    && (s.cooldownUntil.Some? && s.pending.Some? ==> n > 0 && CloseTime(d.oneM, n - 1) >= s.cooldownUntil.value)
    && (n > 0 ==> s.sodDay == DateKey(TimeAt(d, n - 1)))
  }

  lemma WaitsExtend(d: Data, closed: seq<ClosedTrade>, c: ClosedTrade)
    requires ExitsOnBars(d, closed) && WaitsRespected(d, closed) && 0 < c.exitIdx < |d.oneM.bars|
    requires closed != [] ==>
      c.trade.entryTime >= Last(closed).exitTime + WaitAfter(d, closed, |closed| - 1) * MINUTE_MS
    ensures ExitsOnBars(d, closed + [c]) && WaitsRespected(d, closed + [c])
  {
    var all := closed + [c];
    forall i | 0 < i < |all|
      ensures all[i].trade.entryTime >= all[i - 1].exitTime + WaitAfter(d, all, i - 1) * MINUTE_MS
    {
      assert WaitAfter(d, all, i - 1) == WaitAfter(d, closed, i - 1);
      if i < |closed| { assert all[i] == closed[i]; }
    }
  }

  /** The open trade was entered after the wait the last closed one called for. */
  lemma OpenTradeWaited(d: Data, s: Run, n: nat)
    requires SortedData(d) && n <= |d.oneM.bars| && OneAtATime(d, s, n) && CooldownHolds(d, s, n)
    requires s.open.Some? && s.closed != []
    ensures s.open.value.entryTime >= Last(s.closed).exitTime + WaitAfter(d, s.closed, |s.closed| - 1) * MINUTE_MS
  {
    var last := Last(s.closed);
    assert ClosedAtBar(d, last, n);
    assert TimeAt(d, last.exitIdx) <= TimeAt(d, s.open.value.entryIdx);
  }

  lemma ManagementKeepsCooldown(d: Data, s: Run, n: nat)
    requires SortedData(d) && n < |d.oneM.bars| && OneAtATime(d, s, n) && CooldownHolds(d, s, n)
    ensures CooldownHolds(d, AfterManagement(s, d.oneM.bars[n], n), n)
  {
    hide WaitAfter, WaitsRespected, CountedDay, Managed, NetPnl, DateKey;
    var b := d.oneM.bars[n];
    if s.open.Some? && Managed(s.open.value, b, n).Some? {
      BookingSetsCooldown(d, s, n, Managed(s.open.value, b, n).value);
    }
  }

  lemma BookingSetsCooldown(d: Data, s: Run, n: nat, e: Exit)
    requires SortedData(d) && n < |d.oneM.bars| && OneAtATime(d, s, n) && CooldownHolds(d, s, n) && s.open.Some?
    ensures var b := d.oneM.bars[n];
      var m := Booked(s, s.open.value, n, b.time, e);
      && ExitsOnBars(d, m.closed) && WaitsRespected(d, m.closed)
      && (if Loss(Last(m.closed)) then
            && m.lossStreak >= 1
            && m.cooldownUntil == Some(b.time + WaitAfter(d, m.closed, |m.closed| - 1) * MINUTE_MS)
          else m.cooldownUntil.None? && m.lossStreak == 0)
      && CountedDay(d, Last(m.closed)) == s.sodDay
  {
    hide NetPnl, DateKey, WaitsRespected;
    var b := d.oneM.bars[n];
    var m := Booked(s, s.open.value, n, b.time, e);
    var c := Last(m.closed);
    assert m.closed == s.closed + [c];
    BookedExitWaits(d, s, n, e);
    if s.closed != [] { assert m.closed[|m.closed| - 2] == Last(s.closed); }
  }

  lemma BookedExitWaits(d: Data, s: Run, n: nat, e: Exit)
    requires SortedData(d) && n < |d.oneM.bars| && OneAtATime(d, s, n) && CooldownHolds(d, s, n) && s.open.Some?
    ensures var m := Booked(s, s.open.value, n, d.oneM.bars[n].time, e);
      && m.closed == s.closed + [Last(m.closed)]
      && ExitsOnBars(d, m.closed) && WaitsRespected(d, m.closed)
      && Last(m.closed).exitIdx == n > 0 && CountedDay(d, Last(m.closed)) == s.sodDay
  {
    hide NetPnl, DateKey, WaitsRespected, WaitAfter;
    var m := Booked(s, s.open.value, n, d.oneM.bars[n].time, e);
    if s.closed != [] { OpenTradeWaited(d, s, n); }
    WaitsExtend(d, s.closed, Last(m.closed));
  }

  /** A day that changes at this bar is later than the day any earlier exit was counted on. */
  lemma CountedDayIsPast(d: Data, c: ClosedTrade, n: nat)
    requires SortedData(d) && 0 < c.exitIdx <= n < |d.oneM.bars|
    requires CountedDay(d, c) == DateKey(TimeAt(d, n))
    ensures CountedDay(d, c) == DateKey(TimeAt(d, n - 1))
  {
    assert TimeAt(d, c.exitIdx - 1) <= TimeAt(d, n - 1) <= TimeAt(d, n);
    DateKeyIsMonotone(TimeAt(d, c.exitIdx - 1), TimeAt(d, n - 1));
    DateKeyIsMonotone(TimeAt(d, n - 1), TimeAt(d, n));
  }

  lemma RestKeepsCooldown(d: Data, m: Run, x: Run, n: nat)
    requires SortedData(d) && Spaced(d) && n < |d.oneM.bars|
    requires CooldownHolds(d, m, n) && AfterBooking(d, m, x, n)
    requires m.closed != [] ==> Last(m.closed).exitIdx <= n
    ensures CooldownHolds(d, x, n + 1)
  {
    hide WaitAfter, WaitsRespected, CountedDay, DateKey;
    if m.closed != [] && CountedDay(d, Last(m.closed)) == DateKey(TimeAt(d, n)) {
      CountedDayIsPast(d, Last(m.closed), n);
    }
    if n > 0 { assert CloseTime(d.oneM, n - 1) <= TimeAt(d, n); }
  }

  lemma DecisionKeepsCooldown(mode: TpMode, news: News, s: Run, d: Data, n: nat)
    requires SortedData(d) && Spaced(d) && n < |d.oneM.bars| && OneAtATime(d, s, n) && CooldownHolds(d, s, n)
    ensures CooldownHolds(d, DecisionAt(mode, news, s, d, n), n + 1)
  {
    hide DecisionAt, AfterManagement, CooldownHolds;
    ManagementKeepsOrder(d, s, n);
    ManagementKeepsCooldown(d, s, n);
    RestOfDecision(mode, news, s, d, n);
    RestKeepsCooldown(d, AfterManagement(s, d.oneM.bars[n], n), DecisionAt(mode, news, s, d, n), n);
  }

  /**
   * After a losing trade the next entry waits at least 30 minutes from the exit, and at least 60 when it was the second
   * loss in a row counted on one day; the cooldown timer is exactly that wait.
   */
  lemma {:induction false} CooldownRespected(mode: TpMode, news: News, d: Data, n: nat)
    requires SortedData(d) && Spaced(d) && n <= |d.oneM.bars|
    ensures CooldownHolds(d, After(mode, news, d, n), n)
  {
    hide DecisionAt, ViewAt, OneAtATime;
    if n == 0 {
    } else {
      CooldownRespected(mode, news, d, n - 1);
      TradesDoNotOverlap(mode, news, d, n - 1);
      DecisionKeepsCooldown(mode, news, After(mode, news, d, n - 1), d, n - 1);
    }
  }

  /**
   * The day that matters is the one before the exit bar's own roll: a loss booked on the first bar of a UTC day is
   * forgotten at once, so the next loss of that same day gets the short cooldown.
   */
  lemma LossOnFirstBarOfDayIsForgotten(s: Run, b: GoldBar, idx: nat)
    requires s.open.Some? && Managed(s.open.value, b, idx).Some? && DateKey(b.time) != s.sodDay
    requires NetPnl(s.open.value, Managed(s.open.value, b, idx).value.price) <= 0.0
    ensures var r := AfterDayRoll(AfterManagement(s, b, idx), b);
      && r.sodDay == DateKey(b.time) == DateKey(Last(r.closed).exitTime)
      && Loss(Last(r.closed)) && r.lossStreak == 0
  {
  }

  // ------------------------------------------------------------------ the total halt

  /** Once the total drawdown has halted the run, it stays halted and no trade is ever entered again. */
  lemma {:induction false} TotalHaltIsFinal(mode: TpMode, news: News, d: Data, n: nat, m: nat)
    requires SortedData(d) && n <= m <= |d.oneM.bars| && After(mode, news, d, n).totalHalted
    ensures After(mode, news, d, m).totalHalted
    ensures Entries(After(mode, news, d, m)) == Entries(After(mode, news, d, n))
  {
    hide Decision, ViewAt;
    if n < m {
      TotalHaltIsFinal(mode, news, d, n, m - 1);
      HaltedDecision(mode, news, After(mode, news, d, m - 1), d, m - 1);
    }
  }

  lemma HaltedDecision(mode: TpMode, news: News, s: Run, d: Data, n: nat)
    requires SortedData(d) && n < |d.oneM.bars| && s.totalHalted
    ensures var x := DecisionAt(mode, news, s, d, n); x.totalHalted && Entries(x) == Entries(s)
  {
    hide Decide, ViewAt, Filled, AfterManagement;
    var b := d.oneM.bars[n];
    ManagementKeepsEntries(s, b, n);
    var x, m := DecisionAt(mode, news, s, d, n), AfterDayRoll(AfterManagement(s, b, n), b);
    assert x.closed == m.closed && x.open == m.open;
  }

  /** What the finished result satisfies. */
  ghost predicate Disciplined(d: Data, r: Run) {
    && r.open.None?
    && (forall day :: CountOn(Entries(r), day) <= 3)
    && ExitsOnBars(d, r.closed) && WaitsRespected(d, r.closed)
    && r.balance == INITIAL_BALANCE + Sum(Pnls(r.closed))
    && PrefixBalances(r.closed)
    && (forall i :: 0 < i < |r.closed| ==> r.closed[i - 1].exitIdx < r.closed[i].trade.entryIdx)
    && (forall i :: 0 <= i < |r.closed| ==>
          (r.closed[i].exit.reason == DataEnd && i == |r.closed| - 1)
          || r.closed[i].exitTime >= r.closed[i].trade.entryTime + MINUTE_MS)
  }

  /**
   * The discipline of the finished backtest, the trade closed at the end of the data included: at most three entries
   * per UTC day, one trade at a time, cooldowns respected, a minute's hold unless the data end, and a balance that is
   * the initial balance plus the sum of all P&L, at the end and after every trade.
   */
  lemma FinishedDiscipline(mode: TpMode, news: News, d: Data)
    requires SortedData(d) && Spaced(d)
    ensures Disciplined(d, Outcome(mode, news, d))
  {
    hide After, Finished, Disciplined;
    var n := |d.oneM.bars|;
    DailyCap(mode, news, d, n);
    CooldownRespected(mode, news, d, n);
    LedgerBalances(mode, news, d, n);
    TradesDoNotOverlap(mode, news, d, n);
    FinishKeepsDiscipline(d, After(mode, news, d, n));
  }

  lemma FinishKeepsDiscipline(d: Data, s: Run)
    requires SortedData(d) && Spaced(d)
    requires OneAtATime(d, s, |d.oneM.bars|) && CooldownHolds(d, s, |d.oneM.bars|)
    requires BooksBalance(d, s, |d.oneM.bars|) && CapHolds(d, s, |d.oneM.bars|)
    ensures Disciplined(d, Finished(s, d))
  {
    hide Booked, WaitsRespected, PrefixBalances, CountOn;
    forall i | 0 <= i < |s.closed|
      ensures s.closed[i].exitTime >= s.closed[i].trade.entryTime + MINUTE_MS
    {
      assert ClosedAtBar(d, s.closed[i], |d.oneM.bars|);
    }
    if s.open.Some? {
      FinalCloseKeepsWaits(d, s);
      FinalCloseKeepsBooks(d, s);
    }
  }

  lemma FinalCloseKeepsWaits(d: Data, s: Run)
    requires SortedData(d) && d.oneM.bars != [] && s.open.Some?
    requires OneAtATime(d, s, |d.oneM.bars|) && CooldownHolds(d, s, |d.oneM.bars|)
    ensures var r := Finished(s, d);
      && ExitsOnBars(d, r.closed) && WaitsRespected(d, r.closed)
      && (forall i :: 0 < i < |r.closed| ==> r.closed[i - 1].exitIdx < r.closed[i].trade.entryIdx)
  {
    hide WaitAfter, NetPnl;
    var r := Finished(s, d);
    if s.closed != [] { OpenTradeWaited(d, s, |d.oneM.bars|); }
    assert r.closed == s.closed + [Last(r.closed)];
    WaitsExtend(d, s.closed, Last(r.closed));
  }

  lemma FinalCloseKeepsBooks(d: Data, s: Run)
    requires d.oneM.bars != [] && s.open.Some? && BooksBalance(d, s, |d.oneM.bars|)
    ensures var r := Finished(s, d);
      && r.open.None? && Entries(r) == Entries(s)
      && r.balance == INITIAL_BALANCE + Sum(Pnls(r.closed)) && PrefixBalances(r.closed)
      && r.closed != [] && Front(r.closed) == s.closed && Last(r.closed).exit.reason == DataEnd
  {
    hide NetPnl, PrefixBalances, Pnls, Sum;
    var last := |d.oneM.bars| - 1;
    BookedBalances(s, s.open.value, last, d.oneM.bars[last].time, DataEndExit(s.open.value, d.oneM.bars[last]));
    assert Entries(Finished(s, d)) == Entries(s);
  }
}
