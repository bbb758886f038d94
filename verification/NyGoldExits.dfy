/**
 * How the trades of a NY Gold backtest begin and end: every trade of a finished run is explained by the 1M bars, with
 * prices, minutes and the side of the spread written out here.
 */
module NyGoldExits {
  import opened Clock
  import opened Common
  import opened NyGoldBacktest
  import opened NyGoldData
  import opened NyGoldDetector
  import opened NyGoldKeys
  import opened NyGoldRun
  import opened RealFacts

  // ------------------------------------------------------------------ the bars

  /** The UTC minute of the day, 0 to 1439. */
  function MinuteOfDay(time: int): int {
    time / 60_000 % 1440
  }

  lemma MinuteOfDayIs(time: int)
    ensures MinuteOfDay(time) == Hour(time) * 60 + Minute(time)
    ensures 0 <= Minute(time) < 60 && 0 <= Second(time) < 60
  {
    assert time / 3_600_000 == time / 60_000 / 60;
  }

  /** Half the spread of a bar, in price; 45 points when the feed has none. */
  function Half(b: GoldBar): real {
    if b.spread.Some? && b.spread.value > 0.0 then b.spread.value / 200.0 else 0.225
  }

  /** A long leaves at the bid, a short at the ask. */
  function OutAt(dir: Direction, price: real, b: GoldBar): real {
    match dir
    case Buy => price - Half(b)
    case Sell => price + Half(b)
  }

  predicate Stops(dir: Direction, sl: real, b: GoldBar) {
    match dir
    case Buy => b.low - Half(b) <= sl
    case Sell => b.high + Half(b) >= sl
  }

  predicate Wins(dir: Direction, tp: real, b: GoldBar) {
    match dir
    case Buy => b.high - Half(b) >= tp
    case Sell => b.low + Half(b) <= tp
  }

  /** Neither the session end, nor the time stop, nor either price ends the trade on this bar. */
  predicate Quiet(t: OpenTrade, b: GoldBar) {
    && MinuteOfDay(b.time) < 17 * 60 && b.time < t.entryTime + 45 * 60_000
    && !Stops(t.dir, t.sl, b) && !Wins(t.dir, t.tp, b)
  }

  /** This bar ends the trade: at 17:00, after 45 minutes, at the stop or, failing all that, at the target. */
  predicate Ends(t: OpenTrade, b: GoldBar, e: Exit) {
    if MinuteOfDay(b.time) >= 17 * 60 then e == Exit(OutAt(t.dir, b.open, b), SessionFlatten)
    else if b.time >= t.entryTime + 45 * 60_000 then e == Exit(OutAt(t.dir, b.open, b), TimeStop)
    else if Stops(t.dir, t.sl, b) then e == Exit(t.sl, SlHit)
    else Wins(t.dir, t.tp, b) && e == Exit(t.tp, TpHit)
  }

  /** What the entry bar leaves to the next bar to do. */
  predicate Defers(t: OpenTrade, b: GoldBar, e: Option<Exit>) {
    if Stops(t.dir, t.sl, b) then e == Some(Exit(t.sl, SlMinHold))
    else if Wins(t.dir, t.tp, b) then e == Some(Exit(t.tp, TpMinHold))
    else e == None
  }

  lemma SpreadSides(dir: Direction, b: GoldBar)
    ensures HalfSpread(b.spread) == Half(b)
    ensures ExitSide(dir, b.open, b.spread) == OutAt(dir, b.open, b)
  {
  }

  lemma HitsAre(t: OpenTrade, b: GoldBar)
    ensures StopHit(t, b) == Stops(t.dir, t.sl, b) && TargetHit(t, b) == Wins(t.dir, t.tp, b)
  {
    SpreadSides(t.dir, b);
  }

  /** Position management keeps the trade on a quiet bar and ends it on any other. */
  lemma ManagedEnds(t: OpenTrade, b: GoldBar, idx: nat)
    requires idx > t.entryIdx && t.deferred.None?
    ensures var e := Managed(t, b, idx); if Quiet(t, b) then e.None? else e.Some? && Ends(t, b, e.value)
  {
    hide StopHit, TargetHit, Stops, Wins, MinuteOfDay, Hour, ExitSide, OutAt;
    MinuteOfDayIs(b.time);
    SpreadSides(t.dir, b);
    HitsAre(t, b);
  }

  // ------------------------------------------------------------------ how a trade begins

  /** The signal was given at the close of bar `i`, between 12:01 and 16:54 and outside the news. */
  predicate GivenAt(d: Data, news: News, s: Signal, i: nat)
    requires i < |d.oneM.bars|
  {
    && s.barTime == CloseTime(d.oneM, i) && !news(s.barTime)
    && 12 * 60 + 1 <= MinuteOfDay(TimeAt(d, i)) < 16 * 60 + 55
  }

  /** The trade follows its signal: filled at the open of the very next bar, half the spread and 0.2 worse. */
  predicate Begins(d: Data, news: News, t: OpenTrade) {
    && 0 < t.entryIdx < |d.oneM.bars| && GivenAt(d, news, t.signal, t.entryIdx - 1)
    && t.dir == t.signal.dir && t.sl == t.signal.sl && t.tp == t.signal.tp
    && var b := d.oneM.bars[t.entryIdx];
       && t.entryTime == b.time && Defers(t, b, t.deferred)
       && match t.dir
          case Buy => t.entryPrice == b.open + Half(b) + 0.2 && t.riskPips == t.entryPrice - t.sl >= 0.3
          case Sell => t.entryPrice == b.open - Half(b) - 0.2 && t.riskPips == t.sl - t.entryPrice >= 0.3
  }

  /** 0.5 percent of this balance is put at risk, rounded down to hundredths of a lot, and 0.01 to 50 lots. */
  predicate Stakes(t: OpenTrade, balance: real) {
    && t.riskUsd == balance * 0.005 && 0.01 <= t.lot <= 50.0
    && (t.lot > 0.01 ==> t.lot * (t.riskPips * 100.0) <= t.riskUsd + 0.00000000001 * (t.riskPips * 100.0))
    && (t.lot < 50.0 ==> t.lot * (t.riskPips * 100.0) > t.riskUsd - 0.01 * (t.riskPips * 100.0))
  }

  lemma LotFits(riskUsd: real, perLot: real)
    requires perLot > 0.0
    ensures var lot := RoundLot(riskUsd / perLot);
      && 0.01 <= lot <= 50.0
      && (lot > 0.01 ==> lot * perLot <= riskUsd + 0.00000000001 * perLot)
      && (lot < 50.0 ==> lot * perLot > riskUsd - 0.01 * perLot)
  {
    var raw, lot := riskUsd / perLot, RoundLot(riskUsd / perLot);
    var whole := (raw / 0.01 + 0.000000001).Floor as real;
    assert whole * 0.01 <= raw + 0.00000000001 && whole * 0.01 > raw - 0.01;
    assert raw * perLot == riskUsd;
    if lot > 0.01 { Scales(raw + 0.00000000001, lot, perLot); }
    if lot < 50.0 { SignOfProduct(lot - raw + 0.01, perLot, lot * perLot - riskUsd + 0.01 * perLot); }
  }

  lemma FillBegins(d: Data, news: News, sig: Signal, idx: nat, balance: real)
    requires 0 < idx < |d.oneM.bars| && GivenAt(d, news, sig, idx - 1)
    ensures var t := Filled(sig, d.oneM.bars[idx], idx, balance);
      t.Some? ==> Begins(d, news, t.value) && Stakes(t.value, balance) && t.value.entryIdx == idx
  {
    hide RoundLot, GivenAt;
    var b := d.oneM.bars[idx];
    SpreadSides(sig.dir, b);
    var entry := EntryPrice(sig.dir, b);
    var riskPips := Gain(sig.dir, sig.sl, entry) / PIP_SIZE;
    if riskPips >= MIN_RISK_PIPS { LotFits(balance * RISK_PCT / 100.0, riskPips * USD_PER_PIP_PER_LOT); }
  }

  // ------------------------------------------------------------------ how a trade ends

  /** Up to bar `n` nothing has ended the trade. */
  ghost predicate Lasts(d: Data, t: OpenTrade, n: nat)
    requires n <= |d.oneM.bars|
  {
    && t.entryIdx < n && (t.deferred.Some? ==> n == t.entryIdx + 1)
    && forall j :: t.entryIdx < j < n ==> Quiet(t, d.oneM.bars[j])
  }

  /**
   * The trade ended when the bars said so: on the bar after the entry if the entry bar had reached a price, otherwise
   * on the first bar that is not quiet, or with the data.
   */
  ghost predicate Explained(d: Data, c: ClosedTrade) {
    && c.trade.entryIdx <= c.exitIdx < |d.oneM.bars| && c.exitTime == TimeAt(d, c.exitIdx)
    && var b := d.oneM.bars[c.exitIdx];
       if c.exit.reason == DataEnd then
         && c.exitIdx == |d.oneM.bars| - 1 && Lasts(d, c.trade, |d.oneM.bars|)
         && c.exit.price == OutAt(c.trade.dir, b.open, b)
       else
         && Lasts(d, c.trade, c.exitIdx)
         && if c.trade.deferred.Some? then c.exit == c.trade.deferred.value else Ends(c.trade, b, c.exit)
  }

  /** The balance after a number of trades. */
  function BalanceAfter(closed: seq<ClosedTrade>): real {
    if closed == [] then 100_000.0 else Last(closed).balanceAfter
  }

  ghost predicate TradeTold(d: Data, news: News, closed: seq<ClosedTrade>, i: nat)
    requires i < |closed|
  {
    Begins(d, news, closed[i].trade) && Stakes(closed[i].trade, BalanceAfter(closed[..i])) && Explained(d, closed[i])
  }

  ghost predicate AllTold(d: Data, news: News, closed: seq<ClosedTrade>) {
    forall i :: 0 <= i < |closed| ==> TradeTold(d, news, closed, i)
  }

  /** Past trades are told, the open one lasts up to bar `n`, and the pending signal was given just before bar `p`. */
  ghost predicate Told(d: Data, news: News, s: Run, n: nat, p: nat)
    requires n <= |d.oneM.bars| && p <= |d.oneM.bars|
  {
    && AllTold(d, news, s.closed) && s.balance == BalanceAfter(s.closed)
    && (s.open.Some? ==>
          && s.pending.None? && Begins(d, news, s.open.value) && Stakes(s.open.value, s.balance)
          && Lasts(d, s.open.value, n))
    && (s.pending.Some? ==>
          && SizingBalance(s) == s.balance && (!s.totalHalted ==> p > 0 && GivenAt(d, news, s.pending.value, p - 1)))
  }

  lemma OneMoreTold(d: Data, news: News, closed: seq<ClosedTrade>, c: ClosedTrade)
    requires AllTold(d, news, closed)
    requires Begins(d, news, c.trade) && Stakes(c.trade, BalanceAfter(closed)) && Explained(d, c)
    ensures AllTold(d, news, closed + [c])
  {
    hide Begins, Stakes, Explained, BalanceAfter;
    forall i | 0 <= i < |closed + [c]| ensures TradeTold(d, news, closed + [c], i) {
      assert i < |closed| ==> TradeTold(d, news, closed, i);
      assert (closed + [c])[..i] == closed[..i];
      assert closed[..|closed|] == closed;
    }
  }

  /** Booking a told exit. */
  lemma ExitTold(d: Data, news: News, s: Run, n: nat, idx: nat, e: Exit)
    requires n <= |d.oneM.bars| && idx < |d.oneM.bars| && Told(d, news, s, n, n) && s.open.Some?
    requires Explained(d, ClosedTrade(s.open.value, idx, TimeAt(d, idx), e, NetPnl(s.open.value, e.price),
                                      s.balance + NetPnl(s.open.value, e.price)))
    ensures var r := Booked(s, s.open.value, idx, TimeAt(d, idx), e);
      AllTold(d, news, r.closed) && r.balance == BalanceAfter(r.closed) && r.open.None? && r.pending.None?
  {
    hide Begins, Stakes, NetPnl, AllTold, GivenAt, Explained;
    var r := Booked(s, s.open.value, idx, TimeAt(d, idx), e);
    OneMoreTold(d, news, s.closed, Last(r.closed));
  }

  lemma ManagementTold(d: Data, news: News, s: Run, n: nat)
    requires n < |d.oneM.bars| && Told(d, news, s, n, n)
    ensures Told(d, news, AfterManagement(s, d.oneM.bars[n], n), n + 1, n)
  {
    hide Begins, Stakes, NetPnl, AllTold, GivenAt, Quiet, Ends, SizingBalance, BalanceAfter;
    if s.open.Some? {
      var t, b := s.open.value, d.oneM.bars[n];
      if t.deferred.None? { ManagedEnds(t, b, n); }
      var e := Managed(t, b, n);
      if e.Some? { ManagedExitIsExplained(d, news, s, n); }
    }
  }

  lemma ManagedExitIsExplained(d: Data, news: News, s: Run, n: nat)
    requires n < |d.oneM.bars| && Told(d, news, s, n, n) && s.open.Some?
    requires Managed(s.open.value, d.oneM.bars[n], n).Some?
    ensures Told(d, news, AfterManagement(s, d.oneM.bars[n], n), n + 1, n)
  {
    hide Stakes, NetPnl, AllTold, GivenAt, Quiet, Ends, SizingBalance, BalanceAfter, Stops, Wins;
    var t, b := s.open.value, d.oneM.bars[n];
    if t.deferred.None? { ManagedEnds(t, b, n); }
    var e := Managed(t, b, n).value;
    assert e.reason != DataEnd;
    ExitTold(d, news, s, n, n, e);
  }

  lemma FillTold(d: Data, news: News, s: Run, n: nat)
    requires n < |d.oneM.bars| && Told(d, news, s, n + 1, n)
    ensures var r := AfterFill(s, d.oneM.bars[n], n); Told(d, news, r, n + 1, n + 1) && r.pending.None?
  {
    hide Begins, Stakes, AllTold, GivenAt, Quiet, SizingBalance, BalanceAfter, Filled;
    if s.pending.Some? && MayEnter(s) {
      FillBegins(d, news, s.pending.value, n, s.balance);
    }
  }

  lemma SignalGivenAt(mode: TpMode, news: News, s: Run, d: Data, n: nat)
    requires SortedData(d) && n < |d.oneM.bars| && s.pending.None?
    requires n < |ViewAt(d, CloseTime(d.oneM, n)).v1.bars|
    ensures var r := AfterDetector(mode, news, s, d.oneM.bars[n], n, ViewAt(d, CloseTime(d.oneM, n)));
      && r == s.(memory := r.memory, pending := r.pending)
      && (r.pending.Some? ==> r.open.None? && GivenAt(d, news, r.pending.value, n))
  {
    hide NyGoldDetector.Decide, ViewAt, MinuteOfDay, Hour, Minute, Second;
    var b, v := d.oneM.bars[n], ViewAt(d, CloseTime(d.oneM, n));
    if DetectorBar(b) && !GatesBlock(s, b, v.t) {
      MinuteOfDayIs(b.time);
      if NyGoldDetector.Decide(mode, s.memory, v.t, n, v.v1, v.v5, v.v15).signal.Some? {
        SignalTime(mode, s.memory, v.t, n, v.v1, v.v5, v.v15);
      }
    }
  }

  lemma LogTold(d: Data, news: News, s: Run, n: nat, p: nat, b: GoldBar)
    requires n <= |d.oneM.bars| && p <= |d.oneM.bars|
    requires AllTold(d, news, s.closed) && s.balance == BalanceAfter(s.closed)
    requires s.open.Some? ==>
      && s.pending.None? && Begins(d, news, s.open.value) && Stakes(s.open.value, s.balance)
      && Lasts(d, s.open.value, n)
    requires s.pending.Some? && !s.totalHalted ==> p > 0 && GivenAt(d, news, s.pending.value, p - 1)
    ensures Told(d, news, Logged(s, b), n, p)
  {
    hide Begins, Stakes, AllTold, GivenAt, Lasts, BalanceAfter;
  }

  lemma DecisionTold(mode: TpMode, news: News, s: Run, d: Data, n: nat)
    requires SortedData(d) && n < |d.oneM.bars| && Told(d, news, s, n, n)
    ensures Told(d, news, DecisionAt(mode, news, s, d, n), n + 1, n + 1)
  {
    hide Begins, Stakes, AllTold, GivenAt, Lasts, BalanceAfter;
    hide SizingBalance, AfterManagement, AfterFill, AfterDetector;
    hide ViewAt, DateKey;
    var b, v := d.oneM.bars[n], ViewAt(d, CloseTime(d.oneM, n));
    SeesItsBar(d, n);
    ManagementTold(d, news, s, n);
    var m := AfterManagement(s, b, n);
    var r := AfterDayRoll(m, b);
    if TotalDrawdown(r) {
      LogTold(d, news, r.(totalHalted := true), n + 1, n + 1, b);
    } else {
      var q := AfterDailyHalt(r);
      RollTold(d, news, m, q, n);
      FillTold(d, news, q, n);
      var f := AfterFill(q, b, n);
      SignalGivenAt(mode, news, f, d, n);
      LogTold(d, news, AfterDetector(mode, news, f, b, n, v), n + 1, n + 1, b);
    }
  }

  lemma RollTold(d: Data, news: News, s: Run, r: Run, n: nat)
    requires n < |d.oneM.bars| && Told(d, news, s, n + 1, n)
    requires r.closed == s.closed && r.open == s.open && r.pending == s.pending && r.balance == s.balance
    requires r.equity == s.equity && r.totalHalted == s.totalHalted
    ensures Told(d, news, r, n + 1, n)
  {
    hide Begins, Stakes, AllTold, GivenAt, Lasts, BalanceAfter;
  }

  lemma {:induction false} ToldThroughout(mode: TpMode, news: News, d: Data, n: nat)
    requires SortedData(d) && n <= |d.oneM.bars|
    ensures Told(d, news, After(mode, news, d, n), n, n)
  {
    hide DecisionAt, Begins, Stakes, Explained, GivenAt, Lasts;
    if n > 0 {
      ToldThroughout(mode, news, d, n - 1);
      DecisionTold(mode, news, After(mode, news, d, n - 1), d, n - 1);
    }
  }

  /**
   * Every trade of a finished backtest is explained by its signal and the 1M bars: given at the close of the bar before
   * the entry, inside the session and outside the news, filled at the next open at half a percent of the balance, and
   * ended by the first bar that ends it, at that bar's price and for that bar's reason.
   */
  lemma EveryTradeIsExplained(mode: TpMode, news: News, d: Data, i: nat)
    requires SortedData(d) && i < |Outcome(mode, news, d).closed|
    ensures TradeTold(d, news, Outcome(mode, news, d).closed, i)
  {
    hide After, Begins, Stakes, Explained, GivenAt, Lasts, NetPnl, BalanceAfter;
    var n := |d.oneM.bars|;
    var s := After(mode, news, d, n);
    ToldThroughout(mode, news, d, n);
    if s.open.Some? {
      DataEndIsExplained(d, news, s);
      ExitTold(d, news, s, n, n - 1, DataEndExit(s.open.value, d.oneM.bars[n - 1]));
    }
  }

  lemma DataEndIsExplained(d: Data, news: News, s: Run)
    requires s.open.Some? && Told(d, news, s, |d.oneM.bars|, |d.oneM.bars|)
    ensures d.oneM.bars != []
    ensures var last := |d.oneM.bars| - 1;
      var e := DataEndExit(s.open.value, d.oneM.bars[last]);
      Explained(d, ClosedTrade(s.open.value, last, TimeAt(d, last), e, NetPnl(s.open.value, e.price),
                               s.balance + NetPnl(s.open.value, e.price)))
  {
    hide Begins, Stakes, NetPnl, BalanceAfter, AllTold, Quiet, ExitSide, OutAt;
    var b := Last(d.oneM.bars);
    SpreadSides(s.open.value.dir, b);
  }
}
