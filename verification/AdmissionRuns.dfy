/** Safety of live admission over every run of scan cycles, tracker updates, fills of pending orders and closes. */
module AdmissionRuns {
  import opened Common
  import opened DailyTracker
  import opened HouseMoney
  import opened LiveEngine

  datatype Event =
    | Scan(signals: seq<Signal>, now: int, acct: Account, w: World)
    | Track(u: Update, now: int)
    | PositionGone(symbol: string)
    | PendingFilled(symbol: string)
    | PendingGone(symbol: string)

  function Without(open: seq<string>, symbol: string): seq<string> {
    if open == [] then []
    else if Last(open) == symbol then Front(open)
    else Without(Front(open), symbol) + [Last(open)]
  }

  /** A freshly started engine on a tracker in any state, for instance one restored from disk. */
  function Start(daily: DailyState): State {
    State(None, None, {}, daily, [], [], [])
  }

  function After(cfg: Config, daily: DailyState, events: seq<Event>): State {
    if events == [] then Start(daily)
    else
      var st := After(cfg, daily, Front(events));
      match Last(events)
      case Scan(signals, now, acct, w) => Cycle(cfg, st, signals, now, acct, w).st
      case Track(u, now) => st.(daily := Updated(st.daily, u, now))
      case PositionGone(symbol) => st.(open := Without(st.open, symbol))
      case PendingFilled(symbol) => Filled(st, symbol)
      case PendingGone(symbol) => st.(pending := Without(st.pending, symbol))
  }

  /** A pending order that is known becomes a position; an unknown one changes nothing. */
  function Filled(st: State, symbol: string): State {
    if symbol in st.pending then st.(pending := Without(st.pending, symbol), open := st.open + [symbol]) else st
  }

  function LastScan(events: seq<Event>): Option<int> {
    if events == [] then None
    else if Last(events).Scan? then Some(Last(events).now)
    else LastScan(Front(events))
  }

  /** Scan cycles happen in time order and see a positive equity; tracker updates may carry any clock. */
  ghost predicate Proper(events: seq<Event>) {
    events == []
    || (&& Proper(Front(events))
        && (Last(events).Scan? ==>
              && Last(events).acct.equity > 0.0
              && (LastScan(Front(events)).Some? ==> LastScan(Front(events)).value <= Last(events).now)))
  }

  function Equities(events: seq<Event>): seq<real> {
    if events == [] then []
    else Equities(Front(events)) + if Last(events).Scan? then [Last(events).acct.equity] else []
  }

  // ------------------------------------------------------------------ the invariant

  /** No two orders share a day and a direction, and today's directions are in the ledger. */
  ghost predicate OrdersHold(st: State) {
    && (forall i, j :: 0 <= i < j < |st.orders| ==>
          st.orders[i].day != st.orders[j].day || st.orders[i].signal.dir != st.orders[j].signal.dir)
    && forall i :: 0 <= i < |st.orders| ==>
         && st.tradedDay.Some? && st.orders[i].day <= st.tradedDay.value
         && (st.orders[i].day == st.tradedDay.value ==> st.orders[i].signal.dir in st.traded)
  }

  ghost predicate Distinct(open: seq<string>) {
    forall i, j :: 0 <= i < j < |open| ==> open[i] != open[j]
  }

  /** The high-water mark is the largest equity seen. */
  ghost predicate IsHighest(hwm: Option<real>, equities: seq<real>) {
    && (hwm.None? <==> equities == [])
    && (hwm.Some? ==> hwm.value in equities && forall e :: e in equities ==> e <= hwm.value)
  }

  ghost predicate Safe(st: State, events: seq<Event>) {
    && OrdersHold(st) && IsHighest(st.hwm, Equities(events))
    && (st.tradedDay == if LastScan(events).Some? then Some(IstDay(LastScan(events).value)) else None)
  }

  // ------------------------------------------------------------------ one candidate, one cycle

  lemma AdmitKeepsSafety(cfg: Config, p: Progress, s: Signal, now: int, acct: Account, w: World)
    requires OrdersHold(p.st) && p.st.tradedDay == Some(IstDay(now))
    ensures var q := Admit(cfg, p, s, now, acct, w);
      && OrdersHold(q.st) && (Distinct(p.st.open) ==> Distinct(q.st.open))
      && q.st.tradedDay == p.st.tradedDay && q.st.hwm == p.st.hwm
  {
  }

  lemma {:induction false} CycleKeepsSafety(cfg: Config, p: Progress, cs: seq<Signal>, now: int, acct: Account,
                                            w: World)
    requires OrdersHold(p.st) && p.st.tradedDay == Some(IstDay(now))
    ensures var q := AdmitAll(cfg, p, cs, now, acct, w);
      && OrdersHold(q.st) && (Distinct(p.st.open) ==> Distinct(q.st.open))
      && q.st.tradedDay == p.st.tradedDay && q.st.hwm == p.st.hwm
  {
    hide Admit;
    if cs != [] {
      CycleKeepsSafety(cfg, p, Front(cs), now, acct, w);
      AdmitKeepsSafety(cfg, AdmitAll(cfg, p, Front(cs), now, acct, w), Last(cs), now, acct, w);
    }
  }

  lemma {:induction false} RejectingChangesNoState(p: Progress, cs: seq<Signal>, why: Rejection)
    ensures var q := RejectAll(p, cs, why);
      && q.st == p.st && q.raised == p.raised && q.report.placed == p.report.placed
      && q.report.rejected == p.report.rejected + |cs|
      && |q.report.rejections| == |p.report.rejections| + |cs|
  {
    if cs != [] { RejectingChangesNoState(p, Front(cs), why); }
  }

  /** Exactly one of placed and rejected counts each candidate of a completed cycle. */
  lemma {:induction false} EveryCandidateCounted(cfg: Config, p: Progress, cs: seq<Signal>, now: int, acct: Account,
                                                 w: World)
    ensures var q := AdmitAll(cfg, p, cs, now, acct, w);
      q.raised == NotRaised ==>
        && p.raised == NotRaised
        && (q.report.placed - p.report.placed) + (q.report.rejected - p.report.rejected) == |cs|
        && |q.report.rejections| - |p.report.rejections| == q.report.rejected - p.report.rejected
        && |q.st.orders| - |p.st.orders| == q.report.placed - p.report.placed
  {
    if cs != [] { EveryCandidateCounted(cfg, p, Front(cs), now, acct, w); }
  }

  /** Sizing is only ever asked inside its domain: tradeable grade, positive equity, trade number one or two. */
  lemma {:induction false} SizingInDomain(cfg: Config, p: Progress, cs: seq<Signal>, now: int, acct: Account, w: World)
    requires acct.equity > 0.0 && !p.raised.HouseMoneyRefused?
    requires forall c :: c in cs ==> c.grade != C
    ensures !AdmitAll(cfg, p, cs, now, acct, w).raised.HouseMoneyRefused?
  {
    if cs != [] { SizingInDomain(cfg, p, Front(cs), now, acct, w); }
  }

  // ------------------------------------------------------------------ whole runs

  lemma OpeningKeepsSafety(st: State, events: seq<Event>, e: Event)
    requires Safe(st, events) && Proper(events + [e]) && e.Scan?
    ensures var o := Opened(st, e.now, e.acct);
      && OrdersHold(o) && o.open == st.open && o.tradedDay == Some(IstDay(e.now))
      && IsHighest(o.hwm, Equities(events + [e]))
  {
    assert Front(events + [e]) == events;
    if LastScan(events).Some? { IstDayIsMonotone(LastScan(events).value, e.now); }
  }

  lemma {:induction false} WithoutKeepsDistinct(open: seq<string>, symbol: string)
    requires Distinct(open)
    ensures Distinct(Without(open, symbol)) && forall x :: x in Without(open, symbol) ==> x in open
  {
    if open != [] {
      WithoutKeepsDistinct(Front(open), symbol);
      assert Last(open) !in Front(open);
    }
  }

  /** Only scan cycles touch what safety speaks of. */
  lemma OtherEventsKeepSafety(st: State, r: State, events: seq<Event>, e: Event)
    requires Safe(st, events) && !e.Scan?
    requires r.orders == st.orders && r.tradedDay == st.tradedDay && r.traded == st.traded && r.hwm == st.hwm
    ensures Safe(r, events + [e])
  {
    hide OrdersHold, IsHighest;
    assert Front(events + [e]) == events;
    assert Equities(events + [e]) == Equities(events);
    assert LastScan(events + [e]) == LastScan(events);
    SameOrdersHold(st, r);
  }

  lemma SameOrdersHold(st: State, r: State)
    requires OrdersHold(st) && r.orders == st.orders && r.tradedDay == st.tradedDay && r.traded == st.traded
    ensures OrdersHold(r)
  {
  }

  lemma ScanKeepsSafety(cfg: Config, st: State, events: seq<Event>, e: Event)
    requires Safe(st, events) && Proper(events + [e]) && e.Scan?
    ensures var r := Cycle(cfg, st, e.signals, e.now, e.acct, e.w).st;
      Safe(r, events + [e]) && (Distinct(st.open) ==> Distinct(r.open))
  {
    hide AdmitAll, RejectAll, BestPerSymbol, Halted, OrdersHold, Distinct, IsHighest;
    assert Front(events + [e]) == events;
    OpeningKeepsSafety(st, events, e);
    var start := Progress(Opened(st, e.now, e.acct), Report(|e.signals|, 0, 0, []), NotRaised);
    CycleKeepsSafety(cfg, start, BestPerSymbol(e.signals), e.now, e.acct, e.w);
    RejectingChangesNoState(start, BestPerSymbol(e.signals), TotalDrawdown);
  }

  /** After any proper run the invariant holds, whatever news, compliance, the broker and the tracker did. */
  lemma {:induction false} EveryRunIsSafe(cfg: Config, daily: DailyState, events: seq<Event>)
    requires Proper(events)
    ensures Safe(After(cfg, daily, events), events)
  {
    hide Cycle, Updated, Safe;
    if events == [] {
      assert Safe(Start(daily), []) by { FreshIsSafe(daily); }
    } else {
      var before, e := Front(events), Last(events);
      assert before + [e] == events;
      EveryRunIsSafe(cfg, daily, before);
      if e.Scan? {
        ScanKeepsSafety(cfg, After(cfg, daily, before), before, e);
      } else {
        OtherEventsKeepSafety(After(cfg, daily, before), After(cfg, daily, events), before, e);
      }
    }
  }

  lemma FreshIsSafe(daily: DailyState)
    ensures Safe(Start(daily), [])
  {
  }

  /** At most one order per direction and India-time day, and so at most two orders a day. */
  lemma OneOrderPerDirectionAndDay(cfg: Config, daily: DailyState, events: seq<Event>)
    requires Proper(events)
    ensures var orders := After(cfg, daily, events).orders;
      && (forall i, j :: 0 <= i < j < |orders| && orders[i].day == orders[j].day ==>
          orders[i].signal.dir != orders[j].signal.dir)
      && (forall i, j, k :: 0 <= i < j < k < |orders| && orders[i].day == orders[j].day ==>
          orders[k].day != orders[i].day)
  {
    EveryRunIsSafe(cfg, daily, events);
  }

  // ------------------------------------------------------------------ one position per symbol

  /** No pending order is filled on a symbol that has a position by then. */
  ghost predicate FillsAreClear(cfg: Config, daily: DailyState, events: seq<Event>) {
    forall i :: 0 <= i < |events| && events[i].PendingFilled? ==>
      ClearFill(After(cfg, daily, events[..i]), events[i].symbol)
  }

  predicate ClearFill(st: State, symbol: string) {
    symbol !in st.pending || symbol !in st.open
  }

  ghost predicate AlwaysDistinct(cfg: Config, daily: DailyState, events: seq<Event>) {
    forall n :: 0 <= n <= |events| ==> Distinct(After(cfg, daily, events[..n]).open)
  }

  lemma EventKeepsDistinct(cfg: Config, daily: DailyState, events: seq<Event>, e: Event)
    requires Proper(events + [e]) && Distinct(After(cfg, daily, events).open)
    ensures Distinct(After(cfg, daily, events + [e]).open) <==>
            (e.PendingFilled? ==> ClearFill(After(cfg, daily, events), e.symbol))
  {
    hide Cycle, Updated, Safe, Proper;
    assert Front(events + [e]) == events;
    var st := After(cfg, daily, events);
    match e {
      case Scan(_, _, _, _) =>
        assert Proper(events) by { ProperBefore(events, e); }
        EveryRunIsSafe(cfg, daily, events);
        ScanKeepsSafety(cfg, st, events, e);
      case Track(_, _) =>
      case PositionGone(symbol) => WithoutKeepsDistinct(st.open, symbol);
      case PendingFilled(symbol) => OneMoreIsDistinct(st.open, symbol);
      case PendingGone(_) =>
    }
  }

  lemma ProperBefore(events: seq<Event>, e: Event)
    requires Proper(events + [e])
    ensures Proper(events)
  {
    assert Front(events + [e]) == events;
  }

  lemma OneMoreIsDistinct(open: seq<string>, symbol: string)
    requires Distinct(open)
    ensures Distinct(open + [symbol]) <==> symbol !in open
  {
    var more := open + [symbol];
    if symbol in open {
      var i :| 0 <= i < |open| && open[i] == symbol;
      assert more[i] == more[|open|];
    }
  }

  /**
   * At most one open position per symbol, throughout a run, exactly when no pending order is filled on a symbol that
   * has a position by then: the gate looks at positions only.
   */
  lemma {:induction false} OnePositionPerSymbolExactly(cfg: Config, daily: DailyState, events: seq<Event>)
    requires Proper(events)
    ensures AlwaysDistinct(cfg, daily, events) <==> FillsAreClear(cfg, daily, events)
  {
    hide After, Distinct, ClearFill, Proper;
    if events == [] {
      assert Distinct(After(cfg, daily, []).open) by { NothingOpen(cfg, daily); }
      assert events[..0] == [];
    } else {
      var before, e := Front(events), Last(events);
      assert before + [e] == events && events[..|events|] == events && events[..|before|] == before;
      assert Proper(before) by { ProperBefore(before, e); }
      OnePositionPerSymbolExactly(cfg, daily, before);
      assert forall i :: 0 <= i <= |before| ==> before[..i] == events[..i];
      assert AlwaysDistinct(cfg, daily, events) <==>
          AlwaysDistinct(cfg, daily, before) && Distinct(After(cfg, daily, events).open);
      if Distinct(After(cfg, daily, before).open) { EventKeepsDistinct(cfg, daily, before, e); }
    }
  }

  lemma NothingOpen(cfg: Config, daily: DailyState)
    ensures Distinct(After(cfg, daily, []).open)
  {
  }

  /** A world without news, vetoes or broker errors. */
  function Willing(): World {
    World((s: string) => false, (s: Signal) => None, (s: Signal) => true)
  }

  /** A buy that waits as a stop order, and a sell that enters at market. */
  const WAITING_BUY: Signal := PatternSignal("SILVER_BULLET", "EURUSD", Buy, 1.10, 1.09, 1.125, 0.8, A)
  const MARKET_SELL: Signal := PatternSignal("ASIAN_SWEEP", "EURUSD", Sell, 1.09, 1.10, 1.065, 0.8, A)

  lemma OneWaitsOneEnters()
    ensures !EntersAtMarket(WAITING_BUY) && EntersAtMarket(MARKET_SELL)
  {
    assert "SILVER_BULLET"[0] != "FLAG"[0] && "SILVER_BULLET"[0] != "ASIAN_SWEEP"[0];
  }

  lemma AdmitsOne(cfg: Config, st: State, s: Signal, now: int)
    requires st.tradedDay.None? || st.tradedDay == Some(IstDay(now))
    requires s.grade == A && s.symbol !in st.open && s.dir !in st.traded && st.daily.tradeCount < 2
    requires st.hwm.None? || st.hwm == Some(100_000.0)
    ensures var r := Cycle(cfg, st, [s], now, Account(100_000.0, 0.0), Willing()).st;
      && r.hwm == Some(100_000.0) && r.tradedDay == Some(IstDay(now)) && r.daily == Updated(st.daily, TradeOpened, now)
      && r.traded == (if st.tradedDay.None? then {} else st.traded) + {s.dir}
      && r.open == (if EntersAtMarket(s) then st.open + [s.symbol] else st.open)
      && r.pending == (if EntersAtMarket(s) then st.pending else st.pending + [s.symbol])
  {
    hide EntersAtMarket;
    assert Front([s]) == [] && BestPerSymbol([]) == [];
    assert BestPerSymbol([s]) == [s];
    var start := Progress(Opened(st, now, Account(100_000.0, 0.0)), Report(1, 0, 0, []), NotRaised);
    assert AdmitAll(cfg, start, [], now, Account(100_000.0, 0.0), Willing()) == start;
  }

  /** A buy stop waits while a market sell of the same symbol is admitted; its fill makes two positions. */
  lemma FillCanDouble(cfg: Config)
    ensures var daily, acct := Empty(0, 100_000.0, 0), Account(100_000.0, 0.0);
      var waits, enters := Scan([WAITING_BUY], 0, acct, Willing()), Scan([MARKET_SELL], 1, acct, Willing());
      var events := [waits, enters, PendingFilled("EURUSD")];
      Proper(events) && After(cfg, daily, events).open == ["EURUSD", "EURUSD"]
  {
    hide Cycle, Updated, EntersAtMarket;
    OneWaitsOneEnters();
    var daily, acct := Empty(0, 100_000.0, 0), Account(100_000.0, 0.0);
    var e1, e2 := Scan([WAITING_BUY], 0, acct, Willing()), Scan([MARKET_SELL], 1, acct, Willing());
    assert Front([e1, e2, PendingFilled("EURUSD")]) == [e1, e2] && Front([e1, e2]) == [e1] && Front([e1]) == [];
    var s0 := Start(daily);
    assert After(cfg, daily, []) == s0 && LastScan([]) == None;
    AdmitsOne(cfg, s0, WAITING_BUY, 0);
    var s1 := After(cfg, daily, [e1]);
    assert Updated(daily, TradeOpened, 0).tradeCount == 1 by { CountsOne(daily); }
    AdmitsOne(cfg, s1, MARKET_SELL, 1);
    var s2 := After(cfg, daily, [e1, e2]);
    assert s2.open == ["EURUSD"] && s2.pending == ["EURUSD"];
    assert Proper([]) && Proper([e1]) && LastScan([e1]) == Some(0) && Proper([e1, e2]);
  }

  lemma CountsOne(daily: DailyState)
    requires daily == Empty(0, 100_000.0, 0)
    ensures Updated(daily, TradeOpened, 0).tradeCount == 1
  {
  }

  /** With market entries only, no order is ever pending. */
  lemma {:induction false} MarketEntriesNeverWait(cfg: Config, daily: DailyState, events: seq<Event>)
    requires forall e, s :: e in events && e.Scan? && s in e.signals ==> EntersAtMarket(s)
    ensures After(cfg, daily, events).pending == []
  {
    hide Updated, AdmitAll, RejectAll, BestPerSymbol, Halted;
    if events != [] {
      var e := Last(events);
      assert e in events && forall x :: x in Front(events) ==> x in events;
      MarketEntriesNeverWait(cfg, daily, Front(events));
      if e.Scan? {
        var st := After(cfg, daily, Front(events));
        var start := Progress(Opened(st, e.now, e.acct), Report(|e.signals|, 0, 0, []), NotRaised);
        var cs := BestPerSymbol(e.signals);
        BestPerSymbolIsBest(e.signals);
        MarketCandidates(cfg, start, cs, e.now, e.acct, e.w);
        RejectingChangesNoState(start, cs, TotalDrawdown);
      }
    }
  }

  lemma {:induction false} MarketCandidates(cfg: Config, p: Progress, cs: seq<Signal>, now: int, acct: Account,
                                            w: World)
    requires forall c :: c in cs ==> EntersAtMarket(c)
    ensures AdmitAll(cfg, p, cs, now, acct, w).st.pending == p.st.pending
  {
    hide Gate, CalcTradeRisk, Updated;
    if cs != [] { MarketCandidates(cfg, p, Front(cs), now, acct, w); }
  }

  /** So with market entries, the only ones of the live strategy, there is at most one open position per symbol. */
  lemma OnePositionPerSymbol(cfg: Config, daily: DailyState, events: seq<Event>)
    requires Proper(events)
    requires forall e, s :: e in events && e.Scan? && s in e.signals ==> EntersAtMarket(s)
    ensures AlwaysDistinct(cfg, daily, events)
  {
    hide After, Distinct, Proper;
    forall i | 0 <= i < |events| && events[i].PendingFilled?
      ensures ClearFill(After(cfg, daily, events[..i]), events[i].symbol)
    {
      assert forall e :: e in events[..i] ==> e in events;
      MarketEntriesNeverWait(cfg, daily, events[..i]);
    }
    OnePositionPerSymbolExactly(cfg, daily, events);
  }

  /**
   * A cycle whose equity is 8% or more below the highest equity any cycle has seen places no order and turns every
   * candidate away.
   */
  lemma KillSwitchHolds(cfg: Config, daily: DailyState, events: seq<Event>, e: Event, highest: real)
    requires Proper(events + [e]) && e.Scan?
    requires highest in Equities(events + [e])
    requires highest > 0.0 && (highest - e.acct.equity) / highest * 100.0 >= 8.0
    ensures var st := After(cfg, daily, events);
      var c := Cycle(cfg, st, e.signals, e.now, e.acct, e.w);
      && c.st.orders == st.orders && c.report.placed == 0 && c.report.rejected == |BestPerSymbol(e.signals)|
  {
    hide AdmitAll, RejectAll, BestPerSymbol;
    assert Front(events + [e]) == events;
    EveryRunIsSafe(cfg, daily, events);
    var st := After(cfg, daily, events);
    OpeningKeepsSafety(st, events, e);
    var o := Opened(st, e.now, e.acct);
    assert highest <= o.hwm.value;
    DrawdownGrowsWithPeak(highest, o.hwm.value, e.acct.equity);
    var start := Progress(o, Report(|e.signals|, 0, 0, []), NotRaised);
    RejectingChangesNoState(start, BestPerSymbol(e.signals), TotalDrawdown);
    if BestPerSymbol(e.signals) == [] { NothingToAdmit(cfg, start, e.now, e.acct, e.w); }
  }

  lemma NothingToAdmit(cfg: Config, p: Progress, now: int, acct: Account, w: World)
    ensures AdmitAll(cfg, p, [], now, acct, w) == p
  {
  }

  lemma DrawdownGrowsWithPeak(low: real, high: real, equity: real)
    requires 0.0 < low <= high && equity > 0.0
    ensures (low - equity) / low * 100.0 <= (high - equity) / high * 100.0
  {
    var a, b := (low - equity) / low, (high - equity) / high;
    assert a * low == low - equity && b * high == high - equity;
    if a > b {
      StrictProduct(low, high, 1.0 - a, 1.0 - b);
    }
  }

  lemma StrictProduct(low: real, high: real, x: real, y: real)
    requires 0.0 < low <= high && x < y && low * x > 0.0
    ensures low * x < high * y
  {
    assert x > 0.0;
    assert low * x <= high * x;
    assert high * x < high * y;
  }

  /** Every cycle of a run: sizing is never refused, and a completed cycle accounts for each of its candidates. */
  lemma CycleAccounts(cfg: Config, st: State, signals: seq<Signal>, now: int, acct: Account, w: World)
    requires acct.equity > 0.0
    ensures var c := Cycle(cfg, st, signals, now, acct, w);
      && !c.raised.HouseMoneyRefused?
      && (c.raised == NotRaised ==>
            && c.report.placed + c.report.rejected == |BestPerSymbol(signals)|
            && |c.report.rejections| == c.report.rejected
            && |c.st.orders| == |st.orders| + c.report.placed)
  {
    hide AdmitAll, RejectAll, BestPerSymbol, Halted;
    var cs := BestPerSymbol(signals);
    BestPerSymbolIsBest(signals);
    var start := Progress(Opened(st, now, acct), Report(|signals|, 0, 0, []), NotRaised);
    SizingInDomain(cfg, start, cs, now, acct, w);
    EveryCandidateCounted(cfg, start, cs, now, acct, w);
    RejectingChangesNoState(start, cs, TotalDrawdown);
  }
}
