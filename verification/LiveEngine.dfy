/** Trade admission in the live engine (execution/live_engine.py): one scan cycle, and safety over every run. */
module LiveEngine {
  import opened Common
  import opened DailyTracker
  import opened HouseMoney

  const MAX_TOTAL_DD_PCT := 8.0
  const HOUSE_MONEY_MAX_TRADE_NUMBER := 2

  /** The patterns that enter at market; all others leave a pending order. */
  const MARKET_ENTRY_PATTERNS := {"FLAG", "ASIAN_SWEEP"}

  /** What admission looks at in a detector's signal. */
  datatype PatternSignal = PatternSignal(
    pattern: string, symbol: string, dir: Direction, entry: real, sl: real, tp: real, confidence: real, grade: Grade)

  /** The prices a signal can be constructed with. */
  predicate Constructible(s: PatternSignal) {
    && 0.0 <= s.confidence <= 1.0 && s.entry > 0.0 && s.sl > 0.0 && s.tp > 0.0
    && Gain(s.dir, s.sl, s.entry) > 0.0 && Gain(s.dir, s.entry, s.tp) > 0.0
  }

  type Signal = s: PatternSignal | Constructible(s) witness PatternSignal("", "", Buy, 2.0, 1.0, 3.0, 1.0, A)

  predicate EntersAtMarket(s: Signal) {
    s.pattern in MARKET_ENTRY_PATTERNS
  }

  datatype Account = Account(equity: real, dailyPnl: real)

  /** The outside world during one cycle: news, compliance verdicts, and whether the broker takes an order. */
  datatype World = World(news: string -> bool, comply: Signal -> Option<string>, place: Signal -> bool)

  datatype Rejection =
    | TotalDrawdown | NewsBlackout | OpenPositionExists | DirectionAlreadyTraded | DailyCapReached
    | Compliance(reason: string)

  datatype Report = Report(emitted: nat, rejected: nat, placed: nat, rejections: seq<(string, Rejection)>)

  /** Why a cycle ended early with an exception. */
  datatype Raised = NotRaised | HouseMoneyRefused(e: Error) | BrokerFailed

  /** A placed order, as the ghost ledger of the run remembers it. */
  datatype Order = Order(day: int, signal: Signal, riskPct: real)

  // ------------------------------------------------------------------ the best signal of each symbol

  function RiskReward(s: Signal): real {
    if Abs(s.entry - s.sl) > 0.0 then Abs(s.tp - s.entry) / Abs(s.entry - s.sl) else 0.0
  }

  /** Strict order of the ranking tuple: grade, then confidence, then reward to risk. */
  predicate Outranks(a: Signal, b: Signal) {
    || Rank(a.grade) > Rank(b.grade)
    || (Rank(a.grade) == Rank(b.grade)
        && (a.confidence > b.confidence || (a.confidence == b.confidence && RiskReward(a) > RiskReward(b))))
  }

  function SymbolIndex(best: seq<Signal>, symbol: string): (i: nat)
    ensures i <= |best|
    ensures i < |best| ==> best[i].symbol == symbol
    ensures forall j :: 0 <= j < i ==> best[j].symbol != symbol
  {
    if best == [] || best[0].symbol == symbol then 0 else 1 + SymbolIndex(best[1..], symbol)
  }

  function BestPerSymbol(signals: seq<Signal>): seq<Signal> {
    if signals == [] then []
    else
      var best, s := BestPerSymbol(Front(signals)), Last(signals);
      var i := SymbolIndex(best, s.symbol);
      if s.grade == C then best
      else if i == |best| then best + [s]
      else if Outranks(s, best[i]) then best[i := s]
      else best
  }

  ghost predicate DistinctSymbols(best: seq<Signal>) {
    forall i, j :: 0 <= i < j < |best| ==> best[i].symbol != best[j].symbol
  }

  /** The candidate of this signal's symbol exists and is not outranked by it. */
  ghost predicate Covered(best: seq<Signal>, s: Signal) {
    var i := SymbolIndex(best, s.symbol);
    i < |best| && !Outranks(s, best[i])
  }

  /** Candidates have distinct symbols, are tradeable signals, and no tradeable signal of their symbol outranks them. */
  ghost predicate AreBest(best: seq<Signal>, signals: seq<Signal>) {
    && DistinctSymbols(best)
    && (forall b :: b in best ==> b in signals && b.grade != C)
    && forall s :: s in signals && s.grade != C ==> Covered(best, s)
  }

  lemma OutranksIsTransitive(a: Signal, b: Signal, c: Signal)
    requires Outranks(a, b) && Outranks(b, c)
    ensures Outranks(a, c)
  {
  }

  lemma CoveredAfterAppend(best: seq<Signal>, s: Signal, x: Signal)
    requires DistinctSymbols(best + [s]) && Covered(best, x)
    ensures Covered(best + [s], x)
  {
    var i := SymbolIndex(best, x.symbol);
    assert (best + [s])[i] == best[i];
  }

  lemma CoveredAfterReplace(best: seq<Signal>, i: nat, s: Signal, x: Signal)
    requires DistinctSymbols(best) && i < |best| && best[i].symbol == s.symbol
    requires Outranks(s, best[i]) && Covered(best, x)
    ensures Covered(best[i := s], x)
  {
    hide Outranks;
    var j := SymbolIndex(best, x.symbol);
    var next := best[i := s];
    assert next[j].symbol == x.symbol;
    if j == i && Outranks(x, s) { OutranksIsTransitive(x, s, best[i]); }
  }

  lemma CoversItself(best: seq<Signal>, i: nat)
    requires DistinctSymbols(best) && i < |best|
    ensures Covered(best, best[i])
  {
  }

  lemma CoveredUnlessOutranked(best: seq<Signal>, s: Signal)
    ensures var i := SymbolIndex(best, s.symbol);
      i < |best| && !Outranks(s, best[i]) ==> Covered(best, s)
  {
  }

  lemma AppendIsBest(best: seq<Signal>, signals: seq<Signal>, s: Signal)
    requires AreBest(best, signals) && s.grade != C && SymbolIndex(best, s.symbol) == |best|
    ensures AreBest(best + [s], signals + [s])
  {
    hide Outranks, Covered;
    CoversItself(best + [s], |best|);
    forall x | x in signals && x.grade != C
      ensures Covered(best + [s], x)
    {
      CoveredAfterAppend(best, s, x);
    }
  }

  lemma ReplaceIsBest(best: seq<Signal>, signals: seq<Signal>, s: Signal, i: nat)
    requires AreBest(best, signals) && s.grade != C && i < |best| && best[i].symbol == s.symbol && Outranks(s, best[i])
    ensures AreBest(best[i := s], signals + [s])
  {
    hide Outranks, Covered;
    CoversItself(best[i := s], i);
    forall x | x in signals && x.grade != C
      ensures Covered(best[i := s], x)
    {
      CoveredAfterReplace(best, i, s, x);
    }
  }

  lemma {:induction false} BestPerSymbolIsBest(signals: seq<Signal>)
    ensures AreBest(BestPerSymbol(signals), signals)
  {
    hide Outranks, Covered;
    if signals != [] {
      BestPerSymbolIsBest(Front(signals));
      assert signals == Front(signals) + [Last(signals)];
      var best, s := BestPerSymbol(Front(signals)), Last(signals);
      var i := SymbolIndex(best, s.symbol);
      if s.grade != C {
        if i == |best| {
          AppendIsBest(best, Front(signals), s);
        } else if Outranks(s, best[i]) {
          ReplaceIsBest(best, Front(signals), s, i);
        } else {
          assert Covered(best, s) by { CoveredUnlessOutranked(best, s); }
        }
      }
    }
  }

  // ------------------------------------------------------------------ admission of one candidate

  datatype State = State(
    hwm: Option<real>, tradedDay: Option<int>, traded: set<Direction>, daily: DailyState,
    open: seq<string>, pending: seq<string>, orders: seq<Order>)

  datatype Progress = Progress(st: State, report: Report, raised: Raised)

  function Reject(p: Progress, s: Signal, why: Rejection): Progress {
    p.(report := p.report.(rejected := p.report.rejected + 1, rejections := p.report.rejections + [(s.symbol, why)]))
  }

  /** The gate that turns a candidate away before sizing, if any, in the order the engine asks. */
  function Gate(st: State, s: Signal, w: World): Option<Rejection> {
    if w.news(s.symbol) then Some(NewsBlackout)
    else if s.symbol in st.open then Some(OpenPositionExists)
    else if s.dir in st.traded then Some(DirectionAlreadyTraded)
    else if st.daily.tradeCount + 1 > HOUSE_MONEY_MAX_TRADE_NUMBER then Some(DailyCapReached)
    else if w.comply(s).Some? then Some(Compliance(w.comply(s).value))
    else None
  }

  function Placed(st: State, s: Signal, now: int, riskPct: real): State {
    st.(open := if EntersAtMarket(s) then st.open + [s.symbol] else st.open,
        pending := if EntersAtMarket(s) then st.pending else st.pending + [s.symbol],
        daily := Updated(st.daily, TradeOpened, now),
        traded := st.traded + {s.dir},
        orders := st.orders + [Order(IstDay(now), s, riskPct)])
  }

  function Admit(cfg: Config, p: Progress, s: Signal, now: int, acct: Account, w: World): Progress {
    if p.raised != NotRaised then p
    else
      var gate := Gate(p.st, s, w);
      if gate.Some? then Reject(p, s, gate.value)
      else
        var risk := CalcTradeRisk(cfg, s.grade, acct.equity, acct.dailyPnl, p.st.daily.tradeCount + 1);
        if risk.Err? then p.(raised := HouseMoneyRefused(risk.error))
        else if !w.place(s) then p.(raised := BrokerFailed)
        else Progress(Placed(p.st, s, now, risk.value.finalPct), p.report.(placed := p.report.placed + 1), NotRaised)
  }

  function AdmitAll(cfg: Config, p: Progress, cs: seq<Signal>, now: int, acct: Account, w: World): Progress {
    if cs == [] then p else Admit(cfg, AdmitAll(cfg, p, Front(cs), now, acct, w), Last(cs), now, acct, w)
  }

  function RejectAll(p: Progress, cs: seq<Signal>, why: Rejection): Progress {
    if cs == [] then p else Reject(RejectAll(p, Front(cs), why), Last(cs), why)
  }

  // ------------------------------------------------------------------ one cycle

  /** The direction ledger restarts when the India-time day changes, and the high-water mark takes in the equity. */
  function Opened(st: State, now: int, acct: Account): State {
    var day := IstDay(now);
    st.(tradedDay := Some(day),
        traded := if st.tradedDay == Some(day) then st.traded else {},
        hwm := if st.hwm.None? || acct.equity > st.hwm.value then Some(acct.equity) else st.hwm)
  }

  predicate Halted(st: State, acct: Account)
    requires st.hwm.Some?
  {
    st.hwm.value > 0.0 && (st.hwm.value - acct.equity) / st.hwm.value * 100.0 >= MAX_TOTAL_DD_PCT
  }

  function Cycle(cfg: Config, st: State, signals: seq<Signal>, now: int, acct: Account, w: World): Progress {
    var st1 := Opened(st, now, acct);
    var start := Progress(st1, Report(|signals|, 0, 0, []), NotRaised);
    var cs := BestPerSymbol(signals);
    if cs != [] && Halted(st1, acct) then RejectAll(start, cs, TotalDrawdown)
    else AdmitAll(cfg, start, cs, now, acct, w)
  }

  // ------------------------------------------------------------------ the engine

  class Engine {
    const cfg: Config
    const daily: Tracker
    var equityHwm: Option<real>
    var tradedToday: set<Direction>
    var tradedTodayDay: Option<int>
    var openSymbols: seq<string>
    var pendingSymbols: seq<string>
    ghost var orders: seq<Order>

    constructor (cfg: Config, daily: Tracker)
      ensures this.cfg == cfg && this.daily == daily
      ensures equityHwm.None? && tradedTodayDay.None? && tradedToday == {}
      ensures openSymbols == [] && pendingSymbols == [] && orders == []
    {
      this.cfg, this.daily := cfg, daily;
      equityHwm, tradedToday, tradedTodayDay := None, {}, None;
      openSymbols, pendingSymbols, orders := [], [], [];
    }

    ghost function View(): State
      reads this, daily
    {
      State(equityHwm, tradedTodayDay, tradedToday, daily.state, openSymbols, pendingSymbols, orders)
    }

    method PickBest(signals: seq<Signal>) returns (best: seq<Signal>)
      ensures best == BestPerSymbol(signals)
    {
      best := [];
      for i := 0 to |signals|
        invariant best == BestPerSymbol(signals[..i])
      {
        assert Front(signals[..i + 1]) == signals[..i];
        var s := signals[i];
        if s.grade == C { continue; }
        var at := SymbolIndex(best, s.symbol);
        if at == |best| {
          best := best + [s];
        } else if Outranks(s, best[at]) {
          best := best[at := s];
        }
      }
      assert signals[..|signals|] == signals;
    }

    /** One pass of the admission loop. */
    method AdmitOne(before: Report, s: Signal, now: int, acct: Account, w: World)
      returns (report: Report, raised: Raised)
      modifies this, daily
      ensures Progress(View(), report, raised) == Admit(cfg, Progress(old(View()), before, NotRaised), s, now, acct, w)
    {
      report, raised := before, NotRaised;
      var why := None;
      var tradeNo := daily.state.tradeCount + 1;
      if w.news(s.symbol) {
        why := Some(NewsBlackout);
      } else if s.symbol in openSymbols {
        why := Some(OpenPositionExists);
      } else if s.dir in tradedToday {
        why := Some(DirectionAlreadyTraded);
      } else if tradeNo > HOUSE_MONEY_MAX_TRADE_NUMBER {
        why := Some(DailyCapReached);
      } else {
        var verdict := w.comply(s);
        if verdict.Some? { why := Some(Compliance(verdict.value)); }
      }
      assert why == Gate(View(), s, w);
      if why.Some? {
        report := report.(rejected := report.rejected + 1, rejections := report.rejections + [(s.symbol, why.value)]);
        return;
      }
      var risk := CalcTradeRisk(cfg, s.grade, acct.equity, acct.dailyPnl, tradeNo);
      if risk.Err? { raised := HouseMoneyRefused(risk.error); return; }
      if !w.place(s) { raised := BrokerFailed; return; }
      Place(s, now, risk.value.finalPct);
      report := report.(placed := report.placed + 1);
    }

    method Place(s: Signal, now: int, riskPct: real)
      modifies this, daily
      ensures View() == Placed(old(View()), s, now, riskPct)
    {
      if EntersAtMarket(s) {
        openSymbols := openSymbols + [s.symbol];
      } else {
        pendingSymbols := pendingSymbols + [s.symbol];
      }
      daily.RecordTradeOpen(now);
      tradedToday := tradedToday + {s.dir};
      orders := orders + [Order(IstDay(now), s, riskPct)];
    }

    /** Drawdown from the high-water mark, asked only when there is something to halt. */
    method KillSwitch(best: seq<Signal>, acct: Account) returns (halted: bool)
      requires equityHwm.Some?
      ensures halted == (best != [] && Halted(View(), acct))
    {
      halted := false;
      if equityHwm.value > 0.0 && best != [] {
        var ddPct := (equityHwm.value - acct.equity) / equityHwm.value * 100.0;
        halted := ddPct >= MAX_TOTAL_DD_PCT;
      }
    }

    /** The kill switch turns every candidate of the cycle away. */
    method RejectEverything(before: Report, best: seq<Signal>, ghost st: State) returns (report: Report)
      ensures Progress(st, report, NotRaised) == RejectAll(Progress(st, before, NotRaised), best, TotalDrawdown)
    {
      report := before;
      for i := 0 to |best|
        invariant Progress(st, report, NotRaised) ==
            RejectAll(Progress(st, before, NotRaised), best[..i], TotalDrawdown)
      {
        assert Front(best[..i + 1]) == best[..i];
        report := report.(rejected := report.rejected + 1,
                          rejections := report.rejections + [(best[i].symbol, TotalDrawdown)]);
      }
      assert best[..|best|] == best;
    }

    method AdmitBest(before: Report, best: seq<Signal>, now: int, acct: Account, w: World)
      returns (report: Report, raised: Raised)
      modifies this, daily
      ensures Progress(View(), report, raised) ==
          AdmitAll(cfg, Progress(old(View()), before, NotRaised), best, now, acct, w)
    {
      report, raised := before, NotRaised;
      ghost var start := Progress(View(), report, raised);
      for i := 0 to |best|
        invariant Progress(View(), report, raised) == AdmitAll(cfg, start, best[..i], now, acct, w)
        invariant raised == NotRaised
      {
        assert Front(best[..i + 1]) == best[..i];
        report, raised := AdmitOne(report, best[i], now, acct, w);
        if raised != NotRaised {
          RaisedStops(cfg, start, best, i + 1, now, acct, w);
          return;
        }
      }
      assert best[..|best|] == best;
    }

    method ProcessScanCycle(signals: seq<Signal>, now: int, acct: Account, w: World)
      returns (report: Report, raised: Raised)
      modifies this, daily
      ensures Progress(View(), report, raised) == Cycle(cfg, old(View()), signals, now, acct, w)
    {
      report, raised := Report(|signals|, 0, 0, []), NotRaised;
      var tradeDay := IstDay(now);
      if tradedTodayDay != Some(tradeDay) {
        tradedTodayDay := Some(tradeDay);
        tradedToday := {};
      }
      var best := PickBest(signals);
      if equityHwm.None? || acct.equity > equityHwm.value { equityHwm := Some(acct.equity); }
      assert View() == Opened(old(View()), now, acct);
      var halted := KillSwitch(best, acct);
      if halted {
        report := RejectEverything(report, best, View());
      } else {
        report, raised := AdmitBest(report, best, now, acct, w);
      }
    }
  }

  /** An exception ends the cycle: the remaining candidates change nothing. */
  lemma {:induction false} RaisedStops(cfg: Config, p: Progress, cs: seq<Signal>, n: nat, now: int, acct: Account,
                                       w: World)
    requires n <= |cs| && AdmitAll(cfg, p, cs[..n], now, acct, w).raised != NotRaised
    ensures AdmitAll(cfg, p, cs, now, acct, w) == AdmitAll(cfg, p, cs[..n], now, acct, w)
  {
    if n == |cs| {
      assert cs[..n] == cs;
    } else {
      assert Front(cs)[..n] == cs[..n];
      RaisedStops(cfg, p, Front(cs), n, now, acct, w);
    }
  }
}
