/** Concrete runs of the event-driven backtest that reach the corners the theorems about it name. */
module MultiSetupRuns {
  import opened Clock
  import opened Common
  import opened EquityCurve
  import opened Market
  import opened MultiSetupBacktest
  import opened MultiSetupLedger
  import opened MultiSetupLimits
  import opened MultiSetupTrade
  import opened RejectionCandle

  /** A Friday, 21:45 UTC, the last bar of its week; and Sunday, 22:00 UTC, the first bar of the next one. */
  const FRIDAY := 769_500_000
  const SUNDAY := 943_200_000

  /** The two pairs of these runs with their table values. */
  predicate Traded(symbol: string) {
    symbol == "XAUUSD" || symbol == "EURUSD"
  }

  function PairOf(symbol: string): Pair {
    if symbol == "XAUUSD" then Pair(0.1, 5.0) else Pair(0.0001, 2.0)
  }

  /** A buy at the close of the entry bar: the stop 7.5 or 9 pips away, targets at 1.5 and 2.5 times that. */
  function SignalOf(symbol: string): Signal {
    if symbol == "XAUUSD" then Signal(Buy, 1_999.75, 1_999.0, 2_001.625, Some(2_000.875))
    else Signal(Buy, 1.0999, 1.0990, 1.10215, Some(1.10125))
  }

  /** Detectors that see a buy on every bar the gate lets through, and a pip worth ten dollars a lot. */
  function BuyAlways(): World {
    World((s: string) => PairOf(s), (s: string, t: int) => false,
          (s: string, t: int, h: seq<Bar>, l: seq<Bar>) => Some(SignalOf(s)),
          (s: string, p: map<string, real>) => 10.0)
  }

  /** A bullish pin. */
  function EntryBar(symbol: string): Bar {
    if symbol == "XAUUSD" then Bar(symbol, FRIDAY, 1_999.65, 1_999.80, 1_999.05, 1_999.75, 900, 20.0)
    else Bar(symbol, FRIDAY, 1.0998, 1.1000, 1.0992, 1.0999, 900, 10.0)
  }

  function HourBar(symbol: string, time: int): Bar {
    Bar(symbol, time, 1_999.0, 2_001.0, 1_998.0, 2_000.0, 3_000, 20.0)
  }

  /** Enough hourly history for the detectors, all of it before that Friday evening. */
  function History(symbol: string): seq<Bar> {
    seq(HTF_WINDOW / 4 + 1, i => HourBar(symbol, (i + 120) * HOUR_MS))
  }

  /** The entry bar, and after the weekend one that closes at `price`, when the time stop is due. */
  function Gapping(symbol: string, price: real): seq<Bar> {
    [EntryBar(symbol), Bar(symbol, SUNDAY, price, 1.001 * price, 0.999 * price, price, 300, 30.0)]
  }

  /** After slippage both trades risk ten pips on half a lot. */
  function Bought(symbol: string): Trade {
    var sig := SignalOf(symbol);
    var entry, risk := if symbol == "XAUUSD" then 2_000.0 else 1.1, if symbol == "XAUUSD" then 1.0 else 0.001;
    Trade(symbol, Buy, entry, sig.sl, sig.tp1.value, sig.tp, risk, 0.5, 0.5, 10.0, FRIDAY, 0, false, 0.0, 3.5)
  }

  lemma HalfALot()
    ensures SizedLots(10_000.0, 10.0, 10.0) == 0.5
  {
    assert 10_000.0 * (RISK_PCT / 100.0) / (10.0 * 10.0) == 0.5;
    assert (0.5 / LOT_STEP).Floor == 50;
  }

  lemma BuyOpens(symbol: string)
    requires Traded(symbol)
    ensures Opened(SignalOf(symbol), symbol, 0, FRIDAY, PairOf(symbol), 10_000.0, 10.0) == Some(Bought(symbol))
  {
    HalfALot();
    if symbol == "XAUUSD" {
      GoldOpens(symbol);
    } else {
      assert symbol[0] == 'E';
      EuroOpens(symbol);
    }
  }

  lemma GoldOpens(symbol: string)
    requires symbol == "XAUUSD" && SizedLots(10_000.0, 10.0, 10.0) == 0.5
    ensures Opened(SignalOf(symbol), symbol, 0, FRIDAY, PairOf(symbol), 10_000.0, 10.0) == Some(Bought(symbol))
  {
    hide SizedLots;
    var pair := PairOf(symbol);
    assert SLIPPAGE_MARKET_FRAC_OF_MAX_SPREAD * pair.maxSpread * pair.pip == 0.25;
    assert 1.0 / pair.pip == 10.0;
  }

  lemma EuroOpens(symbol: string)
    requires symbol == "EURUSD" && symbol != "XAUUSD" && SizedLots(10_000.0, 10.0, 10.0) == 0.5
    ensures Opened(SignalOf(symbol), symbol, 0, FRIDAY, PairOf(symbol), 10_000.0, 10.0) == Some(Bought(symbol))
  {
    hide SizedLots;
    var pair := PairOf(symbol);
    assert SLIPPAGE_MARKET_FRAC_OF_MAX_SPREAD * pair.maxSpread * pair.pip == 0.0001;
    assert 0.001 / pair.pip == 10.0;
  }

  /** The pre-gate lets the entry bar through, and its spread is below the cap. */
  lemma EntryBarPasses(symbol: string, price: real)
    requires Traded(symbol)
    ensures |Gapping(symbol, price)| == 2 && Gapping(symbol, price)[0] == EntryBar(symbol)
    ensures IsCandidate(Gapping(symbol, price), 0) && EntryBar(symbol).spread / 10.0 <= PairOf(symbol).maxSpread
  {
    PinAtStart(Gapping(symbol, price));
  }

  lemma PinAtStart(bars: seq<Bar>)
    requires bars != [] && (bars[0] == EntryBar("XAUUSD") || bars[0] == EntryBar("EURUSD"))
    ensures IsCandidate(bars, 0)
  {
    assert "EURUSD"[0] != "XAUUSD"[0];
    assert IsPin(Buy, bars[0]);
    assert bars[0..0] == [];
  }

  /** The trade the detectors' signal makes of the first bar, with the whole history before it. */
  lemma BuyIsOffered(inp: Input, symbol: string, price: real, prices: map<string, real>)
    requires Traded(symbol) && inp.w == BuyAlways() && symbol in inp.ltf && symbol in inp.htf
    requires inp.ltf[symbol] == Gapping(symbol, price) && inp.htf[symbol] == History(symbol)
    ensures |inp.ltf[symbol]| == 2 && Advanced(inp.htf[symbol], -1, FRIDAY) == HTF_WINDOW / 4 < |inp.htf[symbol]|
    ensures NewTrade(inp, INITIAL_BALANCE, prices, Event(FRIDAY, symbol, 0), HTF_WINDOW / 4) == Some(Bought(symbol))
  {
    hide Opened, Advanced, History, IsCandidate, EntryBar, PairOf, SignalOf, Gapping, Bought, Traded;
    AdvancedIsLongestPrefix(inp.htf[symbol], -1, FRIDAY);
    WholeHistory(symbol);
    EntryBarPasses(symbol, price);
    BuyOpens(symbol);
  }

  /** Nothing stands in the way of an entry on that Friday. */
  ghost predicate ReadyFriday(s: State, symbol: string) {
    && symbol !in s.cursor && !s.failed && !s.halted && |s.open| < MAX_CONCURRENT && Count(s, 8) < MAX_TRADES_PER_DAY
    && s.book == Ledger(INITIAL_BALANCE, INITIAL_BALANCE, []) && 8 in s.dayStart && s.dayStart[8] == INITIAL_BALANCE
  }

  lemma BuyDecided(inp: Input, s: State, symbol: string, price: real)
    requires Traded(symbol) && inp.w == BuyAlways() && symbol in inp.ltf && symbol in inp.htf
    requires inp.ltf[symbol] == Gapping(symbol, price) && inp.htf[symbol] == History(symbol)
    requires ReadyFriday(s, symbol) && -1 <= CursorOf(s, symbol) < |inp.htf[symbol]|
    ensures var r := Decided(inp, s, Event(FRIDAY, symbol, 0));
      && r.open == s.open + [Bought(symbol)] && r.book == s.book && !r.failed && !r.halted
      && r.cursor == s.cursor[symbol := HTF_WINDOW / 4] && r.dayStart == s.dayStart
      && r.dayCount == s.dayCount[8 := Count(s, 8) + 1]
  {
    hide NewTrade, Advanced, Logged, History, Bought, Gapping, IsCandidate, Traded;
    var e := Event(FRIDAY, symbol, 0);
    assert CursorOf(s, symbol) == -1;
    BuyIsOffered(inp, symbol, price, s.prices);
    NothingBlocks(inp, s, e, price);
    assert LossPct(INITIAL_BALANCE, INITIAL_BALANCE) == 0.0;
  }

  lemma NothingBlocks(inp: Input, s: State, e: Event, price: real)
    requires inp.w == BuyAlways() && Traded(e.symbol) && e.symbol in inp.ltf && e.time == FRIDAY && e.k == 0
    requires inp.ltf[e.symbol] == Gapping(e.symbol, price)
    requires |s.open| < MAX_CONCURRENT && Count(s, 8) < MAX_TRADES_PER_DAY
    ensures |inp.ltf[e.symbol]| == 2 && !Blocked(inp, s, e)
  {
    hide IsCandidate, Gapping, Traded, EntryBar;
    EntryBarPasses(e.symbol, price);
  }

  /** The first bar of a pair opens a trade, as long as no other than trades of other pairs are open. */
  lemma BuyEnters(inp: Input, st: State, symbol: string, price: real)
    requires Traded(symbol) && inp.w == BuyAlways() && symbol in inp.ltf && symbol in inp.htf
    requires inp.ltf[symbol] == Gapping(symbol, price) && inp.htf[symbol] == History(symbol)
    requires CursorsFit(inp, st) && symbol !in st.cursor && !st.failed && !st.halted
    requires |st.open| < MAX_CONCURRENT && Count(st, 8) < MAX_TRADES_PER_DAY
    requires st.book == Ledger(INITIAL_BALANCE, INITIAL_BALANCE, [])
    requires (8 in st.dayStart ==> st.dayStart[8] == INITIAL_BALANCE)
    requires st.dayCount.Keys == st.dayStart.Keys && forall t :: t in st.open ==> t.symbol != symbol
    ensures var r := Step(inp, st, Event(FRIDAY, symbol, 0));
      && r.open == st.open + [Bought(symbol)] && r.book == st.book && !r.failed && !r.halted
      && r.cursor.Keys == st.cursor.Keys + {symbol}
      && 8 in r.dayStart && r.dayStart == (if 8 in st.dayStart then st.dayStart else st.dayStart[8 := INITIAL_BALANCE])
      && r.dayCount.Keys == r.dayStart.Keys && Count(r, 8) == Count(st, 8) + 1
  {
    hide Decided, WalkAll, History, Bought, Gapping, CursorsFit, Traded, IsCandidate, EntryBar;
    var e := Event(FRIDAY, symbol, 0);
    EntryBarPasses(symbol, price);
    WalkLeavesOthers(st.book, st.open, inp.ltf[symbol][0], e, inp.w.pair(symbol));
    ReadyShape(inp, st, e);
    CursorFits(inp, st, symbol);
    BuyDecided(inp, Ready(inp, st, e), symbol, price);
  }

  lemma WholeHistory(symbol: string)
    ensures |History(symbol)| == HTF_WINDOW / 4 + 1
    ensures forall i :: 0 <= i < |History(symbol)| ==> History(symbol)[i].time < FRIDAY
  {
  }

  lemma {:induction false} WalkLeavesOthers(b: Ledger, open: seq<Trade>, bar: Bar, e: Event, pair: Pair)
    requires forall t :: t in open ==> t.symbol != e.symbol
    ensures WalkAll(b, open, bar, e, pair) == Walk(b, open)
  {
    if open != [] {
      assert Last(open) in open;
      assert forall t :: t in Front(open) ==> t in open;
      WalkLeavesOthers(b, Front(open), bar, e, pair);
      assert open == Front(open) + [Last(open)];
    }
  }

  /** Dollars a price unit moves half a lot. */
  function PerUnit(symbol: string): real {
    if symbol == "XAUUSD" then 50.0 else 50_000.0
  }

  /** What the time stop makes of a bought trade. */
  function TimedOut(symbol: string, price: real): Closed {
    Closed(symbol, 0, SUNDAY, price, TIME_STOP, (price - Bought(symbol).entry) * PerUnit(symbol), 3.5)
  }

  lemma TimeStopPays(symbol: string, price: real)
    requires Traded(symbol)
    ensures ForceClosed(Bought(symbol), Gapping(symbol, price)[1], PairOf(symbol), TIME_STOP).closed
         == Some(TimedOut(symbol, price))
  {
    var t, pair: Pair := Bought(symbol), PairOf(symbol);
    assert Profit(t, pair, price, 0.5) == (price - t.entry) * PerUnit(symbol) by {
      if symbol == "XAUUSD" { assert 1.0 / pair.pip == 10.0; } else { assert 1.0 / pair.pip == 10_000.0; }
    }
  }

  /** After the weekend the time stop closes the pair's trade, and only then the new day is put on the books. */
  lemma TimeStopCloses(inp: Input, st: State, symbol: string, price: real, others: seq<Trade>)
    requires Traded(symbol) && inp.w == BuyAlways() && symbol in inp.ltf && inp.ltf[symbol] == Gapping(symbol, price)
    requires st.open == [Bought(symbol)] + others && forall t :: t in others ==> t.symbol != symbol
    ensures |inp.ltf[symbol]| == 2
    ensures var s := Ready(inp, st, Event(SUNDAY, symbol, 1));
      && s.book == Booking(st.book, TimedOut(symbol, price)) && s.open == others
      && 10 in s.dayStart && (10 !in st.dayStart ==> s.dayStart[10] == s.book.balance)
  {
    hide Updated, FridayClose, Booking, ForceClosed, Traded, EntryBar, PairOf, TimedOut;
    var e := Event(SUNDAY, symbol, 1);
    TimeStopPays(symbol, price);
    WalkFirst(st.book, Bought(symbol), others, inp.ltf[symbol][1], e, PairOf(symbol), TimedOut(symbol, price));
  }

  lemma {:induction false} WalkFirst(b: Ledger, t: Trade, others: seq<Trade>, bar: Bar, e: Event, pair: Pair, c: Closed)
    requires t.symbol == e.symbol && e.time - t.entryTime >= TIME_STOP_HOURS * HOUR_MS
    requires ForceClosed(t, bar, pair, TIME_STOP).closed == Some(c) && forall u :: u in others ==> u.symbol != e.symbol
    ensures WalkAll(b, [t] + others, bar, e, pair) == Walk(Booking(b, c), others)
  {
    hide Updated, FridayClose, Booking, ForceClosed;
    if others == [] {
      assert [t] + others == [t] && Front([t]) == [] && Last([t]) == t;
      assert WalkAll(b, [], bar, e, pair) == Walk(b, []);
    } else {
      assert Last(others) in others;
      assert forall u :: u in Front(others) ==> u in others;
      assert Front([t] + others) == [t] + Front(others) && Last([t] + others) == Last(others);
      WalkFirst(b, t, Front(others), bar, e, pair, c);
      assert others == Front(others) + [Last(others)];
    }
  }

  // ------------------------------------------------------------------ a halt that hides a loss

  /** Two pairs open lower after the same weekend. */
  function TwoGaps(): Input {
    Input(map["EURUSD" := History("EURUSD"), "XAUUSD" := History("XAUUSD")],
          map["EURUSD" := Gapping("EURUSD", 1.06), "XAUUSD" := Gapping("XAUUSD", 1_960.0)],
          [Event(FRIDAY, "EURUSD", 0), Event(FRIDAY, "XAUUSD", 0),
           Event(SUNDAY, "EURUSD", 1), Event(SUNDAY, "XAUUSD", 1)],
          BuyAlways())
  }

  lemma NamesDiffer()
    ensures "EURUSD" != "XAUUSD"
  {
    assert "EURUSD"[0] != "XAUUSD"[0];
  }

  lemma TwoGapsAreProper()
    ensures Proper(TwoGaps())
    ensures TwoGaps().ltf["EURUSD"] == Gapping("EURUSD", 1.06) && TwoGaps().htf["EURUSD"] == History("EURUSD")
    ensures TwoGaps().ltf["XAUUSD"] == Gapping("XAUUSD", 1_960.0) && TwoGaps().htf["XAUUSD"] == History("XAUUSD")
  {
    hide History;
    NamesDiffer();
  }

  /** The state in which two trades are open and nothing has happened to them yet. */
  lemma TwoGapsOpen()
    ensures Proper(TwoGaps())
    ensures After(TwoGaps(), 1).book == After(TwoGaps(), 2).book == Ledger(10_000.0, 10_000.0, [])
    ensures var st := After(TwoGaps(), 2);
      st.open == [Bought("EURUSD")] + [Bought("XAUUSD")] && !st.failed && !st.halted && 10 !in st.dayStart
  {
    hide Step, History, Bought, Gapping;
    TwoGapsAreProper();
    NamesDiffer();
    var inp := TwoGaps();
    assert After(inp, 0) == Start(inp);
    BuyEnters(inp, Start(inp), "EURUSD", 1.06);
    assert After(inp, 1) == Step(inp, Start(inp), Event(FRIDAY, "EURUSD", 0));
    assert Bought("EURUSD").symbol == "EURUSD" by { SymbolOf("EURUSD"); }
    BuyEnters(inp, After(inp, 1), "XAUUSD", 1_960.0);
    assert After(inp, 2) == Step(inp, After(inp, 1), Event(FRIDAY, "XAUUSD", 0));
  }

  lemma SymbolOf(symbol: string)
    ensures Bought(symbol).symbol == symbol
  {
  }

  /** A fresh day on which the total drawdown is found to be too large. */
  lemma HaltingStep(inp: Input, st: State, e: Event)
    requires e.symbol in inp.ltf && e.k < |inp.ltf[e.symbol]| && e.symbol in inp.htf && CursorsFit(inp, st)
    requires !st.failed && !st.halted
    requires var s, day := Ready(inp, st, e), DateKey(e.time);
      && day in s.dayStart && s.dayStart[day] == s.book.balance > 0.0 && s.book.peak > 0.0
      && LossPct(s.book.peak, s.book.balance) >= TOTAL_DD_PCT_HARD
    ensures var s, r := Ready(inp, st, e), Step(inp, st, e);
      r.halted && !r.failed && r.book == s.book && r.open == s.open
  {
    hide Walked, DayOpened, Gated, Logged, DateKey;
    ReadyShape(inp, st, e);
  }

  /** A halted run only manages what is open. */
  lemma HaltedStep(inp: Input, st: State, e: Event)
    requires e.symbol in inp.ltf && e.k < |inp.ltf[e.symbol]| && e.symbol in inp.htf && CursorsFit(inp, st)
    requires !st.failed && st.halted
    ensures var s, r := Ready(inp, st, e), Step(inp, st, e);
      r.halted && !r.failed && r.book == s.book && r.open == s.open
  {
    hide Walked, DayOpened, Gated, Logged, DateKey, LossPct;
    ReadyShape(inp, st, e);
  }

  /** What the two time stops pay. */
  lemma GapsPay()
    ensures Net(TimedOut("EURUSD", 1.06)) == -2_003.5 && Net(TimedOut("XAUUSD", 1_960.0)) == -2_003.5
    ensures Net(TimedOut("XAUUSD", 1_800.07)) == -10_000.0
  {
    NamesDiffer();
  }

  /** The first close loses a fifth of the balance and halts the run, the second one as much again. */
  lemma TwoGapsHalt()
    ensures Proper(TwoGaps())
    ensures var st := After(TwoGaps(), 3);
      st.halted && !st.failed && st.book.balance == 7_996.5 && st.open == [Bought("XAUUSD")]
  {
    hide History, Gapping, Ready, Bought, Step, TimedOut;
    TwoGapsOpen();
    TwoGapsAreProper();
    NamesDiffer();
    GapsPay();
    var inp := TwoGaps();
    var st, e := After(inp, 2), Event(SUNDAY, "EURUSD", 1);
    SymbolOf("XAUUSD");
    TimeStopCloses(inp, st, "EURUSD", 1.06, [Bought("XAUUSD")]);
    HaltingStep(inp, st, e);
    assert After(inp, 3) == Step(inp, st, e);
  }

  lemma TwoGapsEnd()
    ensures Proper(TwoGaps())
    ensures var st := After(TwoGaps(), 4); st.halted && !st.failed && st.book.balance == 5_993.0 && st.open == []
  {
    hide History, Gapping, Ready, Bought, Step, TimedOut;
    TwoGapsHalt();
    TwoGapsAreProper();
    GapsPay();
    var inp := TwoGaps();
    var st, e := After(inp, 3), Event(SUNDAY, "XAUUSD", 1);
    assert [Bought("XAUUSD")] + [] == [Bought("XAUUSD")];
    TimeStopCloses(inp, st, "XAUUSD", 1_960.0, []);
    HaltedStep(inp, st, e);
    assert After(inp, 4) == Step(inp, st, e);
  }

  lemma TwoGapsOutcome()
    ensures Proper(TwoGaps()) && |TwoGaps().events| == 4
    ensures Outcome(TwoGaps()) == After(TwoGaps(), 4) && !Sampled(TwoGaps())
  {
    hide After;
    TwoGapsAreProper();
    TwoGapsEnd();
    OpenIsClosable(TwoGaps(), 4);
  }

  lemma TwoGapsBalances()
    ensures Proper(TwoGaps()) && |TwoGaps().events| == 4
    ensures Balances(TwoGaps(), 3) == [10_000.0, 10_000.0, 10_000.0, 7_996.5]
    ensures AllBalances(TwoGaps()) == [10_000.0, 10_000.0, 10_000.0, 7_996.5, 5_993.0, 5_993.0]
  {
    hide After, TwoGaps, Outcome;
    TwoGapsOpen();
    TwoGapsHalt();
    TwoGapsEnd();
    TwoGapsOutcome();
    var inp := TwoGaps();
    assert Balances(inp, 0) == [10_000.0];
    assert Balances(inp, 1) == [10_000.0, 10_000.0];
    assert Balances(inp, 2) == [10_000.0, 10_000.0, 10_000.0];
    assert Balances(inp, 4) == [10_000.0, 10_000.0, 10_000.0, 7_996.5, 5_993.0];
  }

  lemma FallsOf(a: seq<real>)
    requires a == [10_000.0, 10_000.0, 10_000.0, 7_996.5]
    ensures Drawdown(a) == 20.035 && Peak(a) == 10_000.0
  {
    hide FallPct, Peak, Drawdown;
    FirstValue(a);
    OneMoreValue(a, 1);
    OneMoreValue(a, 2);
    OneMoreValue(a, 3);
    assert a[..4] == a;
    assert FallPct(10_000.0, 7_996.5) == 20.035 && FallPct(10_000.0, 10_000.0) == 0.0 by { Percentages(); }
  }

  lemma Percentages()
    ensures FallPct(10_000.0, 10_000.0) == 0.0 && FallPct(10_000.0, 7_996.5) == 20.035
    ensures FallPct(10_000.0, 5_993.0) == 40.07
  {
  }

  /** The report says 20.035 percent; the balance fell by more than 40. */
  lemma HaltHidesLoss()
    ensures var inp := TwoGaps();
      && Proper(inp) && |inp.events| == 4 && !Outcome(inp).failed && !After(inp, 2).halted && After(inp, 3).halted
      && Reported(inp) == 20.035 && Drawdown(AllBalances(inp)) >= 40.07 && !NoDeeperFall(inp, 3)
  {
    hide After, Outcome, Sampled, AllBalances, Balances, Peak, Drawdown, FallPct, Values, Compressed, TwoGaps;
    TwoGapsOpen();
    TwoGapsHalt();
    TwoGapsEnd();
    TwoGapsOutcome();
    TwoGapsBalances();
    var inp := TwoGaps();
    FinishedCurve(inp, 3);
    CompressionKeepsDrawdown(Shown(inp, 3));
    assert Shown(inp, 3) == Balances(inp, 3);
    FallsOf(Balances(inp, 3));
    Percentages();
    var all := AllBalances(inp);
    assert all[..5] == [10_000.0, 10_000.0, 10_000.0, 7_996.5, 5_993.0];
    FallsOf(all[..4]);
    OneMoreValue(all, 4);
    DrawdownBound(all, 5, Drawdown(all));
    assert FallAt(all, 4) == 40.07;
  }

  // ------------------------------------------------------------------ a balance of zero

  /** Gold loses exactly the whole balance, commission included. */
  function Wipeout(): Input {
    Input(map["XAUUSD" := History("XAUUSD")], map["XAUUSD" := Gapping("XAUUSD", 1_800.07)],
          [Event(FRIDAY, "XAUUSD", 0), Event(SUNDAY, "XAUUSD", 1)], BuyAlways())
  }

  lemma WipeoutIsProper()
    ensures Proper(Wipeout())
  {
    hide History;
  }

  lemma WipeoutOpens()
    ensures Proper(Wipeout())
    ensures var st := After(Wipeout(), 1);
      && st.book == Ledger(10_000.0, 10_000.0, []) && st.open == [Bought("XAUUSD")] + []
      && !st.failed && !st.halted && 10 !in st.dayStart
  {
    hide Step, History, Bought, Gapping;
    WipeoutIsProper();
    var inp := Wipeout();
    assert After(inp, 0) == Start(inp);
    BuyEnters(inp, Start(inp), "XAUUSD", 1_800.07);
    assert After(inp, 1) == Step(inp, Start(inp), Event(FRIDAY, "XAUUSD", 0));
  }

  /** The new day starts at a balance of zero, and the run ends there with the division by it. */
  lemma WipeoutFails()
    ensures var inp := Wipeout();
      && Proper(inp) && |inp.events| == 2 && !After(inp, 1).failed && !After(inp, 1).halted
      && After(inp, 2).failed && After(inp, 2).book.balance == 0.0
  {
    hide Step, History, Gapping, Ready, Bought, TimedOut;
    WipeoutOpens();
    GapsPay();
    var inp := Wipeout();
    var st, e := After(inp, 1), Event(SUNDAY, "XAUUSD", 1);
    TimeStopCloses(inp, st, "XAUUSD", 1_800.07, []);
    ReadyShape(inp, st, e);
    StepShape(inp, st, e);
    FailsExactlyOnZeroDayStart(inp, 1);
    assert After(inp, 2) == Step(inp, st, e);
  }
}
