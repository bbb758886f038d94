/** The NY Gold backtest harness (strategy/ny_gold_backtest.py): one decision per closed 1M bar. */
module NyGoldBacktest {
  import opened Clock
  import opened Common
  import opened NyGoldData
  import opened NyGoldDetector

  const INITIAL_BALANCE := 100000.0
  const RISK_PCT := 0.5
  const USD_PER_PIP_PER_LOT := 100.0
  const COMMISSION_PER_LOT := 7.0
  const LOT_MIN := 0.01
  const LOT_STEP := 0.01
  const LOT_MAX := 50.0
  const POINTS_PER_PIP := 100.0
  const DEFAULT_SPREAD_PIPS := 0.45
  const SLIPPAGE_PIPS := 0.2
  const SESSION_START_HOUR := 12
  const SESSION_END_HOUR := 17
  const SESSION_SKIP_FIRST_MIN := 1
  const NO_NEW_ENTRY_LAST_MIN := 5
  const TIME_STOP_MIN := 45
  const DAILY_DD_HALT_PCT := 5.0
  const TOTAL_DD_HALT_PCT := 10.0
  const MAX_TRADES_PER_DAY := 3
  const COOLDOWN_AFTER_LOSS_MIN := 30
  const COOLDOWN_AFTER_TWO_LOSSES_MIN := 60

  datatype Reason = SlHit | TpHit | SlMinHold | TpMinHold | TimeStop | SessionFlatten | DataEnd

  /** A price and why the trade leaves there. */
  datatype Exit = Exit(price: real, reason: Reason)

  /** `signal` is what the trade was filled from; the original copies its level, grade and reversal for the report. */
  datatype OpenTrade = OpenTrade(
    dir: Direction, entryIdx: nat, entryTime: int, entryPrice: real, sl: real, tp: real, lot: real,
    riskPips: real, riskUsd: real, deferred: Option<Exit>, signal: Signal)

  datatype ClosedTrade = ClosedTrade(
    trade: OpenTrade, exitIdx: nat, exitTime: int, exit: Exit, pnlUsd: real, balanceAfter: real)

  /** Everything the main loop carries from bar to bar. */
  datatype Run = Run(
    balance: real, sodBalance: real, sodDay: int, dailyCount: nat, dailyHalted: bool, totalHalted: bool,
    lossStreak: nat, cooldownUntil: Option<int>, open: Option<OpenTrade>, pending: Option<Signal>,
    memory: Memory, closed: seq<ClosedTrade>, equity: seq<(int, real)>)

  const FRESH_RUN :=
    Run(INITIAL_BALANCE, INITIAL_BALANCE, -1, 0, false, false, 0, None, None, None, NO_MEMORY, [], [])

  /** Whether a time falls in a news blackout. */
  type News = int -> bool

  // ------------------------------------------------------------------ money

  function RoundLot(raw: real): real {
    Max(LOT_MIN, Min(LOT_MAX, (raw / LOT_STEP + 0.000000001).Floor as real * LOT_STEP))
  }

  function HalfSpread(spread: Option<real>): real {
    var points := if spread.None? || spread.value <= 0.0 then DEFAULT_SPREAD_PIPS * POINTS_PER_PIP else spread.value;
    points / POINTS_PER_PIP / 2.0 * PIP_SIZE
  }

  /** The side of the spread a position of this direction exits at: bid for longs, ask for shorts. */
  function ExitSide(dir: Direction, mid: real, spread: Option<real>): real {
    Shift(dir, mid, -HalfSpread(spread))
  }

  function NetPnl(ot: OpenTrade, exitPrice: real): real {
    Gain(ot.dir, ot.entryPrice, exitPrice) / PIP_SIZE * ot.lot * USD_PER_PIP_PER_LOT - ot.lot * COMMISSION_PER_LOT
  }

  // ------------------------------------------------------------------ one bar of position management

  predicate StopHit(ot: OpenTrade, b: GoldBar) {
    Gain(ot.dir, ot.sl, ExitSide(ot.dir, Extreme(ot.dir, b), b.spread)) <= 0.0
  }

  predicate TargetHit(ot: OpenTrade, b: GoldBar) {
    Gain(ot.dir, ot.tp, ExitSide(ot.dir, Extreme(Opposite(ot.dir), b), b.spread)) >= 0.0
  }

  /** How the bar ends the trade, if it does. The entry bar never does; the stop wins over the target. */
  function Managed(ot: OpenTrade, b: GoldBar, idx: nat): Option<Exit> {
    if idx == ot.entryIdx then None
    else if ot.deferred.Some? && idx == ot.entryIdx + 1 then ot.deferred
    else if Hour(b.time) >= SESSION_END_HOUR then Some(Exit(ExitSide(ot.dir, b.open, b.spread), SessionFlatten))
    else if b.time - ot.entryTime >= TIME_STOP_MIN * MINUTE_MS then
      Some(Exit(ExitSide(ot.dir, b.open, b.spread), TimeStop))
    else if StopHit(ot, b) then Some(Exit(ot.sl, SlHit))
    else if TargetHit(ot, b) then Some(Exit(ot.tp, TpHit))
    else None
  }

  /** Booking an exit: balance, loss streak and cooldown. */
  function Booked(s: Run, ot: OpenTrade, idx: nat, time: int, e: Exit): Run {
    var pnl := NetPnl(ot, e.price);
    var streak := if pnl <= 0.0 then s.lossStreak + 1 else 0;
    var wait := if streak >= 2 then COOLDOWN_AFTER_TWO_LOSSES_MIN else COOLDOWN_AFTER_LOSS_MIN;
    s.(balance := s.balance + pnl,
       lossStreak := streak,
       cooldownUntil := if pnl <= 0.0 then Some(time + wait * MINUTE_MS) else None,
       closed := s.closed + [ClosedTrade(ot, idx, time, e, pnl, s.balance + pnl)],
       open := None)
  }

  function AfterManagement(s: Run, b: GoldBar, idx: nat): Run {
    if s.open.None? then s
    else
      var e := Managed(s.open.value, b, idx);
      if e.None? then s else Booked(s, s.open.value, idx, b.time, e.value)
  }

  // ------------------------------------------------------------------ day roll and drawdown halts

  function AfterDayRoll(s: Run, b: GoldBar): Run {
    if DateKey(b.time) == s.sodDay then s
    else s.(sodDay := DateKey(b.time), sodBalance := s.balance, dailyCount := 0, dailyHalted := false, lossStreak := 0)
  }

  predicate TotalDrawdown(s: Run) {
    s.balance <= INITIAL_BALANCE * (1.0 - TOTAL_DD_HALT_PCT / 100.0)
  }

  function AfterDailyHalt(s: Run): Run {
    s.(dailyHalted := s.dailyHalted || s.balance <= s.sodBalance * (1.0 - DAILY_DD_HALT_PCT / 100.0))
  }

  // ------------------------------------------------------------------ the pending entry

  /** The balance the sizing reads: the last equity sample, not the running balance. */
  function SizingBalance(s: Run): real {
    if s.equity != [] then Last(s.equity).1
    else if s.closed != [] then Last(s.closed).balanceAfter
    else INITIAL_BALANCE
  }

  function EntryPrice(dir: Direction, b: GoldBar): real {
    Shift(dir, b.open, HalfSpread(b.spread) + SLIPPAGE_PIPS * PIP_SIZE)
  }

  /** An exit the entry bar itself would have triggered waits for the next bar; the stop wins over the target. */
  function Deferred(sig: Signal, b: GoldBar): Option<Exit> {
    if Gain(sig.dir, sig.sl, ExitSide(sig.dir, Extreme(sig.dir, b), b.spread)) <= 0.0 then Some(Exit(sig.sl, SlMinHold))
    else if Gain(sig.dir, sig.tp, ExitSide(sig.dir, Extreme(Opposite(sig.dir), b), b.spread)) >= 0.0 then
      Some(Exit(sig.tp, TpMinHold))
    else None
  }

  /** The fill, refused when the actual entry leaves too little risk. */
  function Filled(sig: Signal, b: GoldBar, idx: nat, balance: real): (r: Option<OpenTrade>)
    ensures r.Some? ==>
      r.value.entryIdx == idx && r.value.entryTime == b.time && r.value.lot > 0.0 && r.value.signal == sig
  {
    var entry := EntryPrice(sig.dir, b);
    var riskPips := Gain(sig.dir, sig.sl, entry) / PIP_SIZE;
    if riskPips < MIN_RISK_PIPS then None
    else
      var riskUsd := balance * RISK_PCT / 100.0;
      var lot := RoundLot(riskUsd / (riskPips * USD_PER_PIP_PER_LOT));
      if lot <= 0.0 then None
      else Some(OpenTrade(sig.dir, idx, b.time, entry, sig.sl, sig.tp, lot, riskPips, riskUsd, Deferred(sig, b), sig))
  }

  predicate MayEnter(s: Run) {
    !s.dailyHalted && !s.totalHalted && s.dailyCount < MAX_TRADES_PER_DAY
  }

  function AfterFill(s: Run, b: GoldBar, idx: nat): Run {
    if s.pending.None? || s.open.Some? then s
    else
      var ot := if MayEnter(s) then Filled(s.pending.value, b, idx, SizingBalance(s)) else None;
      s.(open := ot, pending := None, dailyCount := if ot.Some? then s.dailyCount + 1 else s.dailyCount)
  }

  // ------------------------------------------------------------------ the detector call

  /** The bar is inside the session and past its first minute. */
  predicate DetectorBar(b: GoldBar) {
    && InSession(b.time, SESSION_START_HOUR, SESSION_END_HOUR)
    && !(Hour(b.time) == SESSION_START_HOUR && Minute(b.time) < SESSION_SKIP_FIRST_MIN)
  }

  predicate LateForEntry(b: GoldBar) {
    Hour(b.time) * 60 + Minute(b.time) >= SESSION_END_HOUR * 60 - NO_NEW_ENTRY_LAST_MIN
  }

  predicate GatesBlock(s: Run, b: GoldBar, t: int) {
    || s.open.Some? || s.dailyHalted || s.totalHalted || s.dailyCount >= MAX_TRADES_PER_DAY || LateForEntry(b)
    || (s.cooldownUntil.Some? && t < s.cooldownUntil.value)
  }

  /** What a decision at `t` may see. */
  datatype View = View(t: int, v1: Frame, v5: Frame, v15: Frame)

  function ViewAt(d: Data, t: int): (v: View)
    ensures v.t == t
  {
    View(t, Slice(d.oneM, t), Slice(d.fiveM, t), Slice(d.fifteenM, t))
  }

  function AfterDetector(mode: TpMode, news: News, s: Run, b: GoldBar, idx: nat, v: View): Run
    requires idx < |v.v1.bars|
  {
    if !DetectorBar(b) || GatesBlock(s, b, v.t) then s
    else
      var d := Decide(mode, s.memory, v.t, idx, v.v1, v.v5, v.v15);
      s.(memory := d.memory, pending := if d.signal.Some? && !news(v.t) then d.signal else s.pending)
  }

  // ------------------------------------------------------------------ one decision, and the run

  function Logged(s: Run, b: GoldBar): Run {
    s.(equity := s.equity + [(b.time, s.balance)])
  }

  /** Once the day has rolled, a breached total drawdown skips everything but the equity sample. */
  function Decision(mode: TpMode, news: News, s: Run, b: GoldBar, idx: nat, v: View): Run
    requires idx < |v.v1.bars|
  {
    var s2 := AfterDayRoll(AfterManagement(s, b, idx), b);
    if TotalDrawdown(s2) then Logged(s2.(totalHalted := true), b)
    else Logged(AfterDetector(mode, news, AfterFill(AfterDailyHalt(s2), b, idx), b, idx, v), b)
  }

  /** The decision at the close of 1M bar `idx`. */
  function DecisionAt(mode: TpMode, news: News, s: Run, d: Data, idx: nat): Run
    requires SortedData(d) && idx < |d.oneM.bars|
  {
    Decision(mode, news, s, d.oneM.bars[idx], idx, ViewAt(d, CloseTime(d.oneM, idx)))
  }

  /** The state after the first `n` decisions. */
  function After(mode: TpMode, news: News, d: Data, n: nat): Run
    requires SortedData(d) && n <= |d.oneM.bars|
  {
    if n == 0 then FRESH_RUN else DecisionAt(mode, news, After(mode, news, d, n - 1), d, n - 1)
  }

  /** The exit of a trade still open when the data end: the open of the last bar. */
  function DataEndExit(ot: OpenTrade, b: GoldBar): Exit {
    Exit(ExitSide(ot.dir, b.open, b.spread), DataEnd)
  }

  function Finished(s: Run, d: Data): Run
    requires s.open.Some? ==> d.oneM.bars != []
  {
    if s.open.None? then s
    else
      var last := |d.oneM.bars| - 1;
      Booked(s, s.open.value, last, d.oneM.bars[last].time, DataEndExit(s.open.value, d.oneM.bars[last]))
  }

  // ------------------------------------------------------------------ the harness

  class Backtest {
    const news: News
    const detector: NYGoldSweepDetector
    var balance: real
    var sodBalance: real
    var sodDay: int
    var dailyCount: nat
    var dailyHalted: bool
    var totalHalted: bool
    var lossStreak: nat
    var cooldownUntil: Option<int>
    var open: Option<OpenTrade>
    var pending: Option<Signal>
    var closed: seq<ClosedTrade>
    var equity: seq<(int, real)>

    function State(): Run
      reads this, detector
    {
      Run(balance, sodBalance, sodDay, dailyCount, dailyHalted, totalHalted, lossStreak, cooldownUntil, open, pending,
          detector.View(), closed, equity)
    }

    constructor (mode: TpMode, news: News)
      ensures fresh(detector) && detector.mode == mode && this.news == news && State() == FRESH_RUN
    {
      this.news := news;
      detector := new NYGoldSweepDetector(mode);
      balance, sodBalance, sodDay := INITIAL_BALANCE, INITIAL_BALANCE, -1;
      dailyCount, dailyHalted, totalHalted, lossStreak := 0, false, false, 0;
      cooldownUntil, open, pending, closed, equity := None, None, None, [], [];
    }

    method CloseTrade(ot: OpenTrade, idx: nat, time: int, e: Exit)
      modifies this
      ensures State() == Booked(old(State()), ot, idx, time, e)
    {
      var pnlPrice := if ot.dir == Buy then e.price - ot.entryPrice else ot.entryPrice - e.price;
      var gross := pnlPrice / PIP_SIZE * ot.lot * USD_PER_PIP_PER_LOT;
      var net := gross - ot.lot * COMMISSION_PER_LOT;
      assert net == NetPnl(ot, e.price);
      balance := balance + net;
      if net <= 0.0 {
        lossStreak := lossStreak + 1;
        var minutes := if lossStreak >= 2 then COOLDOWN_AFTER_TWO_LOSSES_MIN else COOLDOWN_AFTER_LOSS_MIN;
        cooldownUntil := Some(time + minutes * MINUTE_MS);
      } else {
        lossStreak := 0;
        cooldownUntil := None;
      }
      closed := closed + [ClosedTrade(ot, idx, time, e, net, balance)];
      open := None;
    }

    method ManagePosition(b: GoldBar, idx: nat)
      modifies this
      ensures State() == AfterManagement(old(State()), b, idx)
    {
      if open.None? { return; }
      var ot := open.value;
      if idx == ot.entryIdx { return; }
      if ot.deferred.Some? && idx == ot.entryIdx + 1 {
        CloseTrade(ot, idx, b.time, ot.deferred.value);
        return;
      }
      if Hour(b.time) >= SESSION_END_HOUR {
        CloseTrade(ot, idx, b.time, Exit(ExitSide(ot.dir, b.open, b.spread), SessionFlatten));
        return;
      }
      if b.time - ot.entryTime >= TIME_STOP_MIN * MINUTE_MS {
        CloseTrade(ot, idx, b.time, Exit(ExitSide(ot.dir, b.open, b.spread), TimeStop));
        return;
      }
      var half := HalfSpread(b.spread);
      var hitSl, hitTp;
      if ot.dir == Buy {
        hitSl, hitTp := b.low - half <= ot.sl, b.high - half >= ot.tp;
      } else {
        hitSl, hitTp := b.high + half >= ot.sl, b.low + half <= ot.tp;
      }
      if hitSl {
        CloseTrade(ot, idx, b.time, Exit(ot.sl, SlHit));
      } else if hitTp {
        CloseTrade(ot, idx, b.time, Exit(ot.tp, TpHit));
      }
    }

    method RollDay(b: GoldBar)
      modifies this
      ensures State() == AfterDayRoll(old(State()), b)
    {
      var day := DateKey(b.time);
      if day != sodDay {
        sodDay, sodBalance, dailyCount, dailyHalted, lossStreak := day, balance, 0, false, 0;
      }
    }

    method FillPending(b: GoldBar, idx: nat)
      modifies this
      ensures State() == AfterFill(old(State()), b, idx)
    {
      if pending.None? || open.Some? { return; }
      if !dailyHalted && !totalHalted && dailyCount < MAX_TRADES_PER_DAY {
        open := Filled(pending.value, b, idx, SizingBalance(State()));
        if open.Some? { dailyCount := dailyCount + 1; }
      }
      pending := None;
    }

    method CallDetector(b: GoldBar, idx: nat, v: View)
      requires idx < |v.v1.bars|
      modifies this, detector
      ensures State() == AfterDetector(detector.mode, news, old(State()), b, idx, v)
    {
      if !InSession(b.time, SESSION_START_HOUR, SESSION_END_HOUR) { return; }
      var h, m := Hour(b.time), Minute(b.time);
      if h == SESSION_START_HOUR && m < SESSION_SKIP_FIRST_MIN { return; }
      var late := h * 60 + m >= SESSION_END_HOUR * 60 - NO_NEW_ENTRY_LAST_MIN;
      var blocked := open.Some? || dailyHalted || totalHalted || dailyCount >= MAX_TRADES_PER_DAY || late;
      if cooldownUntil.Some? && v.t < cooldownUntil.value { blocked := true; }
      var inBlackout := news(v.t);
      if !blocked {
        var sig := detector.Detect(v.t, idx, v.v1, v.v5, v.v15);
        if sig.Some? && !inBlackout { pending := sig; }
      }
    }

    method Decide(b: GoldBar, idx: nat, v: View)
      requires idx < |v.v1.bars|
      modifies this, detector
      ensures State() == Decision(detector.mode, news, old(State()), b, idx, v)
    {
      ManagePosition(b, idx);
      RollDay(b);
      if balance <= INITIAL_BALANCE * (1.0 - TOTAL_DD_HALT_PCT / 100.0) {
        totalHalted := true;
      } else {
        if !dailyHalted && balance <= sodBalance * (1.0 - DAILY_DD_HALT_PCT / 100.0) {
          dailyHalted := true;
        }
        FillPending(b, idx);
        CallDetector(b, idx, v);
      }
      equity := equity + [(b.time, balance)];
    }
  }

  /** One pass of the main loop: cut the visible slices, run the look-ahead guard, decide. */
  method DecideAt(bt: Backtest, d: Data, idx: nat)
    requires SortedData(d) && idx < |d.oneM.bars|
    modifies bt, bt.detector
    ensures bt.State() == DecisionAt(bt.detector.mode, bt.news, old(bt.State()), d, idx)
  {
    var t := CloseTime(d.oneM, idx);
    var v := ViewAt(d, t);
    var guard := AssertNoLookahead(t, [v.v1, v.v5, v.v15]);
    assert guard.Ok? by {
      SliceIsClosedBars(d.oneM, t);
      SliceIsClosedBars(d.fiveM, t);
      SliceIsClosedBars(d.fifteenM, t);
    }
    bt.Decide(d.oneM.bars[idx], idx, v);
  }

  /** The defensive close of a trade that is still open when the data end. */
  method CloseAtDataEnd(bt: Backtest, d: Data)
    requires bt.open.Some? ==> d.oneM.bars != []
    modifies bt
    ensures bt.State() == Finished(old(bt.State()), d)
  {
    if bt.open.Some? {
      var ot, last := bt.open.value, |d.oneM.bars| - 1;
      var b := d.oneM.bars[last];
      var sign := if ot.dir == Buy then 1.0 else -1.0;
      bt.CloseTrade(ot, last, b.time, Exit(b.open - HalfSpread(b.spread) * sign, DataEnd));
    }
  }

  /** The whole backtest. The look-ahead guard of the original never fires, so no decision is refused. */
  method RunBacktest(mode: TpMode, news: News, d: Data) returns (r: Run)
    requires SortedData(d)
    ensures r == Finished(After(mode, news, d, |d.oneM.bars|), d)
  {
    hide DecisionAt, SortedData;
    var bt := new Backtest(mode, news);
    for idx := 0 to |d.oneM.bars|
      invariant fresh(bt) && fresh(bt.detector) && bt.detector.mode == mode && bt.news == news
      invariant bt.State() == After(mode, news, d, idx)
    {
      DecideAt(bt, d, idx);
    }
    CloseAtDataEnd(bt, d);
    r := bt.State();
  }
}
