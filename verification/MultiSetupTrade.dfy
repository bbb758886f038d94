/** One trade of the multi-setup backtest: its life on bars and its opening (scripts/multi_setup_backtest.py). */
module MultiSetupTrade {
  import opened Common
  import opened Market

  const RISK_PCT := 0.5
  const MIN_RISK_PIPS := 5.0
  const TP1_R := 1.5
  const TRAIL_STEP_R := 0.30
  const PARTIAL_FRACTION := 0.50
  const SLIPPAGE_MARKET_FRAC_OF_MAX_SPREAD := 0.5
  const COMMISSION_PER_LOT_ROUNDTURN_USD := 7.0
  const LOT_MIN := 0.01
  const LOT_STEP := 0.01
  const LOT_MAX := 50.0

  type Positive = x: real | x > 0.0 witness 1.0

  /** What the configuration tables say about a pair; the spread cap is in pips. */
  datatype Pair = Pair(pip: Positive, maxSpread: Positive)

  datatype Reason = SL | TRAIL | TP2 | TIME_STOP | FRIDAY_FLATTEN | END_OF_DATA

  /** The value of an `OpenTrade`. */
  datatype Trade = Trade(
    symbol: string, dir: Direction, entry: real, sl: real, tp1: real, tp2: real, risk: real,
    lots: real, remaining: real, pipValue: real, entryTime: int, entryIdx: nat,
    tp1Hit: bool, realized: real, commission: real)

  /** The record of a finished trade; `gross` is what it realised. */
  datatype Closed = Closed(symbol: string, entryIdx: nat, time: int, price: real, reason: Reason, gross: real,
                           commission: real)

  function Net(c: Closed): real {
    c.gross - c.commission
  }

  /** A trade is identified by the bar it was opened on. */
  datatype Ticket = Ticket(symbol: string, entryIdx: nat)

  function TicketOf(t: Trade): Ticket {
    Ticket(t.symbol, t.entryIdx)
  }

  function ClosedTicket(c: Closed): Ticket {
    Ticket(c.symbol, c.entryIdx)
  }

  function Profit(t: Trade, pair: Pair, price: real, lots: real): real {
    Gain(t.dir, t.entry, price) * lots * (1.0 / pair.pip) * t.pipValue
  }

  function CloseRecord(t: Trade, bar: Bar, price: real, reason: Reason): Closed {
    Closed(t.symbol, t.entryIdx, bar.time, price, reason, t.realized, t.commission)
  }

  function Booked(t: Trade, pair: Pair, price: real): Trade {
    t.(realized := t.realized + Profit(t, pair, price, t.remaining))
  }

  predicate StopHit(t: Trade, bar: Bar) {
    Gain(t.dir, t.sl, Worst(t.dir, bar)) <= 0.0
  }

  predicate TargetHit(t: Trade, target: real, bar: Bar) {
    Gain(t.dir, target, Best(t.dir, bar)) >= 0.0
  }

  /** Half off at the first target and the stop to break-even plus half the spread cap. */
  function AfterTp1(t: Trade, bar: Bar, pair: Pair): Trade {
    if !t.tp1Hit && TargetHit(t, t.tp1, bar) then
      t.(realized := t.realized + Profit(t, pair, t.tp1, t.remaining * PARTIAL_FRACTION),
         remaining := t.remaining - t.remaining * PARTIAL_FRACTION,
         tp1Hit := true,
         sl := Shift(t.dir, t.entry, 0.5 * pair.maxSpread * pair.pip))
    else t
  }

  function AfterTrail(t: Trade, bar: Bar): Trade {
    var stop := Shift(t.dir, bar.close, -(TRAIL_STEP_R * t.risk));
    if t.tp1Hit && Gain(t.dir, t.sl, stop) > 0.0 then t.(sl := stop) else t
  }

  datatype Update = Update(trade: Trade, closed: Option<Closed>)

  function Updated(t: Trade, bar: Bar, pair: Pair): Update {
    if StopHit(t, bar) then
      var done := Booked(t, pair, t.sl);
      Update(done, Some(CloseRecord(done, bar, t.sl, if t.tp1Hit then TRAIL else SL)))
    else
      var u := AfterTp1(t, bar, pair);
      if u.tp1Hit && TargetHit(u, u.tp2, bar) then
        var done := Booked(u, pair, u.tp2);
        Update(done, Some(CloseRecord(done, bar, u.tp2, TP2)))
      else Update(AfterTrail(u, bar), None)
  }

  function ForceClosed(t: Trade, bar: Bar, pair: Pair, reason: Reason): Update {
    var done := Booked(t, pair, bar.close);
    Update(done, Some(CloseRecord(done, bar, bar.close, reason)))
  }

  /** What the detectors and the confluence resolver propose; `tp1` is the price of the signal's tp1 tag, if any. */
  datatype Signal = Signal(dir: Direction, entry: real, sl: real, tp: real, tp1: Option<real>)

  function RoundLot(lots: real): real {
    (lots / LOT_STEP).Floor as real * LOT_STEP
  }

  /** RISK_PCT percent of the balance in lots, rounded down. */
  function SizedLots(balance: real, riskPips: real, pipValue: real): real
    requires riskPips * pipValue > 0.0
  {
    RoundLot(balance * (RISK_PCT / 100.0) / (riskPips * pipValue))
  }

  /** The entry with the slippage of a market order against it. */
  function Slipped(sig: Signal, pair: Pair): real {
    Shift(sig.dir, sig.entry, SLIPPAGE_MARKET_FRAC_OF_MAX_SPREAD * pair.maxSpread * pair.pip)
  }

  function InPips(distance: real, pair: Pair): real {
    distance / pair.pip
  }

  /** Slippage, level order, minimum risk and sizing; nothing when any of them refuses. */
  function Opened(sig: Signal, symbol: string, k: nat, time: int, pair: Pair, balance: real,
                  pipValue: real): Option<Trade> {
    var entry := Slipped(sig, pair);
    if Gain(sig.dir, sig.sl, entry) <= 0.0 || Gain(sig.dir, entry, sig.tp) <= 0.0 then None
    else
      var risk := Abs(entry - sig.sl);
      var riskPips := InPips(risk, pair);
      if riskPips < MIN_RISK_PIPS || pipValue <= 0.0 then None
      else
        assert riskPips * pipValue > 0.0;
        var lots := SizedLots(balance, riskPips, pipValue);
        if lots < LOT_MIN then None
        else
          var size := Min(lots, LOT_MAX);
          var tp1 := if sig.tp1.Some? then sig.tp1.value else Shift(sig.dir, entry, TP1_R * risk);
          Some(Trade(symbol, sig.dir, entry, sig.sl, tp1, sig.tp, risk, size, size, pipValue, time, k,
                     false, 0.0, COMMISSION_PER_LOT_ROUNDTURN_USD * size))
  }

  class OpenTrade {
    const symbol: string
    const dir: Direction
    const entry: real
    const tp1: real
    const tp2: real
    const risk: real
    const lots: real
    const pipValue: real
    const entryTime: int
    const entryIdx: nat
    const commission: real
    var sl: real
    var remaining: real
    var tp1Hit: bool
    var realized: real

    function View(): Trade
      reads this
    {
      Trade(symbol, dir, entry, sl, tp1, tp2, risk, lots, remaining, pipValue, entryTime, entryIdx,
            tp1Hit, realized, commission)
    }

    constructor (t: Trade)
      ensures View() == t
    {
      symbol, dir, entry, sl, tp1, tp2, risk := t.symbol, t.dir, t.entry, t.sl, t.tp1, t.tp2, t.risk;
      lots, remaining, pipValue, entryTime, entryIdx := t.lots, t.remaining, t.pipValue, t.entryTime, t.entryIdx;
      tp1Hit, realized, commission := t.tp1Hit, t.realized, t.commission;
    }

    method Book(pair: Pair, price: real)
      modifies this`realized
      ensures View() == Booked(old(View()), pair, price)
    {
      var move := if dir.Buy? then price - entry else entry - price;
      realized := realized + move * remaining * (1.0 / pair.pip) * pipValue;
    }

    method ForceCloseAtMarket(bar: Bar, pair: Pair, reason: Reason) returns (c: Closed)
      modifies this
      ensures Update(View(), Some(c)) == ForceClosed(old(View()), bar, pair, reason)
    {
      Book(pair, bar.close);
      c := Closed(symbol, entryIdx, bar.time, bar.close, reason, realized, commission);
    }

    method UpdateOpenTrade(bar: Bar, pair: Pair) returns (c: Option<Closed>)
      modifies this
      ensures Update(View(), c) == Updated(old(View()), bar, pair)
    {
      if (dir.Buy? && bar.low <= sl) || (dir.Sell? && bar.high >= sl) {
        Book(pair, sl);
        return Some(Closed(symbol, entryIdx, bar.time, sl, if !tp1Hit then SL else TRAIL, realized, commission));
      }
      TakePartial(bar, pair);
      if tp1Hit {
        if (dir.Buy? && bar.high >= tp2) || (dir.Sell? && bar.low <= tp2) {
          Book(pair, tp2);
          return Some(Closed(symbol, entryIdx, bar.time, tp2, TP2, realized, commission));
        }
        var step := TRAIL_STEP_R * risk;
        if dir.Buy? {
          if bar.close - step > sl { sl := bar.close - step; }
        } else {
          if bar.close + step < sl { sl := bar.close + step; }
        }
      }
      return None;
    }

    method TakePartial(bar: Bar, pair: Pair)
      modifies this
      ensures View() == AfterTp1(old(View()), bar, pair)
    {
      if !tp1Hit {
        if (dir.Buy? && bar.high >= tp1) || (dir.Sell? && bar.low <= tp1) {
          var closing := remaining * PARTIAL_FRACTION;
          var move := if dir.Buy? then tp1 - entry else entry - tp1;
          realized := realized + move * closing * (1.0 / pair.pip) * pipValue;
          remaining := remaining - closing;
          tp1Hit := true;
          var half := 0.5 * pair.maxSpread * pair.pip;
          sl := entry + (if dir.Buy? then half else -half);
        }
      }
    }
  }
}
