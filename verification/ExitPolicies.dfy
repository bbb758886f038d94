/**
 * The six exit policies of the exit sweep, and the sizing in front of them (scripts/sr_flip_exit_sweep.py).
 * The candle test of policy E and the per-symbol tables are parameters.
 */
module ExitPolicies {
  import opened Common
  import opened Market
  import opened RealFacts
  import SwingTracker

  const RISK_PCT := 0.5
  const MIN_RISK_PIPS := 5.0
  const SLIPPAGE_MARKET_FRAC_OF_MAX_SPREAD := 0.5
  const LOT_MIN := 0.01
  const LOT_STEP := 0.01
  const LOT_MAX := 50.0
  const TRAIL_STEP_R := 0.30
  const L_SWING := 3

  datatype Variant = A | B | C | D | E | F

  /** Target at entry in multiples of the risk; D and E have none. */
  function SetupTpR(v: Variant): Option<real> {
    match v
    case A => Some(2.0)
    case B => Some(1.5)
    case C => Some(3.0)
    case D => None
    case E => None
    case F => Some(2.0)
  }

  /** What the configuration tables say about one symbol; spread and buffer are in pips. */
  datatype Instrument = Instrument(pip: real, maxSpread: real, slBuffer: real)

  predicate Tradeable(ins: Instrument) {
    ins.pip > 0.0 && ins.maxSpread > 0.0 && ins.slBuffer > 0.0
  }

  datatype Reason = SL | TP | TRAIL | BE | OPP_REJ | FORCED

  datatype Exit = Exit(price: real, reason: Reason)

  /** The value of an `OpenTrade`. */
  datatype Position = Position(
    dir: Direction, entry: real, slInitial: real, sl: real, tp: Option<real>, risk: real,
    lots: real, remaining: real, pipValue: real, entryIdx: nat,
    realized: real, armed: bool, partialTaken: bool, highWater: real)

  datatype Outcome = Outcome(pos: Position, exit: Option<Exit>)

  /** A candle closing against a position of this direction, given its predecessor. */
  type Rejection = (Direction, Bar, Bar) -> bool

  // ------------------------------------------------------------------ the policies as functions

  /** Profit in account currency of moving `lots` from the entry to `price`. */
  function Profit(p: Position, ins: Instrument, price: real, lots: real): real
    requires ins.pip > 0.0
  {
    Gain(p.dir, p.entry, price) * lots * (1.0 / ins.pip) * p.pipValue
  }

  function Booked(p: Position, ins: Instrument, price: real): Position
    requires ins.pip > 0.0
  {
    p.(realized := p.realized + Profit(p, ins, price, p.remaining))
  }

  function CloseAt(p: Position, ins: Instrument, price: real, reason: Reason): Outcome
    requires ins.pip > 0.0
  {
    Outcome(Booked(p, ins, price), Some(Exit(price, reason)))
  }

  predicate StopHit(p: Position, bar: Bar) {
    Gain(p.dir, p.sl, Worst(p.dir, bar)) <= 0.0
  }

  /** The bar has traded `move` or more in favour of the entry. */
  predicate Reached(p: Position, bar: Bar, move: real) {
    Gain(p.dir, p.entry, Best(p.dir, bar)) >= move
  }

  /** The stop at `candidate` if that is strictly tighter. */
  function Tightened(p: Position, candidate: real): Position {
    if Gain(p.dir, p.sl, candidate) > 0.0 then p.(sl := candidate) else p
  }

  function FixedTarget(p: Position, ins: Instrument, bar: Bar): Outcome
    requires ins.pip > 0.0
  {
    if StopHit(p, bar) then CloseAt(p, ins, p.sl, SL)
    else if p.tp.Some? && Gain(p.dir, p.tp.value, Best(p.dir, bar)) >= 0.0 then CloseAt(p, ins, p.tp.value, TP)
    else Outcome(p, None)
  }

  // Policy D: from one R on, trail behind the swings since entry.

  function SwingKind(dir: Direction): SwingTracker.Kind {
    if dir.Buy? then SwingTracker.Low else SwingTracker.High
  }

  function SwingPrice(dir: Direction, b: Bar): real {
    SwingTracker.PriceOf(SwingKind(dir), b)
  }

  /**
   * The tightest swing price among the bars before `n`: highest swing low for a long, lowest swing high for a short.
   */
  function Tightest(window: seq<Bar>, dir: Direction, n: nat): Option<real>
    requires n <= |window|
  {
    if n == 0 then None
    else
      var best := Tightest(window, dir, n - 1);
      var price := SwingPrice(dir, window[n - 1]);
      if SwingTracker.IsSwing(window, n - 1, L_SWING, SwingKind(dir))
         && (best.None? || Gain(dir, best.value, price) > 0.0) then Some(price)
      else best
  }

  /** The bars policy D looks at: from three before the entry up to the current one. */
  function SinceEntry(p: Position, ltf: seq<Bar>, i: nat): seq<Bar>
    requires p.entryIdx <= i < |ltf|
  {
    ltf[MaxInt(0, p.entryIdx - L_SWING)..i + 1]
  }

  function SwingTrail(p: Position, ins: Instrument, window: seq<Bar>): Position {
    var best := Tightest(window, p.dir, |window|);
    if best.None? then p else Tightened(p, Shift(p.dir, best.value, -(ins.slBuffer * ins.pip)))
  }

  function SwingExit(p: Position, ins: Instrument, ltf: seq<Bar>, i: nat): Outcome
    requires ins.pip > 0.0 && p.entryIdx <= i < |ltf|
  {
    if StopHit(p, ltf[i]) then CloseAt(p, ins, p.sl, if p.armed then TRAIL else SL)
    else
      var q := p.(armed := p.armed || Reached(p, ltf[i], p.risk));
      Outcome(if q.armed then SwingTrail(q, ins, SinceEntry(q, ltf, i)) else q, None)
  }

  // Policy E: hold until the stop or an opposite rejection candle.

  function RejectionExit(p: Position, ins: Instrument, bar: Bar, prev: Option<Bar>, rejects: Rejection): Outcome
    requires ins.pip > 0.0
  {
    if StopHit(p, bar) then CloseAt(p, ins, p.sl, SL)
    else if prev.Some? && rejects(p.dir, prev.value, bar) then CloseAt(p, ins, bar.close, OPP_REJ)
    else Outcome(p, None)
  }

  // Policy F: break-even at one R, half off at two R, then a tight trail.

  function BreakEven(p: Position, ins: Instrument, bar: Bar): Position {
    if !p.armed && Reached(p, bar, p.risk) then
      Tightened(p.(armed := true), Shift(p.dir, p.entry, 0.5 * ins.maxSpread * ins.pip))
    else p
  }

  function HalfOff(p: Position, ins: Instrument, bar: Bar): Position
    requires ins.pip > 0.0
  {
    if p.armed && !p.partialTaken && Reached(p, bar, 2.0 * p.risk) then
      var target := Shift(p.dir, p.entry, 2.0 * p.risk);
      p.(realized := p.realized + Profit(p, ins, target, p.remaining * 0.5),
         remaining := p.remaining - p.remaining * 0.5,
         partialTaken := true, highWater := target)
    else p
  }

  function Runner(p: Position, bar: Bar): Position {
    if p.partialTaken then
      var q := if Gain(p.dir, p.highWater, bar.close) > 0.0 then p.(highWater := bar.close) else p;
      Tightened(q, Shift(q.dir, q.highWater, -(TRAIL_STEP_R * q.risk)))
    else p
  }

  function PartialExit(p: Position, ins: Instrument, bar: Bar): Outcome
    requires ins.pip > 0.0
  {
    if StopHit(p, bar) then CloseAt(p, ins, p.sl, if p.partialTaken then TRAIL else if p.armed then BE else SL)
    else Outcome(Runner(HalfOff(BreakEven(p, ins, bar), ins, bar), bar), None)
  }

  function Step(v: Variant, p: Position, ins: Instrument, ltf: seq<Bar>, i: nat, rejects: Rejection): Outcome
    requires ins.pip > 0.0 && p.entryIdx <= i < |ltf|
  {
    match v
    case D => SwingExit(p, ins, ltf, i)
    case E => RejectionExit(p, ins, ltf[i], if i >= 1 then Some(ltf[i - 1]) else None, rejects)
    case F => PartialExit(p, ins, ltf[i])
    case _ => FixedTarget(p, ins, ltf[i])
  }

  /** The trade after the bars that follow its entry, up to and including bar `i`; frozen once closed. */
  function Watch(v: Variant, p: Position, ins: Instrument, ltf: seq<Bar>, i: nat, rejects: Rejection): (o: Outcome)
    requires ins.pip > 0.0 && p.entryIdx <= i < |ltf|
    ensures o.pos.entryIdx == p.entryIdx
  {
    if i == p.entryIdx then Outcome(p, None)
    else
      var o := Watch(v, p, ins, ltf, i - 1, rejects);
      if o.exit.Some? then o else Step(v, o.pos, ins, ltf, i, rejects)
  }

  // ------------------------------------------------------------------ entry and sizing

  datatype Signal = Signal(dir: Direction, entryIntent: real, sl: real)

  datatype Blocked = BadLevels | MinRisk | NoPipValue | BelowMinimumLot

  function Lots(balance: real, riskPips: real, pipValue: real): real
    requires riskPips * pipValue > 0.0
  {
    var raw := balance * (RISK_PCT / 100.0) / (riskPips * pipValue);
    (raw / LOT_STEP).Floor as real * LOT_STEP
  }

  function Open(v: Variant, sig: Signal, ins: Instrument, balance: real, pipValue: real,
                k: nat): Result<Position, Blocked>
    requires ins.pip > 0.0
  {
    var entry := Shift(sig.dir, sig.entryIntent, SLIPPAGE_MARKET_FRAC_OF_MAX_SPREAD * ins.maxSpread * ins.pip);
    if Gain(sig.dir, sig.sl, entry) <= 0.0 then Err(BadLevels)
    else
      var risk := Abs(entry - sig.sl);
      var riskPips := risk / ins.pip;
      if riskPips < MIN_RISK_PIPS then Err(MinRisk)
      else if pipValue <= 0.0 then Err(NoPipValue)
      else
        PositiveProduct(riskPips, pipValue);
        var lots := Lots(balance, riskPips, pipValue);
        if lots < LOT_MIN then Err(BelowMinimumLot)
        else
          var size := Min(lots, LOT_MAX);
          var tp := if SetupTpR(v).Some? then Some(Shift(sig.dir, entry, SetupTpR(v).value * risk)) else None;
          Ok(Position(sig.dir, entry, sig.sl, sig.sl, tp, risk, size, size, pipValue, k, 0.0, false, false, 0.0))
  }

  // ------------------------------------------------------------------ the object

  /** An open trade; the policies mutate it bar by bar. */
  class OpenTrade {
    const dir: Direction
    const entry: real
    const slInitial: real
    const tp: Option<real>
    const risk: real
    const lots: real
    const pipValue: real
    const entryIdx: nat
    var sl: real
    var remaining: real
    var realized: real
    var armed: bool
    var partialTaken: bool
    var highWater: real

    function View(): Position
      reads this
    {
      Position(dir, entry, slInitial, sl, tp, risk, lots, remaining, pipValue, entryIdx,
               realized, armed, partialTaken, highWater)
    }

    constructor (p: Position)
      ensures View() == p
    {
      dir, entry, slInitial, sl := p.dir, p.entry, p.slInitial, p.sl;
      tp, risk, lots, remaining, pipValue := p.tp, p.risk, p.lots, p.remaining, p.pipValue;
      entryIdx, realized, armed, partialTaken, highWater :=
        p.entryIdx, p.realized, p.armed, p.partialTaken, p.highWater;
    }

    method BookRemaining(ins: Instrument, price: real)
      requires ins.pip > 0.0
      modifies this`realized
      ensures View() == Booked(old(View()), ins, price)
    {
      if dir.Buy? {
        realized := realized + (price - entry) * remaining * (1.0 / ins.pip) * pipValue;
      } else {
        realized := realized + (entry - price) * remaining * (1.0 / ins.pip) * pipValue;
      }
    }

    method IsStopHit(bar: Bar) returns (hit: bool)
      ensures hit == StopHit(View(), bar)
    {
      hit := if dir.Buy? then bar.low <= sl else bar.high >= sl;
    }

    /** Close at the market: time stop, Friday flatten, end of data. */
    method ForceClose(ins: Instrument, bar: Bar) returns (exit: Exit)
      requires ins.pip > 0.0
      modifies this
      ensures Outcome(View(), Some(exit)) == CloseAt(old(View()), ins, bar.close, FORCED)
    {
      BookRemaining(ins, bar.close);
      exit := Exit(bar.close, FORCED);
    }

    method ExitFixedTp(ins: Instrument, bar: Bar) returns (exit: Option<Exit>)
      requires ins.pip > 0.0
      modifies this
      ensures Outcome(View(), exit) == FixedTarget(old(View()), ins, bar)
    {
      var hit := IsStopHit(bar);
      if hit {
        BookRemaining(ins, sl);
        return Some(Exit(sl, SL));
      }
      if tp.Some? {
        if (dir.Buy? && bar.high >= tp.value) || (dir.Sell? && bar.low <= tp.value) {
          BookRemaining(ins, tp.value);
          return Some(Exit(tp.value, TP));
        }
      }
      return None;
    }

    method ExitD(ins: Instrument, ltf: seq<Bar>, i: nat) returns (exit: Option<Exit>)
      requires ins.pip > 0.0 && entryIdx <= i < |ltf|
      modifies this
      ensures Outcome(View(), exit) == SwingExit(old(View()), ins, ltf, i)
    {
      var bar := ltf[i];
      var hit := IsStopHit(bar);
      if hit {
        BookRemaining(ins, sl);
        return Some(Exit(sl, if armed then TRAIL else SL));
      }
      if !armed {
        var reached := if dir.Buy? then bar.high >= entry + risk else bar.low <= entry - risk;
        if reached { armed := true; }
      }
      if armed {
        TrailBehindSwing(ins, ltf[MaxInt(0, entryIdx - L_SWING)..i + 1]);
      }
      return None;
    }

    method TrailBehindSwing(ins: Instrument, window: seq<Bar>)
      modifies this
      ensures View() == SwingTrail(old(View()), ins, window)
    {
      hide Tightest;
      var best := ScanSwings(window);
      if best.None? { return; }
      var buffer := ins.slBuffer * ins.pip;
      if dir.Buy? {
        if best.value - buffer > sl { sl := best.value - buffer; }
      } else {
        if best.value + buffer < sl { sl := best.value + buffer; }
      }
    }

    /** The loop of policy D; its range leaves out bars that cannot be confirmed swings. */
    method ScanSwings(window: seq<Bar>) returns (best: Option<real>)
      ensures best == Tightest(window, dir, |window|)
    {
      best := None;
      var j := L_SWING;
      NoEarlySwing(window, dir, if |window| < L_SWING then |window| else L_SWING);
      while j < |window| - L_SWING
        invariant L_SWING <= j
        invariant j <= |window| - L_SWING || j == L_SWING
        invariant best == Tightest(window, dir, if |window| < j then |window| else j)
      {
        var ok := true;
        var k := 1;
        while k <= L_SWING
          invariant 1 <= k <= L_SWING + 1
          invariant ok <==> forall m :: 1 <= m < k ==> SwingTracker.BeatsAt(window, j, m, SwingKind(dir))
        {
          ok := ok && SwingTracker.BeatsAt(window, j, k, SwingKind(dir));
          k := k + 1;
        }
        assert ok <==> SwingTracker.IsSwing(window, j, L_SWING, SwingKind(dir));
        if ok {
          var price := SwingPrice(dir, window[j]);
          if best.None? || (if dir.Buy? then price > best.value else price < best.value) {
            best := Some(price);
          }
        }
        j := j + 1;
      }
      NoLateSwing(window, dir, if |window| < j then |window| else j, |window|);
    }

    method ExitE(ins: Instrument, bar: Bar, prev: Option<Bar>, rejects: Rejection) returns (exit: Option<Exit>)
      requires ins.pip > 0.0
      modifies this
      ensures Outcome(View(), exit) == RejectionExit(old(View()), ins, bar, prev, rejects)
    {
      var hit := IsStopHit(bar);
      if hit {
        BookRemaining(ins, sl);
        return Some(Exit(sl, SL));
      }
      if prev.None? { return None; }
      if rejects(dir, prev.value, bar) {
        BookRemaining(ins, bar.close);
        return Some(Exit(bar.close, OPP_REJ));
      }
      return None;
    }

    method ExitF(ins: Instrument, bar: Bar) returns (exit: Option<Exit>)
      requires ins.pip > 0.0
      modifies this
      ensures Outcome(View(), exit) == PartialExit(old(View()), ins, bar)
    {
      var hit := IsStopHit(bar);
      if hit {
        BookRemaining(ins, sl);
        return Some(Exit(sl, if partialTaken then TRAIL else if armed then BE else SL));
      }
      ShiftToBreakEven(ins, bar);
      TakeHalf(ins, bar);
      TrailRunner(bar);
      return None;
    }

    method ShiftToBreakEven(ins: Instrument, bar: Bar)
      modifies this`armed, this`sl
      ensures View() == BreakEven(old(View()), ins, bar)
    {
      if !armed {
        var reached := if dir.Buy? then bar.high >= entry + risk else bar.low <= entry - risk;
        if reached {
          armed := true;
          var half := 0.5 * ins.maxSpread * ins.pip;
          var be := entry + (if dir.Buy? then half else -half);
          if (dir.Buy? && be > sl) || (dir.Sell? && be < sl) { sl := be; }
        }
      }
    }

    method TakeHalf(ins: Instrument, bar: Bar)
      requires ins.pip > 0.0
      modifies this`realized, this`remaining, this`partialTaken, this`highWater
      ensures View() == HalfOff(old(View()), ins, bar)
    {
      if armed && !partialTaken {
        var twoR := 2.0 * risk;
        var hit := if dir.Buy? then bar.high >= entry + twoR else bar.low <= entry - twoR;
        if hit {
          var target := entry + (if dir.Buy? then twoR else -twoR);
          var closing := remaining * 0.5;
          var move := if dir.Buy? then target - entry else entry - target;
          realized := realized + move * closing * (1.0 / ins.pip) * pipValue;
          remaining := remaining - closing;
          partialTaken := true;
          highWater := target;
        }
      }
    }

    method TrailRunner(bar: Bar)
      modifies this`highWater, this`sl
      ensures View() == Runner(old(View()), bar)
    {
      if partialTaken {
        var trail := TRAIL_STEP_R * risk;
        if dir.Buy? {
          if bar.close > highWater { highWater := bar.close; }
          if highWater - trail > sl { sl := highWater - trail; }
        } else {
          if bar.close < highWater { highWater := bar.close; }
          if highWater + trail < sl { sl := highWater + trail; }
        }
      }
    }
  }

  lemma {:induction false} NoEarlySwing(window: seq<Bar>, dir: Direction, n: nat)
    requires n <= |window| && n <= L_SWING
    ensures Tightest(window, dir, n) == None
  {
    if n > 0 { NoEarlySwing(window, dir, n - 1); }
  }

  lemma {:induction false} NoLateSwing(window: seq<Bar>, dir: Direction, m: nat, n: nat)
    requires m <= n <= |window| && |window| - L_SWING <= m
    ensures Tightest(window, dir, n) == Tightest(window, dir, m)
  {
    if m < n { NoLateSwing(window, dir, m, n - 1); }
  }
}
