/**
 * The V5 exit ladder (risk/asian_sweep_exit.py), the reference loop it is said to mirror
 * (`simulate` in multi_pair_backtest.py), and the payoff of the trades that go through it.
 */
module AsianSweepExit {
  import opened Common
  import opened Market

  const PARTIAL_CLOSE_FRACTION := 0.5
  const RR_TP1 := 1.0
  const RR_TP2 := 2.5
  const TRAILING_STEP_R := 0.3
  const JPY_DIVISOR := 150.0

  datatype Reason = StopLoss | Trail | TakeProfit2 | Eod | EodTrail | PartialTp1

  /** One instruction for the engine. */
  datatype ExitAction = ExitAction(
    closeFull: bool, partialClose: real, modifySl: Option<real>,
    exitPrice: Option<real>, exitReason: Option<Reason>)

  /** The value of an `ExitState`: what the ladder remembers about one position. */
  datatype Ladder = Ladder(
    dir: Direction, entry: real, tp1: real, tp2: real, risk: real, initialLots: real,
    sl: real, remaining: real, tp1Hit: bool, closed: bool,
    partialPrice: Option<real>, exitPrice: Option<real>, exitReason: Option<Reason>)

  // ------------------------------------------------------------------ the ladder as a function

  function Opened(dir: Direction, entry: real, sl: real, tp1: Option<real>, tp2: real, lots: real): Ladder {
    var risk := Abs(entry - sl);
    var target1 := if tp1.Some? && tp1.value != 0.0 then tp1.value else Shift(dir, entry, RR_TP1 * risk);
    Ladder(dir, entry, target1, tp2, risk, lots, sl, lots, false, false, None, None, None)
  }

  /** Price has come back to the stop within this bar. */
  predicate StopTouched(s: Ladder, bar: Bar) {
    Gain(s.dir, s.sl, Worst(s.dir, bar)) <= 0.0
  }

  predicate TargetTouched(s: Ladder, target: real, bar: Bar) {
    Gain(s.dir, target, Best(s.dir, bar)) >= 0.0
  }

  function Closed(s: Ladder, price: real, reason: Reason): Ladder {
    s.(closed := true, exitPrice := Some(price), exitReason := Some(reason), remaining := 0.0)
  }

  function TrailPrice(s: Ladder, bar: Bar): real {
    Shift(s.dir, bar.close, -(TRAILING_STEP_R * s.risk))
  }

  /** A freshly opened position: nothing has happened to it yet. */
  ghost predicate Fresh(s: Ladder) {
    && !s.tp1Hit && !s.closed && s.remaining == s.initialLots
    && s.partialPrice.None? && s.exitPrice.None? && s.exitReason.None?
  }

  /** Half off at TP1 and the stop to break-even, once. */
  function AfterTp1(s: Ladder, bar: Bar): Ladder {
    if !s.tp1Hit && TargetTouched(s, s.tp1, bar) then
      s.(tp1Hit := true, partialPrice := Some(s.tp1), sl := s.entry,
         remaining := s.remaining - s.remaining * PARTIAL_CLOSE_FRACTION)
    else s
  }

  /** The trail only ever moves the stop in the favourable direction. */
  function AfterTrail(s: Ladder, bar: Bar): Ladder {
    if s.tp1Hit && Gain(s.dir, s.sl, TrailPrice(s, bar)) > 0.0 then s.(sl := TrailPrice(s, bar)) else s
  }

  function AfterTp2(s: Ladder, bar: Bar): Ladder {
    if s.tp1Hit && TargetTouched(s, s.tp2, bar) then Closed(s, s.tp2, TakeProfit2) else s
  }

  function LadderStep(s: Ladder, bar: Bar): Ladder {
    if s.closed then s
    else if StopTouched(s, bar) then Closed(s, s.sl, if s.tp1Hit then Trail else StopLoss)
    else AfterTp2(AfterTrail(AfterTp1(s, bar), bar), bar)
  }

  /** What the engine is told to do on this bar, in order. */
  function StepActions(s: Ladder, bar: Bar): seq<ExitAction> {
    if s.closed then []
    else if StopTouched(s, bar) then
      [ExitAction(true, 0.0, None, Some(s.sl), Some(if s.tp1Hit then Trail else StopLoss))]
    else
      var s1 := AfterTp1(s, bar);
      var s2 := AfterTrail(s1, bar);
      (if s1 != s then
         [ExitAction(false, PARTIAL_CLOSE_FRACTION, Some(s.entry), Some(s.tp1), Some(PartialTp1))]
       else [])
      + (if s2.sl != s1.sl then [ExitAction(false, 0.0, Some(s2.sl), None, None)] else [])
      + (if AfterTp2(s2, bar).closed then [ExitAction(true, 0.0, None, Some(s.tp2), Some(TakeProfit2))] else [])
  }

  function ForcedClose(s: Ladder, price: real): Ladder {
    if s.closed then s else Closed(s, price, if s.tp1Hit then EodTrail else Eod)
  }

  function ForcedCloseActions(s: Ladder, price: real): seq<ExitAction> {
    if s.closed then []
    else [ExitAction(true, 0.0, None, Some(price), Some(if s.tp1Hit then EodTrail else Eod))]
  }

  /** The ladder after a run of bars, oldest first. */
  function Run(s: Ladder, bars: seq<Bar>): Ladder {
    if bars == [] then s else LadderStep(Run(s, Front(bars)), Last(bars))
  }

  function RunActions(s: Ladder, bars: seq<Bar>): seq<ExitAction> {
    if bars == [] then []
    else RunActions(s, Front(bars)) + StepActions(Run(s, Front(bars)), Last(bars))
  }

  /** A whole trade: the bars of the session, then the flatten at the last close. */
  function Trade(s: Ladder, bars: seq<Bar>): Ladder
    requires bars != []
  {
    ForcedClose(Run(s, bars), Last(bars).close)
  }

  /** The price move the backtest's formula pays for: half of it at TP1 unless the trade went straight to TP2. */
  function PaidMove(dir: Direction, entry: real, tp1: real, exit: real, split: bool): real {
    if split then
      Gain(dir, entry, tp1) * PARTIAL_CLOSE_FRACTION + Gain(dir, entry, exit) * (1.0 - PARTIAL_CLOSE_FRACTION)
    else Gain(dir, entry, exit)
  }

  function Money(move: real, lots: real, contract: real, jpy: bool): real {
    InAccount(move * lots * contract, jpy)
  }

  /** Profit quoted in yen is divided by a fixed rate. */
  function InAccount(raw: real, jpy: bool): (money: real)
    ensures if jpy then money * 150.0 == raw else money == raw
  {
    if jpy then raw / JPY_DIVISOR else raw
  }

  /** The money a ladder in this state has made, per the backtest's formula. */
  function Pnl(s: Ladder, contract: real, jpy: bool): real {
    if s.exitPrice.None? then 0.0
    else
      var split := s.tp1Hit && s.exitReason != Some(TakeProfit2);
      Money(PaidMove(s.dir, s.entry, s.tp1, s.exitPrice.value, split), s.initialLots, contract, jpy)
  }

  // ------------------------------------------------------------------ the live state object

  class ExitState {
    const dir: Direction
    const entry: real
    const tp1: real
    const tp2: real
    const initialRisk: real
    const initialLots: real
    var sl: real
    var remainingLots: real
    var tp1Hit: bool
    var closed: bool
    var partialExitPrice: Option<real>
    var finalExitPrice: Option<real>
    var finalExitReason: Option<Reason>

    function View(): Ladder
      reads this
    {
      Ladder(dir, entry, tp1, tp2, initialRisk, initialLots, sl, remainingLots, tp1Hit, closed,
             partialExitPrice, finalExitPrice, finalExitReason)
    }

    /** `taggedTp1` is the TP1 price the detector encoded in the signal, if any. */
    constructor (dir: Direction, entry: real, sl: real, taggedTp1: Option<real>, tp2: real, lots: real)
      ensures View() == Opened(dir, entry, sl, taggedTp1, tp2, lots)
    {
      var risk := Abs(entry - sl);
      this.dir, this.entry, this.sl, this.tp2 := dir, entry, sl, tp2;
      this.initialRisk := risk;
      if taggedTp1.Some? && taggedTp1.value != 0.0 {
        this.tp1 := taggedTp1.value;
      } else if dir == Buy {
        this.tp1 := entry + RR_TP1 * risk;
      } else {
        this.tp1 := entry - RR_TP1 * risk;
      }
      initialLots, remainingLots := lots, lots;
      tp1Hit, closed := false, false;
      partialExitPrice, finalExitPrice, finalExitReason := None, None, None;
    }

    method MaintainExit(bar: Bar) returns (actions: seq<ExitAction>)
      modifies this
      ensures View() == LadderStep(old(View()), bar)
      ensures actions == StepActions(old(View()), bar)
    {
      actions := [];
      if closed { return; }
      var slHit;
      if dir == Buy { slHit := bar.low <= sl; } else { slHit := bar.high >= sl; }
      if slHit {
        var reason := if tp1Hit then Trail else StopLoss;
        closed := true;
        finalExitPrice := Some(sl);
        finalExitReason := Some(reason);
        remainingLots := 0.0;
        actions := actions + [ExitAction(true, 0.0, None, Some(sl), Some(reason))];
        return;
      }
      if !tp1Hit {
        var touched;
        if dir == Buy { touched := bar.high >= tp1; } else { touched := bar.low <= tp1; }
        if touched {
          tp1Hit := true;
          partialExitPrice := Some(tp1);
          sl := entry;
          var partialLots := remainingLots * PARTIAL_CLOSE_FRACTION;
          remainingLots := remainingLots - partialLots;
          actions := actions + [ExitAction(false, PARTIAL_CLOSE_FRACTION, Some(entry), Some(tp1), Some(PartialTp1))];
        }
      }
      assert View() == AfterTp1(old(View()), bar);
      if tp1Hit && !closed {
        if dir == Buy {
          var newTrail := bar.close - TRAILING_STEP_R * initialRisk;
          if newTrail > sl {
            sl := newTrail;
            actions := actions + [ExitAction(false, 0.0, Some(newTrail), None, None)];
          }
        } else {
          var newTrail := bar.close + TRAILING_STEP_R * initialRisk;
          if newTrail < sl {
            sl := newTrail;
            actions := actions + [ExitAction(false, 0.0, Some(newTrail), None, None)];
          }
        }
      }
      assert View() == AfterTrail(AfterTp1(old(View()), bar), bar);
      if tp1Hit && !closed {
        var touched;
        if dir == Buy { touched := bar.high >= tp2; } else { touched := bar.low <= tp2; }
        if touched {
          closed := true;
          finalExitPrice := Some(tp2);
          finalExitReason := Some(TakeProfit2);
          remainingLots := 0.0;
          actions := actions + [ExitAction(true, 0.0, None, Some(tp2), Some(TakeProfit2))];
        }
      }
    }

    method ForceCloseEod(exitPrice: real) returns (actions: seq<ExitAction>)
      modifies this
      ensures View() == ForcedClose(old(View()), exitPrice)
      ensures actions == ForcedCloseActions(old(View()), exitPrice)
    {
      if closed { return []; }
      var reason := if tp1Hit then EodTrail else Eod;
      closed := true;
      finalExitPrice := Some(exitPrice);
      finalExitReason := Some(reason);
      remainingLots := 0.0;
      actions := [ExitAction(true, 0.0, None, Some(exitPrice), Some(reason))];
    }

    /** `contract` is absent for a symbol the configuration does not know. */
    method ComputePnl(contract: Option<real>, jpy: bool) returns (pnl: real)
      ensures pnl == if contract.None? then 0.0 else Pnl(View(), contract.value, jpy)
    {
      if finalExitPrice.None? || contract.None? { return 0.0; }
      var exit, diff, d1 := finalExitPrice.value, 0.0, 0.0;
      if dir == Buy {
        diff, d1 := exit - entry, tp1 - entry;
      } else {
        diff, d1 := entry - exit, entry - tp1;
      }
      if tp1Hit && finalExitReason != Some(TakeProfit2) {
        pnl := (d1 * PARTIAL_CLOSE_FRACTION + diff * (1.0 - PARTIAL_CLOSE_FRACTION)) * initialLots * contract.value;
      } else {
        pnl := diff * initialLots * contract.value;
      }
      if jpy { pnl := pnl / JPY_DIVISOR; }
    }
  }

  /** The live side of the comparison: one call per closed bar, then the session flatten. */
  method RunLive(st: ExitState, bars: seq<Bar>) returns (actions: seq<ExitAction>)
    requires bars != []
    modifies st
    ensures st.View() == Trade(old(st.View()), bars)
    ensures actions == RunActions(old(st.View()), bars)
                       + ForcedCloseActions(Run(old(st.View()), bars), Last(bars).close)
  {
    actions := [];
    for i := 0 to |bars|
      invariant st.View() == Run(old(st.View()), bars[..i])
      invariant actions == RunActions(old(st.View()), bars[..i])
    {
      assert Front(bars[..i + 1]) == bars[..i];
      var more := st.MaintainExit(bars[i]);
      actions := actions + more;
    }
    assert bars[..|bars|] == bars;
    var rest := st.ForceCloseEod(bars[|bars| - 1].close);
    actions := actions + rest;
  }

  // ------------------------------------------------------------------ the backtest loop

  datatype Outcome = Outcome(exitPrice: real, reason: Reason, tp1Hit: bool, pnl: real)

  lemma {:induction false} ClosedIsFinal(s: Ladder, bars: seq<Bar>, n: nat)
    requires n <= |bars|
    requires Run(s, bars[..n]).closed
    ensures Run(s, bars) == Run(s, bars[..n])
  {
    if n == |bars| {
      assert bars[..n] == bars;
    } else {
      assert Front(bars)[..n] == bars[..n];
      ClosedIsFinal(s, Front(bars), n);
    }
  }

  /** The accounting at the end of the reference loop. */
  method SimulatedPnl(dir: Direction, entry: real, tp1: real, exit: real, tp1hit: bool, reason: Reason,
                      lot: real, contract: real, jpy: bool)
    returns (pnl: real)
    ensures pnl == Money(PaidMove(dir, entry, tp1, exit, tp1hit && reason != TakeProfit2), lot, contract, jpy)
  {
    var diff := if dir == Buy then exit - entry else entry - exit;
    if tp1hit && reason != TakeProfit2 {
      var d1 := if dir == Buy then tp1 - entry else entry - tp1;
      pnl := (d1 * PARTIAL_CLOSE_FRACTION + diff * (1.0 - PARTIAL_CLOSE_FRACTION)) * lot * contract;
    } else {
      pnl := diff * lot * contract;
    }
    if jpy { pnl := pnl / JPY_DIVISOR; }
  }

  /** The loop's two variables say the same as the ladder's state. */
  ghost predicate Tracks(s0: Ladder, s: Ladder, trail: real, tp1hit: bool) {
    && !s.closed && s.exitPrice.None? && s.sl == trail && s.tp1Hit == tp1hit
    && s.dir == s0.dir && s.entry == s0.entry && s.tp1 == s0.tp1 && s.tp2 == s0.tp2
    && s.risk == s0.risk && s.initialLots == s0.initialLots
  }

  /** The reference loop over the session bars: it keeps only a trail price and a flag, and breaks at the exit. */
  method SimulateBars(fwd: seq<Bar>, ghost s0: Ladder,
                      dir: Direction, entry: real, sl: real, tp1: real, tp2: real, risk: real)
    returns (ep: Option<real>, er: Reason, tp1hit: bool)
    requires Fresh(s0)
    requires s0.dir == dir && s0.entry == entry && s0.sl == sl && s0.tp1 == tp1 && s0.tp2 == tp2 && s0.risk == risk
    ensures var s := Run(s0, fwd);
      && s.tp1Hit == tp1hit && s.closed == ep.Some? && s.exitPrice == ep
      && (ep.Some? ==> s.exitReason == Some(er))
      && s.dir == dir && s.entry == entry && s.tp1 == tp1 && s.initialLots == s0.initialLots
  {
    var trail := sl;
    tp1hit, ep, er := false, None, Eod;
    for i := 0 to |fwd|
      invariant ep.None? && Tracks(s0, Run(s0, fwd[..i]), trail, tp1hit)
    {
      assert Front(fwd[..i + 1]) == fwd[..i];
      var bar := fwd[i];
      if dir == Buy {
        if bar.low <= trail {
          ep := Some(trail); er := if !tp1hit then StopLoss else Trail;
          ClosedIsFinal(s0, fwd, i + 1);
          return;
        }
        if !tp1hit && bar.high >= tp1 {
          tp1hit := true; trail := entry;
        }
        if tp1hit {
          var nt := bar.close - TRAILING_STEP_R * risk;
          if nt > trail { trail := nt; }
        }
        if tp1hit && bar.high >= tp2 {
          ep := Some(tp2); er := TakeProfit2;
          ClosedIsFinal(s0, fwd, i + 1);
          return;
        }
      } else {
        if bar.high >= trail {
          ep := Some(trail); er := if !tp1hit then StopLoss else Trail;
          ClosedIsFinal(s0, fwd, i + 1);
          return;
        }
        if !tp1hit && bar.low <= tp1 {
          tp1hit := true; trail := entry;
        }
        if tp1hit {
          var nt := bar.close + TRAILING_STEP_R * risk;
          if nt < trail { trail := nt; }
        }
        if tp1hit && bar.low <= tp2 {
          ep := Some(tp2); er := TakeProfit2;
          ClosedIsFinal(s0, fwd, i + 1);
          return;
        }
      }
    }
    assert fwd[..|fwd|] == fwd;
  }

  /**
   * The reference simulation, given the session bars after the signal and the rounded lot size. It agrees with the
   * live ladder on exit price, reason, TP1 flag and unrounded P&L.
   */
  method Simulate(fwd: seq<Bar>, dir: Direction, entry: real, sl: real, tp1: real, tp2: real, risk: real,
                  lot: real, contract: real, jpy: bool)
    returns (r: Option<Outcome>)
    ensures r.None? <==> fwd == [] || risk <= 0.0
    ensures r.Some? ==>
      var t := Trade(Ladder(dir, entry, tp1, tp2, risk, lot, sl, lot, false, false, None, None, None), fwd);
      && t.exitPrice == Some(r.value.exitPrice)
      && t.exitReason == Some(r.value.reason)
      && t.tp1Hit == r.value.tp1Hit
      && Pnl(t, contract, jpy) == r.value.pnl
  {
    if fwd == [] { return None; }
    if risk <= 0.0 { return None; }
    ghost var s0 := Ladder(dir, entry, tp1, tp2, risk, lot, sl, lot, false, false, None, None, None);
    var ep, er, tp1hit := SimulateBars(fwd, s0, dir, entry, sl, tp1, tp2, risk);
    if ep.None? {
      ep := Some(fwd[|fwd| - 1].close);
      er := if !tp1hit then Eod else EodTrail;
    }
    var pnl := SimulatedPnl(dir, entry, tp1, ep.value, tp1hit, er, lot, contract, jpy);
    r := Some(Outcome(ep.value, er, tp1hit, pnl));
  }

  // ------------------------------------------------------------------ payoff over every price path

  /** A fresh V5 trade: stop one R behind the entry, targets 1R and 2.5R ahead of it. */
  ghost predicate V5Trade(s: Ladder) {
    && Fresh(s) && s.risk > 0.0 && s.initialLots > 0.0
    && Gain(s.dir, s.entry, s.sl) == -s.risk
    && Gain(s.dir, s.entry, s.tp1) == RR_TP1 * s.risk
    && Gain(s.dir, s.entry, s.tp2) == RR_TP2 * s.risk
  }

  /** Opening a position with the stop on the losing side and TP2 at 2.5R gives such a trade. */
  lemma OpenedIsV5(dir: Direction, entry: real, sl: real, lots: real)
    requires Gain(dir, sl, entry) > 0.0 && lots > 0.0
    ensures V5Trade(Opened(dir, entry, sl, None, Shift(dir, entry, RR_TP2 * Abs(entry - sl)), lots))
  {
  }

  /** What every open V5 position satisfies, relative to the state `s0` it was opened in. */
  ghost predicate OpenInvariant(s0: Ladder, s: Ladder) {
    && !s.closed && s.exitPrice.None? && s.exitReason.None?
    && s.dir == s0.dir && s.entry == s0.entry && s.tp1 == s0.tp1 && s.tp2 == s0.tp2
    && s.risk == s0.risk && s.initialLots == s0.initialLots
    && (if s.tp1Hit then
          && Gain(s.dir, s.entry, s.sl) >= 0.0
          && Gain(s.dir, s.sl, s.tp2) > 0.0
          && s.partialPrice == Some(s.tp1)
          && s.remaining == s.initialLots * (1.0 - PARTIAL_CLOSE_FRACTION)
        else
          s.sl == s0.sl && s.partialPrice.None? && s.remaining == s.initialLots)
  }

  /** What every closed V5 position satisfies: how far from the entry it left, by reason. */
  ghost predicate ClosedInvariant(s0: Ladder, s: Ladder) {
    && s.closed && s.exitPrice.Some? && s.exitReason.Some?
    && s.dir == s0.dir && s.entry == s0.entry && s.tp1 == s0.tp1 && s.tp2 == s0.tp2
    && s.risk == s0.risk && s.initialLots == s0.initialLots
    && s.remaining == 0.0
    && var g := Gain(s.dir, s.entry, s.exitPrice.value);
       match s.exitReason.value {
         case StopLoss => !s.tp1Hit && g == -s.risk
         case Trail => s.tp1Hit && 0.0 <= g < RR_TP2 * s.risk
         case TakeProfit2 => s.tp1Hit && g == RR_TP2 * s.risk
         case Eod => !s.tp1Hit && -s.risk < g < RR_TP1 * s.risk
         case EodTrail => s.tp1Hit && -s.risk < g < RR_TP2 * s.risk
         case PartialTp1 => false
       }
  }

  lemma TrailKeepsInvariant(s0: Ladder, s: Ladder, bar: Bar)
    requires V5Trade(s0) && WellFormed(bar) && OpenInvariant(s0, s) && -s.risk < Gain(s.dir, s.entry, bar.close)
    requires !s.tp1Hit ==> Gain(s.dir, s.entry, bar.close) < RR_TP1 * s.risk
    ensures var n := AfterTp2(AfterTrail(s, bar), bar);
      if n.closed then ClosedInvariant(s0, n)
      else OpenInvariant(s0, n) && ClosedInvariant(s0, ForcedClose(n, bar.close))
  {
    var n := AfterTrail(s, bar);
    if s.tp1Hit && !TargetTouched(n, n.tp2, bar) {
      assert Gain(s.dir, bar.close, s.tp2) > 0.0;
    }
  }

  lemma StepKeepsInvariant(s0: Ladder, s: Ladder, bar: Bar)
    requires V5Trade(s0) && WellFormed(bar) && OpenInvariant(s0, s)
    ensures var n := LadderStep(s, bar);
      if n.closed then ClosedInvariant(s0, n)
      else OpenInvariant(s0, n) && ClosedInvariant(s0, ForcedClose(n, bar.close))
  {
    if StopTouched(s, bar) {
    } else {
      TrailKeepsInvariant(s0, AfterTp1(s, bar), bar);
    }
  }

  lemma {:induction false} RunKeepsInvariant(s0: Ladder, bars: seq<Bar>)
    requires V5Trade(s0)
    requires forall i :: 0 <= i < |bars| ==> WellFormed(bars[i])
    ensures var n := Run(s0, bars);
      if n.closed then ClosedInvariant(s0, n)
      else OpenInvariant(s0, n) && (bars != [] ==> ClosedInvariant(s0, ForcedClose(n, Last(bars).close)))
  {
    if bars != [] {
      RunKeepsInvariant(s0, Front(bars));
      if !Run(s0, Front(bars)).closed {
        StepKeepsInvariant(s0, Run(s0, Front(bars)), Last(bars));
      }
    }
  }

  /** The price move the formula pays for stays inside the R-multiples, with the extremes taken exactly as stated. */
  lemma MoveBounds(s0: Ladder, t: Ladder)
    requires V5Trade(s0) && ClosedInvariant(s0, t)
    ensures var move :=
        PaidMove(t.dir, t.entry, t.tp1, t.exitPrice.value, t.tp1Hit && t.exitReason != Some(TakeProfit2));
      && -t.risk <= move <= RR_TP2 * t.risk
      && (move == -t.risk <==> t.exitReason == Some(StopLoss))
      && (move == RR_TP2 * t.risk <==> t.exitReason == Some(TakeProfit2))
      && (t.tp1Hit ==> move > 0.0)
  {
  }

  lemma MoneyIsMonotone(low: real, high: real, lots: real, contract: real)
    requires low < high && lots > 0.0 && contract > 0.0
    ensures Money(low, lots, contract, false) < Money(high, lots, contract, false)
  {
    assert low * lots < high * lots;
  }

  lemma MoneyInOrder(low: real, move: real, high: real, lots: real, contract: real)
    requires low <= move <= high && lots > 0.0 && contract > 0.0
    ensures var m := Money(move, lots, contract, false);
      && Money(low, lots, contract, false) <= m <= Money(high, lots, contract, false)
      && (m == Money(low, lots, contract, false) <==> move == low)
      && (m == Money(high, lots, contract, false) <==> move == high)
      && (move > 0.0 ==> m > 0.0)
  {
    if low < move { MoneyIsMonotone(low, move, lots, contract); }
    if move < high { MoneyIsMonotone(move, high, lots, contract); }
    if 0.0 < move { MoneyIsMonotone(0.0, move, lots, contract); }
  }

  /**
   * Every V5 trade over every well-formed price path makes between -1R and +2.5R, loses the full R exactly when it is
   * stopped out before TP1, makes the full 2.5R exactly on TP2, and is profitable once TP1 was touched.
   */
  lemma Payoff(s0: Ladder, bars: seq<Bar>, contract: real)
    requires V5Trade(s0) && contract > 0.0
    requires bars != [] && forall i :: 0 <= i < |bars| ==> WellFormed(bars[i])
    ensures var t := Trade(s0, bars);
      var loss := Money(-s0.risk, s0.initialLots, contract, false);
      var best := Money(RR_TP2 * s0.risk, s0.initialLots, contract, false);
      && loss <= Pnl(t, contract, false) <= best
      && (Pnl(t, contract, false) == loss <==> t.exitReason == Some(StopLoss))
      && (Pnl(t, contract, false) == best <==> t.exitReason == Some(TakeProfit2))
      && (t.tp1Hit ==> Pnl(t, contract, false) > 0.0)
      && t.closed && t.remaining == 0.0
  {
    var t := Trade(s0, bars);
    assert ClosedInvariant(s0, t) by { RunKeepsInvariant(s0, bars); }
    MoveBounds(s0, t);
    var move := PaidMove(t.dir, t.entry, t.tp1, t.exitPrice.value, t.tp1Hit && t.exitReason != Some(TakeProfit2));
    MoneyInOrder(-s0.risk, move, RR_TP2 * s0.risk, s0.initialLots, contract);
  }

  // ------------------------------------------------------------------ the ledger of emitted actions

  /** What a broker that executes the emitted actions books. */
  datatype Ledger = Ledger(open: real, closedLots: real, profit: real)

  function Execute(dir: Direction, entry: real, l: Ledger, a: ExitAction): Ledger {
    if a.exitPrice.None? then l
    else
      var lots := if a.closeFull then l.open else l.open * a.partialClose;
      Ledger(l.open - lots, l.closedLots + lots, l.profit + Gain(dir, entry, a.exitPrice.value) * lots)
  }

  function ExecuteAll(dir: Direction, entry: real, l: Ledger, actions: seq<ExitAction>): Ledger {
    if actions == [] then l else Execute(dir, entry, ExecuteAll(dir, entry, l, Front(actions)), Last(actions))
  }

  lemma {:induction false} ExecuteConcat(dir: Direction, entry: real, l: Ledger, a: seq<ExitAction>, b: seq<ExitAction>)
    ensures ExecuteAll(dir, entry, l, a + b) == ExecuteAll(dir, entry, ExecuteAll(dir, entry, l, a), b)
  {
    if b == [] {
      assert a + b == a;
    } else {
      assert Front(a + b) == a + Front(b);
      ExecuteConcat(dir, entry, l, a, Front(b));
    }
  }

  /** Profit already booked by the actions, given the state of the ladder. */
  function Booked(s: Ladder): real {
    var half := if s.tp1Hit then Gain(s.dir, s.entry, s.tp1) * (s.initialLots * PARTIAL_CLOSE_FRACTION) else 0.0;
    var open := if s.tp1Hit then s.initialLots * (1.0 - PARTIAL_CLOSE_FRACTION) else s.initialLots;
    half + if s.exitPrice.Some? then Gain(s.dir, s.entry, s.exitPrice.value) * open else 0.0
  }

  ghost predicate LedgerMatches(s: Ladder, l: Ledger) {
    l.open == s.remaining && l.closedLots == s.initialLots - s.remaining && l.profit == Booked(s)
  }

  /** The remaining lots are the initial lots, halved once TP1 was hit, and gone once closed. */
  ghost predicate LotsInvariant(s: Ladder) {
    && s.closed == s.exitPrice.Some?
    && s.remaining == if s.closed then 0.0
                      else if s.tp1Hit then s.initialLots * (1.0 - PARTIAL_CLOSE_FRACTION) else s.initialLots
  }

  lemma ExecuteOne(dir: Direction, entry: real, l: Ledger, a: ExitAction)
    ensures ExecuteAll(dir, entry, l, []) == l
    ensures ExecuteAll(dir, entry, l, [a]) == Execute(dir, entry, l, a)
  {
    assert Front([a]) == [];
  }

  lemma Tp1ActionsMatch(s: Ladder, bar: Bar, l: Ledger)
    requires LotsInvariant(s) && LedgerMatches(s, l) && !s.closed && AfterTp1(s, bar) != s
    ensures LotsInvariant(AfterTp1(s, bar))
    ensures LedgerMatches(AfterTp1(s, bar), Execute(s.dir, s.entry, l,
              ExitAction(false, PARTIAL_CLOSE_FRACTION, Some(s.entry), Some(s.tp1), Some(PartialTp1))))
  {
  }

  lemma TrailMatches(s: Ladder, bar: Bar, l: Ledger)
    requires LotsInvariant(s) && LedgerMatches(s, l)
    ensures LotsInvariant(AfterTrail(s, bar)) && LedgerMatches(AfterTrail(s, bar), l)
  {
    assert Booked(AfterTrail(s, bar)) == Booked(s);
  }

  lemma FullCloseMatches(s: Ladder, price: real, reason: Reason, l: Ledger)
    requires LotsInvariant(s) && LedgerMatches(s, l) && !s.closed
    ensures LotsInvariant(Closed(s, price, reason))
    ensures LedgerMatches(Closed(s, price, reason),
                          Execute(s.dir, s.entry, l, ExitAction(true, 0.0, None, Some(price), Some(reason))))
  {
  }

  /** The bar's three possible instructions keep the books in step with the ladder. */
  lemma OpenActionsMatch(s: Ladder, bar: Bar, l: Ledger)
    requires LotsInvariant(s) && LedgerMatches(s, l) && !s.closed && !StopTouched(s, bar)
    ensures LotsInvariant(LadderStep(s, bar))
    ensures LedgerMatches(LadderStep(s, bar), ExecuteAll(s.dir, s.entry, l, StepActions(s, bar)))
  {
    var d, e := s.dir, s.entry;
    var s1 := AfterTp1(s, bar);
    var s2 := AfterTrail(s1, bar);
    var half := ExitAction(false, PARTIAL_CLOSE_FRACTION, Some(s.entry), Some(s.tp1), Some(PartialTp1));
    var move := ExitAction(false, 0.0, Some(s2.sl), None, None);
    var full := ExitAction(true, 0.0, None, Some(s.tp2), Some(TakeProfit2));
    var a := if s1 != s then [half] else [];
    var b := if s2.sl != s1.sl then [move] else [];
    var c := if AfterTp2(s2, bar).closed then [full] else [];
    assert StepActions(s, bar) == a + b + c;
    ExecuteConcat(d, e, l, a + b, c);
    ExecuteConcat(d, e, l, a, b);
    var l1 := ExecuteAll(d, e, l, a);
    assert LotsInvariant(s1) && LedgerMatches(s1, l1) by {
      ExecuteOne(d, e, l, half);
      if s1 != s { Tp1ActionsMatch(s, bar, l); }
    }
    assert ExecuteAll(d, e, l1, b) == l1 by { ExecuteOne(d, e, l1, move); }
    TrailMatches(s1, bar, l1);
    ExecuteOne(d, e, l1, full);
    if AfterTp2(s2, bar).closed { FullCloseMatches(s2, s.tp2, TakeProfit2, l1); }
  }

  lemma StepActionsMatch(s: Ladder, bar: Bar, l: Ledger)
    requires LotsInvariant(s) && LedgerMatches(s, l)
    ensures LotsInvariant(LadderStep(s, bar))
    ensures LedgerMatches(LadderStep(s, bar), ExecuteAll(s.dir, s.entry, l, StepActions(s, bar)))
  {
    if s.closed {
    } else if StopTouched(s, bar) {
      var reason := if s.tp1Hit then Trail else StopLoss;
      FullCloseMatches(s, s.sl, reason, l);
      ExecuteOne(s.dir, s.entry, l, ExitAction(true, 0.0, None, Some(s.sl), Some(reason)));
    } else {
      OpenActionsMatch(s, bar, l);
    }
  }

  lemma {:induction false} RunKeepsTerms(s: Ladder, bars: seq<Bar>)
    ensures Run(s, bars).dir == s.dir && Run(s, bars).entry == s.entry && Run(s, bars).initialLots == s.initialLots
  {
    if bars != [] { RunKeepsTerms(s, Front(bars)); }
  }

  lemma {:induction false} RunActionsMatch(s: Ladder, bars: seq<Bar>, l: Ledger)
    requires LotsInvariant(s) && LedgerMatches(s, l)
    ensures LotsInvariant(Run(s, bars))
    ensures LedgerMatches(Run(s, bars), ExecuteAll(s.dir, s.entry, l, RunActions(s, bars)))
  {
    if bars != [] {
      RunActionsMatch(s, Front(bars), l);
      RunKeepsTerms(s, Front(bars));
      var before := Run(s, Front(bars));
      var mid := ExecuteAll(s.dir, s.entry, l, RunActions(s, Front(bars)));
      StepActionsMatch(before, Last(bars), mid);
      ExecuteConcat(s.dir, s.entry, l, RunActions(s, Front(bars)), StepActions(before, Last(bars)));
    }
  }

  /** A TP2 exit is at the TP2 price, after TP1. */
  lemma {:induction false} Tp2ExitIsAtTp2(s0: Ladder, bars: seq<Bar>)
    requires s0.exitReason.None?
    ensures var s := Run(s0, bars);
      && s.tp1 == s0.tp1 && s.tp2 == s0.tp2
      && (s.exitReason == Some(TakeProfit2) ==> s.closed && s.tp1Hit && s.exitPrice == Some(s.tp2))
  {
    if bars != [] { Tp2ExitIsAtTp2(s0, Front(bars)); }
  }

  lemma SplitMoney(d1: real, g: real, lots: real, contract: real)
    ensures Money(d1 * PARTIAL_CLOSE_FRACTION + g * (1.0 - PARTIAL_CLOSE_FRACTION), lots, contract, false)
         == (d1 * (lots * PARTIAL_CLOSE_FRACTION) + g * (lots * (1.0 - PARTIAL_CLOSE_FRACTION))) * contract
  {
  }

  /** The half closed at TP1, revalued at TP2. */
  function DoubleCounted(t: Ladder, contract: real, jpy: bool): real {
    if t.exitReason == Some(TakeProfit2) then
      Money(PARTIAL_CLOSE_FRACTION * Gain(t.dir, t.tp1, t.tp2), t.initialLots, contract, jpy)
    else 0.0
  }

  /** The backtest's P&L exceeds the executed one by the half that was already closed at TP1, and only on TP2. */
  lemma PnlVersusBooked(t: Ladder, contract: real, jpy: bool)
    requires t.exitPrice.Some?
    requires t.exitReason == Some(TakeProfit2) ==> t.exitPrice == Some(t.tp2) && t.tp1Hit
    ensures Pnl(t, contract, jpy) == InAccount(Booked(t) * contract, jpy) + DoubleCounted(t, contract, jpy)
  {
    hide Booked;
    RawVersusBooked(t, contract);
    var pnl, booked, extra := Pnl(t, contract, false), Booked(t) * contract, DoubleCounted(t, contract, false);
    assert pnl == booked + extra;
    assert (booked + extra) / JPY_DIVISOR == booked / JPY_DIVISOR + extra / JPY_DIVISOR;
  }

  lemma RawVersusBooked(t: Ladder, contract: real)
    requires t.exitPrice.Some?
    requires t.exitReason == Some(TakeProfit2) ==> t.exitPrice == Some(t.tp2) && t.tp1Hit
    ensures Pnl(t, contract, false) == Booked(t) * contract + DoubleCounted(t, contract, false)
  {
    var d1 := Gain(t.dir, t.entry, t.tp1);
    var g := Gain(t.dir, t.entry, t.exitPrice.value);
    SplitMoney(d1, g, t.initialLots, contract);
    if t.exitReason == Some(TakeProfit2) {
      var extra := PARTIAL_CLOSE_FRACTION * Gain(t.dir, t.tp1, t.tp2);
      assert g == (d1 * PARTIAL_CLOSE_FRACTION + g * (1.0 - PARTIAL_CLOSE_FRACTION)) + extra;
    }
  }

  /** What executing everything the ladder emits over a whole trade books. */
  function TradeLedger(s0: Ladder, bars: seq<Bar>): Ledger
    requires bars != []
  {
    ExecuteAll(s0.dir, s0.entry, Ledger(s0.initialLots, 0.0, 0.0),
               RunActions(s0, bars) + ForcedCloseActions(Run(s0, bars), Last(bars).close))
  }

  /** The books after the whole trade: all lots closed, and the profit `Booked` says. */
  lemma TradeActionsMatch(s0: Ladder, bars: seq<Bar>)
    requires Fresh(s0) && bars != []
    ensures var t, l := Trade(s0, bars), TradeLedger(s0, bars);
      t.exitPrice.Some? && l.open == 0.0 && l.closedLots == s0.initialLots && l.profit == Booked(t)
  {
    var l0 := Ledger(s0.initialLots, 0.0, 0.0);
    RunActionsMatch(s0, bars, l0);
    RunKeepsTerms(s0, bars);
    var s := Run(s0, bars);
    var l1 := ExecuteAll(s0.dir, s0.entry, l0, RunActions(s0, bars));
    var forced := ForcedCloseActions(s, Last(bars).close);
    ExecuteConcat(s0.dir, s0.entry, l0, RunActions(s0, bars), forced);
    if !s.closed {
      FullCloseMatches(s, Last(bars).close, if s.tp1Hit then EodTrail else Eod, l1);
      ExecuteOne(s0.dir, s0.entry, l1, forced[0]);
    }
  }

  /**
   * Over every bar path, well-formed or not: the actions close exactly the initial lots, and `compute_pnl` equals the
   * profit they book except on TP2, where it counts the half already closed at TP1 as if it had run to TP2.
   */
  lemma ActionLedger(s0: Ladder, bars: seq<Bar>, contract: real, jpy: bool)
    requires Fresh(s0) && bars != []
    ensures var t, l := Trade(s0, bars), TradeLedger(s0, bars);
      && l.closedLots == s0.initialLots && l.open == 0.0
      && Pnl(t, contract, jpy) == InAccount(l.profit * contract, jpy) + DoubleCounted(t, contract, jpy)
  {
    var t, l := Trade(s0, bars), TradeLedger(s0, bars);
    TradeActionsMatch(s0, bars);
    assert t.exitReason == Some(TakeProfit2) ==> t.exitPrice == Some(t.tp2) && t.tp1Hit by { Tp2ExitIsAtTp2(s0, bars); }
    PnlVersusBooked(t, contract, jpy);
    assert Booked(t) == l.profit;
  }

  /** One lot bought at 100 with a risk of one. */
  function BoughtAt100(): Ladder {
    Opened(Buy, 100.0, 99.0, None, 102.5, 1.0)
  }

  /** One bar through TP1, one through TP2. */
  function ThroughBothTargets(): seq<Bar> {
    [Bar("", 0, 100.0, 101.2, 100.0, 101.0, 0, 0.0), Bar("", 1, 101.0, 102.6, 100.8, 102.6, 0, 0.0)]
  }

  /** The formula pays 2.5 R where executing the actions earns 1.75 R. */
  lemma Tp2CountsHalfTwice()
    ensures var s0, bars := BoughtAt100(), ThroughBothTargets();
      && V5Trade(s0) && (forall b :: b in bars ==> WellFormed(b)) && Trade(s0, bars).exitReason == Some(TakeProfit2)
      && Pnl(Trade(s0, bars), 100.0, false) == 250.0 && TradeLedger(s0, bars).profit == 1.75
  {
    hide TradeLedger, Booked, DoubleCounted;
    var s0, bars := BoughtAt100(), ThroughBothTargets();
    assert Front(bars) == [bars[0]] && Front([bars[0]]) == [];
    assert Run(s0, []) == s0;
    var s1 := LadderStep(s0, bars[0]);
    assert s1 == s0.(tp1Hit := true, partialPrice := Some(101.0), sl := 100.7, remaining := 0.5);
    assert Run(s0, [bars[0]]) == s1;
    var t := LadderStep(s1, bars[1]);
    assert t == Closed(s1.(sl := 102.3), 102.5, TakeProfit2);
    assert Trade(s0, bars) == t;
    TradeActionsMatch(s0, bars);
    assert Booked(t) == 1.75 by { HalfEach(t); }
  }

  lemma HalfEach(t: Ladder)
    requires t.dir == Buy && t.entry == 100.0 && t.tp1Hit && t.tp1 == 101.0
    requires t.exitPrice == Some(102.5) && t.initialLots == 1.0
    ensures Booked(t) == 1.75
  {
  }
}
