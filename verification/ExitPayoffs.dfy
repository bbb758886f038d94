/** What a trade can win or lose under each exit policy, on every path of bars, and that the sizing caps the loss. */
module ExitPayoffs {
  import opened Common
  import opened Market
  import opened ExitPolicies
  import opened RealFacts
  import SwingTracker

  /** Account currency per price unit of the whole position. */
  function Unit(p: Position, ins: Instrument): real
    requires ins.pip > 0.0
  {
    p.lots * (1.0 / ins.pip) * p.pipValue
  }

  /** The amount at stake when the trade is opened: one R in account currency. */
  function Stake(p: Position, ins: Instrument): real
    requires ins.pip > 0.0
  {
    p.risk * Unit(p, ins)
  }

  /** A trade that was just opened for this policy. */
  ghost predicate Fresh(v: Variant, p: Position) {
    && p.sl == p.slInitial && p.risk == Gain(p.dir, p.sl, p.entry) > 0.0
    && p.remaining == p.lots > 0.0 && p.pipValue > 0.0
    && p.realized == 0.0 && !p.armed && !p.partialTaken
    && p.tp == (if SetupTpR(v).Some? then Some(Shift(p.dir, p.entry, SetupTpR(v).value * p.risk)) else None)
  }

  ghost predicate SameTrade(p: Position, q: Position) {
    && q.dir == p.dir && q.entry == p.entry && q.slInitial == p.slInitial && q.tp == p.tp && q.risk == p.risk
    && q.lots == p.lots && q.pipValue == p.pipValue && q.entryIdx == p.entryIdx
  }

  function BreakEvenPrice(p: Position, ins: Instrument): real {
    Shift(p.dir, p.entry, 0.5 * ins.maxSpread * ins.pip)
  }

  /** Everything policy F can have done to trade `p` while it stays open. */
  ghost predicate PartialPhase(p: Position, q: Position, ins: Instrument)
    requires ins.pip > 0.0
  {
    if !q.armed then q == p
    else if !q.partialTaken then q == p.(armed := true, sl := BreakEvenPrice(p, ins))
    else
      && SameTrade(p, q)
      && q.remaining == p.lots * 0.5
      && q.realized == Stake(p, ins)
      && Gain(p.dir, p.entry, q.highWater) >= 2.0 * p.risk
      && Gain(p.dir, p.entry, q.sl) >= 1.7 * p.risk
  }

  /** The state of an open trade under each policy. */
  ghost predicate Alive(v: Variant, p: Position, q: Position, ins: Instrument)
    requires ins.pip > 0.0
  {
    match v
    case D =>
      && q == p.(sl := q.sl, armed := q.armed)
      && Gain(p.dir, p.slInitial, q.sl) >= 0.0
      && (!q.armed ==> q == p)
    case F => PartialPhase(p, q, ins)
    case _ => q == p
  }

  /** Profit of a trade closed by its policy, by the reason the policy gives. */
  ghost predicate Pays(v: Variant, p: Position, o: Outcome, ins: Instrument)
    requires ins.pip > 0.0 && o.exit.Some?
  {
    match o.exit.value.reason
    case SL => o.pos.realized == -Stake(p, ins)
    case TP => SetupTpR(v).Some? && v != F && o.pos.realized == SetupTpR(v).value * Stake(p, ins)
    case BE => v == F && o.pos.realized == 0.5 * ins.maxSpread * ins.pip * Unit(p, ins)
    case TRAIL =>
      (v == F && o.pos.realized >= 1.85 * Stake(p, ins))
      || (v == D && o.pos.realized == Gain(p.dir, p.entry, o.exit.value.price) * Unit(p, ins) >= -Stake(p, ins))
    case OPP_REJ => v == E && o.pos.realized > -Stake(p, ins)
    case FORCED => false
  }

  // ------------------------------------------------------------------ arithmetic

  lemma ProfitIsMoveTimesUnit(p: Position, ins: Instrument, price: real)
    requires ins.pip > 0.0
    ensures Profit(p, ins, price, p.lots) == Gain(p.dir, p.entry, price) * Unit(p, ins)
    ensures Profit(p, ins, price, p.lots * 0.5) == Gain(p.dir, p.entry, price) * Unit(p, ins) * 0.5
  {
  }

  lemma UnitIsPositive(p: Position, ins: Instrument)
    requires ins.pip > 0.0 && p.lots > 0.0 && p.pipValue > 0.0
    ensures Unit(p, ins) > 0.0
  {
    PositiveProduct(p.lots, 1.0 / ins.pip);
    PositiveProduct(p.lots * (1.0 / ins.pip), p.pipValue);
  }

  // ------------------------------------------------------------------ one bar

  /** Closing a trade that still has all its lots realises the move to the exit. */
  lemma ClosingWhole(p: Position, q: Position, ins: Instrument, price: real, reason: Reason)
    requires ins.pip > 0.0 && SameTrade(p, q) && q.remaining == p.lots && q.realized == 0.0
    ensures CloseAt(q, ins, price, reason).pos.realized == Gain(p.dir, p.entry, price) * Unit(p, ins)
  {
    ProfitIsMoveTimesUnit(p, ins, price);
  }

  lemma FixedTargetPays(v: Variant, p: Position, ins: Instrument, bar: Bar)
    requires Tradeable(ins) && Fresh(v, p) && v in {A, B, C}
    ensures var o := FixedTarget(p, ins, bar);
      if o.exit.Some? then Pays(v, p, o, ins) else o.pos == p
  {
    hide Profit, Unit;
    ClosingWhole(p, p, ins, p.sl, SL);
    ClosingWhole(p, p, ins, p.tp.value, TP);
    ScaledRisk(-1.0, p.risk, Unit(p, ins));
    ScaledRisk(SetupTpR(v).value, p.risk, Unit(p, ins));
  }

  lemma SwingExitPays(p: Position, q: Position, ins: Instrument, ltf: seq<Bar>, i: nat)
    requires Tradeable(ins) && Fresh(D, p) && Alive(D, p, q, ins) && p.entryIdx <= i < |ltf|
    ensures var o := SwingExit(q, ins, ltf, i);
      if o.exit.Some? then Pays(D, p, o, ins) else Alive(D, p, o.pos, ins) && Gain(p.dir, q.sl, o.pos.sl) >= 0.0
  {
    hide Profit, Unit, Tightest;
    ClosingWhole(p, q, ins, q.sl, if q.armed then TRAIL else SL);
    UnitIsPositive(p, ins);
    Scales(Gain(p.dir, p.entry, q.sl), -p.risk, Unit(p, ins));
    ScaledRisk(-1.0, p.risk, Unit(p, ins));
  }

  /** The stop is checked before the candle, so a rejection close is strictly better than the stop. */
  lemma RejectionExitPays(p: Position, ins: Instrument, bar: Bar, prev: Option<Bar>, rejects: Rejection)
    requires Tradeable(ins) && Fresh(E, p) && WellFormed(bar)
    ensures var o := RejectionExit(p, ins, bar, prev, rejects);
      if o.exit.Some? then Pays(E, p, o, ins) else o.pos == p
  {
    hide Profit, Unit, Booked;
    if StopHit(p, bar) {
      ClosingWhole(p, p, ins, p.sl, SL);
      ScaledRisk(1.0, p.risk, Unit(p, ins));
    } else {
      ClosingWhole(p, p, ins, bar.close, OPP_REJ);
      ClosesAboveStop(p, bar);
      UnitIsPositive(p, ins);
      Scales(Gain(p.dir, p.entry, bar.close), -p.risk, Unit(p, ins));
      ScaledRisk(1.0, p.risk, Unit(p, ins));
    }
  }

  lemma ClosesAboveStop(p: Position, bar: Bar)
    requires Fresh(E, p) && WellFormed(bar) && !StopHit(p, bar)
    ensures Gain(p.dir, p.entry, bar.close) > -p.risk
  {
  }

  lemma ProfitIgnoresProgress(p: Position, q: Position, ins: Instrument, price: real, lots: real)
    requires ins.pip > 0.0 && SameTrade(p, q)
    ensures Profit(q, ins, price, lots) == Profit(p, ins, price, lots)
  {
  }

  lemma ClosingRunner(p: Position, q: Position, ins: Instrument)
    requires Tradeable(ins) && Fresh(F, p) && PartialPhase(p, q, ins) && q.armed && q.partialTaken
    ensures Booked(q, ins, q.sl).realized >= 1.85 * Stake(p, ins)
  {
    hide Profit;
    ProfitIsMoveTimesUnit(p, ins, q.sl);
    UnitIsPositive(p, ins);
    ProfitIgnoresProgress(p, q, ins, q.sl, q.remaining);
    hide Unit;
    Scales(Gain(p.dir, p.entry, q.sl), 1.7 * p.risk, Unit(p, ins));
    ScaledRisk(1.7, p.risk, Unit(p, ins));
  }

  lemma StopPaysUnderF(p: Position, q: Position, ins: Instrument, bar: Bar)
    requires Tradeable(ins) && Fresh(F, p) && PartialPhase(p, q, ins) && StopHit(q, bar)
    ensures Pays(F, p, PartialExit(q, ins, bar), ins)
  {
    hide Profit, Unit;
    ScaledRisk(-1.0, p.risk, Unit(p, ins));
    if q.armed && q.partialTaken {
      ClosingRunner(p, q, ins);
    } else {
      ClosingWhole(p, q, ins, q.sl, SL);
    }
  }

  lemma HalfOffBanksOneR(p: Position, q: Position, ins: Instrument, bar: Bar)
    requires Tradeable(ins) && Fresh(F, p)
    requires q == p.(armed := true, sl := BreakEvenPrice(p, ins)) && Reached(q, bar, 2.0 * p.risk)
    ensures var r := HalfOff(q, ins, bar);
      && SameTrade(p, r) && r.armed && r.partialTaken && r.remaining == p.lots * 0.5 && r.sl == q.sl
      && r.realized == Stake(p, ins) && Gain(p.dir, p.entry, r.highWater) == 2.0 * p.risk
  {
    hide Profit;
    var target := Shift(p.dir, p.entry, 2.0 * p.risk);
    ProfitIsMoveTimesUnit(p, ins, target);
    ProfitIgnoresProgress(p, q, ins, target, q.remaining * 0.5);
    hide Unit;
    ScaledRisk(2.0, p.risk, Unit(p, ins));
  }

  lemma PartialExitPays(p: Position, q: Position, ins: Instrument, bar: Bar)
    requires Tradeable(ins) && Fresh(F, p) && PartialPhase(p, q, ins)
    ensures var o := PartialExit(q, ins, bar);
      if o.exit.Some? then Pays(F, p, o, ins) else PartialPhase(p, o.pos, ins) && Gain(p.dir, q.sl, o.pos.sl) >= 0.0
  {
    hide Stake, Profit, Pays;
    if StopHit(q, bar) {
      StopPaysUnderF(p, q, ins, bar);
    } else {
      var r := BreakEven(q, ins, bar);
      if r.armed && r.partialTaken {
      } else if r.armed && Reached(r, bar, 2.0 * r.risk) {
        HalfOffBanksOneR(p, r, ins, bar);
      }
    }
  }

  lemma StepPays(v: Variant, p: Position, q: Position, ins: Instrument, ltf: seq<Bar>, i: nat, rejects: Rejection)
    requires Tradeable(ins) && Fresh(v, p) && Alive(v, p, q, ins)
    requires p.entryIdx == q.entryIdx <= i < |ltf| && WellFormed(ltf[i])
    ensures var o := Step(v, q, ins, ltf, i, rejects);
      if o.exit.Some? then Pays(v, p, o, ins) else Alive(v, p, o.pos, ins) && Gain(p.dir, q.sl, o.pos.sl) >= 0.0
  {
    hide Pays, Profit, Stake, FixedTarget, SwingExit, RejectionExit, PartialExit;
    match v {
      case D => SwingExitPays(p, q, ins, ltf, i);
      case E => RejectionExitPays(p, ins, ltf[i], if i >= 1 then Some(ltf[i - 1]) else None, rejects);
      case F => PartialExitPays(p, q, ins, ltf[i]);
      case _ => FixedTargetPays(v, p, ins, ltf[i]);
    }
  }

  // ------------------------------------------------------------------ every path

  /** The payoff of every policy on every path of well-formed bars. */
  lemma {:induction false} EveryPathPays(v: Variant, p: Position, ins: Instrument, ltf: seq<Bar>, i: nat,
                                         rejects: Rejection)
    requires Tradeable(ins) && Fresh(v, p) && p.entryIdx <= i < |ltf|
    requires forall k :: p.entryIdx < k <= i ==> WellFormed(ltf[k])
    ensures var o := Watch(v, p, ins, ltf, i, rejects);
      if o.exit.Some? then Pays(v, p, o, ins) else Alive(v, p, o.pos, ins)
  {
    hide Pays, Stake, Step;
    if i > p.entryIdx {
      EveryPathPays(v, p, ins, ltf, i - 1, rejects);
      var o := Watch(v, p, ins, ltf, i - 1, rejects);
      if o.exit.None? { StepPays(v, p, o.pos, ins, ltf, i, rejects); }
    }
  }

  /** While a trade is open its stop only ever moves in its favour. */
  lemma {:induction false} StopOnlyTightens(v: Variant, p: Position, ins: Instrument, ltf: seq<Bar>, i: nat, j: nat,
                                            rejects: Rejection)
    requires Tradeable(ins) && Fresh(v, p) && p.entryIdx <= i <= j < |ltf|
    requires forall k :: p.entryIdx < k <= j ==> WellFormed(ltf[k])
    requires Watch(v, p, ins, ltf, j, rejects).exit.None?
    ensures Watch(v, p, ins, ltf, i, rejects).exit.None?
    ensures Gain(p.dir, Watch(v, p, ins, ltf, i, rejects).pos.sl, Watch(v, p, ins, ltf, j, rejects).pos.sl) >= 0.0
  {
    hide Pays, Stake, Step, Alive;
    if i < j {
      StopOnlyTightens(v, p, ins, ltf, i, j - 1, rejects);
      EveryPathPays(v, p, ins, ltf, j - 1, rejects);
      StepPays(v, p, Watch(v, p, ins, ltf, j - 1, rejects).pos, ins, ltf, j, rejects);
    }
  }

  // ------------------------------------------------------------------ sizing

  /**
   * Rounding the lots down keeps the stake within the risk budget, and within one lot step of it unless the size
   * was capped.
   */
  lemma SizingIsTight(v: Variant, sig: Signal, ins: Instrument, balance: real, pipValue: real, k: nat, p: Position)
    requires Tradeable(ins) && Open(v, sig, ins, balance, pipValue, k) == Ok(p)
    ensures Fresh(v, p) && p.entryIdx == k && p.dir == sig.dir && p.slInitial == sig.sl
    ensures LOT_MIN <= p.lots <= LOT_MAX && p.risk >= MIN_RISK_PIPS * ins.pip
    ensures Stake(p, ins) <= balance * (RISK_PCT / 100.0)
    ensures p.lots < LOT_MAX ==> balance * (RISK_PCT / 100.0) < Stake(p, ins) + LOT_STEP * (p.risk / ins.pip * pipValue)
  {
    hide Stake, Unit, Lots;
    StakeOfLots(p, ins);
    var riskPips := p.risk / ins.pip;
    PositiveProduct(riskPips, pipValue);
    LotsStayInBudget(balance, riskPips, pipValue);
    Scales(Lots(balance, riskPips, pipValue), p.lots, riskPips * pipValue);
  }

  lemma LotsStayInBudget(balance: real, riskPips: real, pipValue: real)
    requires riskPips * pipValue > 0.0
    ensures var lots := Lots(balance, riskPips, pipValue);
      var budget := balance * (RISK_PCT / 100.0);
      lots * (riskPips * pipValue) <= budget < lots * (riskPips * pipValue) + LOT_STEP * (riskPips * pipValue)
  {
    LotsFitBudget(balance * (RISK_PCT / 100.0), riskPips * pipValue, LOT_STEP);
  }

  lemma StakeOfLots(p: Position, ins: Instrument)
    requires ins.pip > 0.0
    ensures Stake(p, ins) == p.lots * (p.risk / ins.pip * p.pipValue)
  {
    assert p.risk * (1.0 / ins.pip) == p.risk / ins.pip;
  }

  /**
   * The composed bound: whatever policy closes the trade and whatever the bars do, the gross loss is at most
   * RISK_PCT percent of the balance the trade was sized on, and policy F cannot lose once its stop is at break-even.
   */
  lemma LossIsCapped(v: Variant, sig: Signal, ins: Instrument, balance: real, pipValue: real, k: nat, p: Position,
                     ltf: seq<Bar>, i: nat, rejects: Rejection)
    requires Tradeable(ins) && Open(v, sig, ins, balance, pipValue, k) == Ok(p) && k <= i < |ltf|
    requires forall j :: k < j <= i ==> WellFormed(ltf[j])
    requires Watch(v, p, ins, ltf, i, rejects).exit.Some?
    ensures var o := Watch(v, p, ins, ltf, i, rejects);
      && o.pos.realized >= -(balance * (RISK_PCT / 100.0))
      && (v == F && o.exit.value.reason != SL ==> o.pos.realized > 0.0)
  {
    hide Unit, Watch, Open;
    SizingIsTight(v, sig, ins, balance, pipValue, k, p);
    EveryPathPays(v, p, ins, ltf, i, rejects);
    UnitIsPositive(p, ins);
    PositiveProduct(p.risk, Unit(p, ins));
    PositiveProduct(0.5 * ins.maxSpread, ins.pip);
    PositiveProduct(0.5 * ins.maxSpread * ins.pip, Unit(p, ins));
  }

  // ------------------------------------------------------------------ policy D in closed form

  lemma {:induction false} TightestIsTightest(window: seq<Bar>, dir: Direction, n: nat)
    requires n <= |window|
    ensures var best := Tightest(window, dir, n);
      && (best.Some? <==> exists j :: 0 <= j < n && SwingTracker.IsSwing(window, j, L_SWING, SwingKind(dir)))
      && (best.Some? ==>
            && (exists j :: 0 <= j < n && SwingTracker.IsSwing(window, j, L_SWING, SwingKind(dir))
                            && SwingPrice(dir, window[j]) == best.value)
            && forall j :: 0 <= j < n && SwingTracker.IsSwing(window, j, L_SWING, SwingKind(dir))
                           ==> Gain(dir, SwingPrice(dir, window[j]), best.value) >= 0.0)
  {
    hide SwingTracker.IsSwing;
    if n > 0 { TightestIsTightest(window, dir, n - 1); }
  }

  /**
   * A later bar confirms swings but never unmakes one: whether bar `j` is a swing does not depend on bars past `j` + 3.
   */
  lemma SwingsPersist(window: seq<Bar>, b: Bar, j: nat, dir: Direction)
    requires j + L_SWING < |window|
    ensures SwingTracker.IsSwing(window + [b], j, L_SWING, SwingKind(dir))
        <==> SwingTracker.IsSwing(window, j, L_SWING, SwingKind(dir))
  {
    var w := window + [b];
    if j >= L_SWING {
      forall k | 1 <= k <= L_SWING
        ensures SwingTracker.BeatsAt(w, j, k, SwingKind(dir)) <==> SwingTracker.BeatsAt(window, j, k, SwingKind(dir))
      {
        assert w[j] == window[j] && w[j - k] == window[j - k] && w[j + k] == window[j + k];
      }
    }
  }

  lemma {:induction false} TightestIgnoresLaterBars(window: seq<Bar>, b: Bar, dir: Direction, n: nat)
    requires n + L_SWING <= |window|
    ensures Tightest(window + [b], dir, n) == Tightest(window, dir, n)
  {
    hide SwingTracker.IsSwing;
    if n > 0 {
      TightestIgnoresLaterBars(window, b, dir, n - 1);
      SwingsPersist(window, b, n - 1, dir);
      assert (window + [b])[n - 1] == window[n - 1];
    }
  }

  /** No swing of the longer window is looser than the tightest one of the shorter. */
  lemma TightestOnlyTightens(window: seq<Bar>, b: Bar, dir: Direction)
    ensures var before, after := Tightest(window, dir, |window|), Tightest(window + [b], dir, |window| + 1);
      before.Some? ==> after.Some? && Gain(dir, before.value, after.value) >= 0.0
  {
    hide SwingTracker.IsSwing;
    var w := window + [b];
    if |window| < L_SWING {
      NoEarlySwing(window, dir, |window|);
    } else {
      var n := |window| - L_SWING;
      NoLateSwing(window, dir, n, |window|);
      NoLateSwing(w, dir, n + 1, |w|);
      TightestIgnoresLaterBars(window, b, dir, n);
    }
  }

  /** The tightest stop policy D could ever have set from the swings of this window. */
  function SwingStop(p: Position, ins: Instrument, window: seq<Bar>): real {
    SwingTrail(p, ins, window).sl
  }

  /** One bar of policy D: the stop is that of the longer window, once armed. */
  lemma SwingStepClosedForm(p: Position, q: Position, ins: Instrument, ltf: seq<Bar>, i: nat)
    requires Tradeable(ins) && p.entryIdx < i < |ltf| && q == p.(sl := q.sl, armed := q.armed)
    requires SwingExit(q, ins, ltf, i).exit.None?
    requires q.sl == if q.armed then SwingStop(p, ins, SinceEntry(p, ltf, i - 1)) else p.sl
    ensures var r := SwingExit(q, ins, ltf, i).pos;
      && r == p.(sl := r.sl, armed := r.armed)
      && (r.armed <==> q.armed || Reached(p, ltf[i], p.risk))
      && r.sl == if r.armed then SwingStop(p, ins, SinceEntry(p, ltf, i)) else p.sl
  {
    hide Tightest, Profit;
    var before := SinceEntry(p, ltf, i - 1);
    assert SinceEntry(p, ltf, i) == before + [ltf[i]];
    TightestOnlyTightens(before, ltf[i], p.dir);
  }

  /** The trade has traded one R in its favour since entry. */
  ghost predicate SeenOneR(p: Position, ltf: seq<Bar>, i: nat)
    requires i < |ltf|
  {
    exists k :: p.entryIdx < k <= i && Reached(p, ltf[k], p.risk)
  }

  /**
   * Policy D keeps no swing memory, yet its stop is at all times a function of the bars since entry: the initial
   * stop until one R has been seen, then the tighter of the initial stop and the tightest swing less the buffer.
   */
  lemma {:induction false} SwingTrailClosedForm(p: Position, ins: Instrument, ltf: seq<Bar>, i: nat, rejects: Rejection)
    requires Tradeable(ins) && Fresh(D, p) && p.entryIdx <= i < |ltf|
    requires Watch(D, p, ins, ltf, i, rejects).exit.None?
    ensures var q := Watch(D, p, ins, ltf, i, rejects).pos;
      && q == p.(sl := q.sl, armed := q.armed)
      && (q.armed <==> SeenOneR(p, ltf, i))
      && q.sl == if q.armed then SwingStop(p, ins, SinceEntry(p, ltf, i)) else p.slInitial
  {
    hide SwingStop, SwingExit, Reached, SinceEntry;
    if i > p.entryIdx {
      SwingTrailClosedForm(p, ins, ltf, i - 1, rejects);
      SwingStepClosedForm(p, Watch(D, p, ins, ltf, i - 1, rejects).pos, ins, ltf, i);
    }
  }
}
