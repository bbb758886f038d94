/**
 * What one trade of the multi-setup backtest can win or lose on every path of bars (scripts/multi_setup_backtest.py).
 */
module MultiSetupPayoff {
  import opened Common
  import opened Market
  import opened MultiSetupTrade
  import opened RealFacts

  /** The trade after these bars; frozen once closed. */
  function Lived(t: Trade, bars: seq<Bar>, pair: Pair): Update {
    if bars == [] then Update(t, None)
    else
      var u := Lived(t, Front(bars), pair);
      if u.closed.Some? then u else Updated(u.trade, Last(bars), pair)
  }

  /** Account currency per price unit of the whole position. */
  function Unit(t: Trade, pair: Pair): real {
    t.lots * (1.0 / pair.pip) * t.pipValue
  }

  ghost predicate Fresh(t: Trade) {
    && t.risk == Gain(t.dir, t.sl, t.entry) > 0.0 && t.remaining == t.lots > 0.0 && t.pipValue > 0.0
    && t.realized == 0.0 && !t.tp1Hit
  }

  ghost predicate SameTrade(t: Trade, u: Trade) {
    u == t.(sl := u.sl, remaining := u.remaining, tp1Hit := u.tp1Hit, realized := u.realized)
  }

  function HalfSpread(pair: Pair): real {
    0.5 * pair.maxSpread * pair.pip
  }

  /** An open trade: untouched, or half closed with its stop at break-even plus half the spread or better. */
  ghost predicate Alive(t: Trade, u: Trade, pair: Pair) {
    if !u.tp1Hit then u == t
    else
      && SameTrade(t, u) && u.remaining == t.lots * 0.5
      && u.realized == Gain(t.dir, t.entry, t.tp1) * Unit(t, pair) * 0.5
      && Gain(t.dir, t.entry, u.sl) >= HalfSpread(pair)
  }

  /** The result of a closed trade by its reason. */
  ghost predicate Pays(t: Trade, c: Closed, pair: Pair) {
    var unit, first := Unit(t, pair), Gain(t.dir, t.entry, t.tp1);
    match c.reason
    case SL => c.gross == -(t.risk * unit)
    case TP2 => c.gross == first * unit * 0.5 + Gain(t.dir, t.entry, t.tp2) * unit * 0.5
    case TRAIL => c.gross >= first * unit * 0.5 + HalfSpread(pair) * unit * 0.5
    case _ => false
  }

  lemma ProfitIsMoveTimesUnit(t: Trade, u: Trade, pair: Pair, price: real)
    requires SameTrade(t, u)
    ensures Profit(u, pair, price, t.lots) == Gain(t.dir, t.entry, price) * Unit(t, pair)
    ensures Profit(u, pair, price, t.lots * 0.5) == Gain(t.dir, t.entry, price) * Unit(t, pair) * 0.5
  {
  }

  lemma UnitIsPositive(t: Trade, pair: Pair)
    requires t.lots > 0.0 && t.pipValue > 0.0
    ensures Unit(t, pair) > 0.0
  {
    PositiveProduct(t.lots, 1.0 / pair.pip);
    PositiveProduct(t.lots * (1.0 / pair.pip), t.pipValue);
  }

  lemma PartialKeepsAlive(t: Trade, u: Trade, bar: Bar, pair: Pair)
    requires Fresh(t) && Alive(t, u, pair)
    ensures Alive(t, AfterTp1(u, bar, pair), pair)
  {
    hide Profit, Unit;
    ProfitIsMoveTimesUnit(t, u, pair, u.tp1);
  }

  lemma TrailKeepsAlive(t: Trade, u: Trade, bar: Bar, pair: Pair)
    requires Fresh(t) && Alive(t, u, pair)
    ensures Alive(t, AfterTrail(u, bar), pair)
    ensures Gain(t.dir, u.sl, AfterTrail(u, bar).sl) >= 0.0
  {
    hide Unit;
  }

  lemma StopPays(t: Trade, u: Trade, bar: Bar, pair: Pair)
    requires Fresh(t) && Alive(t, u, pair) && StopHit(u, bar)
    ensures Pays(t, Updated(u, bar, pair).closed.value, pair)
  {
    hide Profit, Unit;
    ProfitIsMoveTimesUnit(t, u, pair, u.sl);
    UnitIsPositive(t, pair);
    ScaledRisk(1.0, t.risk, Unit(t, pair));
    if u.tp1Hit { Scales(Gain(t.dir, t.entry, u.sl), HalfSpread(pair), Unit(t, pair)); }
  }

  lemma TargetPays(t: Trade, u: Trade, bar: Bar, pair: Pair)
    requires Fresh(t) && Alive(t, u, pair) && u.tp1Hit
    ensures Pays(t, CloseRecord(Booked(u, pair, u.tp2), bar, u.tp2, TP2), pair)
  {
    hide Profit, Unit;
    ProfitIsMoveTimesUnit(t, u, pair, u.tp2);
  }

  lemma UpdatePays(t: Trade, u: Trade, bar: Bar, pair: Pair)
    requires Fresh(t) && Alive(t, u, pair)
    ensures var r := Updated(u, bar, pair);
      if r.closed.Some? then Pays(t, r.closed.value, pair) else Alive(t, r.trade, pair)
  {
    hide Pays, Alive, AfterTp1, AfterTrail, Booked, CloseRecord;
    if StopHit(u, bar) {
      StopPays(t, u, bar, pair);
    } else {
      var v := AfterTp1(u, bar, pair);
      PartialKeepsAlive(t, u, bar, pair);
      if v.tp1Hit && TargetHit(v, v.tp2, bar) {
        TargetPays(t, v, bar, pair);
      } else {
        TrailKeepsAlive(t, v, bar, pair);
      }
    }
  }

  /** On every path of bars whatsoever, a trade its own rules close pays what its reason says. */
  lemma {:induction false} EveryPathPays(t: Trade, bars: seq<Bar>, pair: Pair)
    requires Fresh(t)
    ensures var u := Lived(t, bars, pair);
      if u.closed.Some? then Pays(t, u.closed.value, pair) else Alive(t, u.trade, pair)
  {
    hide Pays, Alive, Updated;
    if bars == [] {
      NothingHappened(t, pair);
    } else {
      EveryPathPays(t, Front(bars), pair);
      var u := Lived(t, Front(bars), pair);
      if u.closed.None? { UpdatePays(t, u.trade, Last(bars), pair); }
    }
  }

  lemma NothingHappened(t: Trade, pair: Pair)
    requires Fresh(t)
    ensures Alive(t, t, pair)
  {
  }

  // ------------------------------------------------------------------ the loss bound

  /** Closed by its own rules, the trade loses no more than what was staked. */
  predicate KeepsToRisk(t: Trade, bars: seq<Bar>, pair: Pair) {
    var u := Lived(t, bars, pair);
    u.closed.Some? ==> u.closed.value.gross >= -(t.risk * Unit(t, pair))
  }

  /** Half a position at the first target and half at the nearer of the other two exits lose no more than the risk. */
  predicate FirstTargetIsSane(t: Trade, pair: Pair) {
    Gain(t.dir, t.entry, t.tp1) + Min(Gain(t.dir, t.entry, t.tp2), HalfSpread(pair)) >= -2.0 * t.risk
  }

  /** Half the stake at each of two exits. */
  lemma TwoHalves(first: real, second: real, least: real, unit: real)
    requires unit > 0.0
    ensures first + second >= 2.0 * least ==> first * unit * 0.5 + second * unit * 0.5 >= least * unit
    ensures first + second > 2.0 * least ==> first * unit * 0.5 + second * unit * 0.5 > least * unit
    ensures first + second < 2.0 * least ==> first * unit * 0.5 + second * unit * 0.5 < least * unit
  {
    var p := (first + second - 2.0 * least) * unit;
    assert p == first * unit + second * unit - 2.0 * (least * unit);
    SignOfProduct(first + second - 2.0 * least, unit, p);
    SignOfProduct(2.0 * least - first - second, unit, -p);
  }

  lemma SanePays(t: Trade, c: Closed, pair: Pair)
    requires Fresh(t) && FirstTargetIsSane(t, pair) && Pays(t, c, pair)
    ensures c.gross >= -(t.risk * Unit(t, pair))
  {
    hide Unit;
    UnitIsPositive(t, pair);
    ScaledRisk(1.0, t.risk, Unit(t, pair));
    TwoHalves(Gain(t.dir, t.entry, t.tp1), Gain(t.dir, t.entry, t.tp2), -t.risk, Unit(t, pair));
    TwoHalves(Gain(t.dir, t.entry, t.tp1), HalfSpread(pair), -t.risk, Unit(t, pair));
  }

  lemma SaneKeepsToRisk(t: Trade, bars: seq<Bar>, pair: Pair)
    requires Fresh(t) && FirstTargetIsSane(t, pair)
    ensures KeepsToRisk(t, bars, pair)
  {
    hide Lived, Unit, Pays, FirstTargetIsSane;
    EveryPathPays(t, bars, pair);
    var u := Lived(t, bars, pair);
    if u.closed.Some? { SanePays(t, u.closed.value, pair); }
  }

  function FlatBar(price: real, high: real, low: real): Bar {
    Bar("", 0, price, high, low, price, 0, 0.0)
  }

  /** One bar from the entry to the second target. */
  function ToTarget(t: Trade): Bar {
    if t.dir.Buy? then FlatBar(t.entry, t.tp2, t.entry) else FlatBar(t.entry, t.entry, t.tp2)
  }

  /** Two bars that never leave the entry price. */
  function Standing(t: Trade): seq<Bar> {
    [FlatBar(t.entry, t.entry, t.entry), FlatBar(t.entry, t.entry, t.entry)]
  }

  lemma ReachingTargetPays(t: Trade, pair: Pair)
    requires Fresh(t) && Gain(t.dir, t.entry, t.tp1) < 0.0 < Gain(t.dir, t.entry, t.tp2)
    ensures var u := Lived(t, [ToTarget(t)], pair);
      && u.closed.Some? && u.closed.value.reason == TP2
  {
    hide Profit;
    assert Front([ToTarget(t)]) == [];
  }

  lemma StandingStillPays(t: Trade, pair: Pair)
    requires Fresh(t) && Gain(t.dir, t.entry, t.tp1) < 0.0 < Gain(t.dir, t.entry, t.tp2)
    ensures var u := Lived(t, Standing(t), pair);
      && u.closed.Some? && u.closed.value.reason == TRAIL
      && u.closed.value.gross ==
          Gain(t.dir, t.entry, t.tp1) * Unit(t, pair) * 0.5 + HalfSpread(pair) * Unit(t, pair) * 0.5
  {
    hide Unit, Profit, Updated;
    var bar := FlatBar(t.entry, t.entry, t.entry);
    assert Front(Standing(t)) == [bar] && Front([bar]) == [];
    var u := AfterTp1(t, bar, pair);
    assert Lived(t, [], pair) == Update(t, None);
    StandingTakesHalf(t, bar, pair);
    assert Lived(t, [bar], pair) == Update(u, None);
    StandingStopsOut(t, u, bar, pair);
  }

  lemma StandingTakesHalf(t: Trade, bar: Bar, pair: Pair)
    requires Fresh(t) && Gain(t.dir, t.entry, t.tp1) < 0.0 < Gain(t.dir, t.entry, t.tp2)
    requires bar == FlatBar(t.entry, t.entry, t.entry)
    ensures var u := AfterTp1(t, bar, pair);
      && Updated(t, bar, pair) == Update(u, None)
      && u.tp1Hit && u.sl == Shift(t.dir, t.entry, HalfSpread(pair)) && u.remaining == t.lots * 0.5 && SameTrade(t, u)
      && u.realized == Gain(t.dir, t.entry, t.tp1) * Unit(t, pair) * 0.5
  {
    hide Unit, Profit;
    PositiveProduct(0.5 * pair.maxSpread, pair.pip);
    ProfitIsMoveTimesUnit(t, t, pair, t.tp1);
  }

  lemma StandingStopsOut(t: Trade, u: Trade, bar: Bar, pair: Pair)
    requires SameTrade(t, u) && u.tp1Hit && u.remaining == t.lots * 0.5
    requires u.sl == Shift(t.dir, t.entry, HalfSpread(pair))
    requires bar == FlatBar(t.entry, t.entry, t.entry)
    ensures var r := Updated(u, bar, pair);
      && r.closed.Some? && r.closed.value.reason == TRAIL
      && r.closed.value.gross == u.realized + HalfSpread(pair) * Unit(t, pair) * 0.5
  {
    hide Unit, Profit;
    PositiveProduct(0.5 * pair.maxSpread, pair.pip);
    ProfitIsMoveTimesUnit(t, u, pair, u.sl);
  }

  /**
   * Every path of bars keeps to the risk exactly when the first target is sane. Where it is not, well-formed bars
   * lose more: one bar through both targets, or two at the entry price.
   */
  lemma LossBoundExactly(t: Trade, pair: Pair)
    requires Fresh(t) && Gain(t.dir, t.entry, t.tp2) > 0.0
    ensures FirstTargetIsSane(t, pair) <==> forall bars :: KeepsToRisk(t, bars, pair)
    ensures !FirstTargetIsSane(t, pair) ==>
              exists bars :: (forall b :: b in bars ==> WellFormed(b)) && !KeepsToRisk(t, bars, pair)
  {
    hide Lived, Unit, KeepsToRisk;
    if FirstTargetIsSane(t, pair) {
      forall bars ensures KeepsToRisk(t, bars, pair) { SaneKeepsToRisk(t, bars, pair); }
    } else {
      InsaneLosesMore(t, pair);
      assert forall b :: b in [ToTarget(t)] ==> WellFormed(b);
      assert forall b :: b in Standing(t) ==> WellFormed(b);
    }
  }

  lemma InsaneLosesMore(t: Trade, pair: Pair)
    requires Fresh(t) && Gain(t.dir, t.entry, t.tp2) > 0.0 && !FirstTargetIsSane(t, pair)
    ensures !KeepsToRisk(t, [ToTarget(t)], pair) || !KeepsToRisk(t, Standing(t), pair)
  {
    hide Lived, Unit;
    PositiveProduct(0.5 * pair.maxSpread, pair.pip);
    UnitIsPositive(t, pair);
    ScaledRisk(1.0, t.risk, Unit(t, pair));
    ReachingTargetPays(t, pair);
    EveryPathPays(t, [ToTarget(t)], pair);
    StandingStillPays(t, pair);
    TwoHalves(Gain(t.dir, t.entry, t.tp1), Gain(t.dir, t.entry, t.tp2), -t.risk, Unit(t, pair));
    TwoHalves(Gain(t.dir, t.entry, t.tp1), HalfSpread(pair), -t.risk, Unit(t, pair));
  }

  /**
   * Sized on the current balance, a trade its own rules close loses no more than RISK_PCT percent of it before
   * commission when its first target is sane; with a first target in profit it wins once that was hit.
   */
  lemma LossIsCapped(sig: Signal, symbol: string, k: nat, time: int, pair: Pair, balance: real, pipValue: real,
                     bars: seq<Bar>)
    requires var t := Opened(sig, symbol, k, time, pair, balance, pipValue);
      t.Some? && FirstTargetIsSane(t.value, pair) && Lived(t.value, bars, pair).closed.Some?
    ensures var t := Opened(sig, symbol, k, time, pair, balance, pipValue).value;
      var c := Lived(t, bars, pair).closed.value;
      && c.gross >= -(balance * (RISK_PCT / 100.0))
      && (c.reason != SL && Gain(t.dir, t.entry, t.tp1) >= 0.0 ==> c.gross > 0.0)
  {
    hide Unit, Lived, Opened, FirstTargetIsSane, KeepsToRisk;
    var t := Opened(sig, symbol, k, time, pair, balance, pipValue).value;
    SizingFitsBudget(sig, symbol, k, time, pair, balance, pipValue);
    SaneKeepsToRisk(t, bars, pair);
    RiskIsLeast(t, bars, pair, balance * (RISK_PCT / 100.0));
    if Gain(t.dir, t.entry, t.tp1) >= 0.0 { TargetInProfitWins(t, bars, pair); }
  }

  lemma RiskIsLeast(t: Trade, bars: seq<Bar>, pair: Pair, budget: real)
    requires KeepsToRisk(t, bars, pair) && Lived(t, bars, pair).closed.Some? && t.risk * Unit(t, pair) <= budget
    ensures Lived(t, bars, pair).closed.value.gross >= -budget
  {
    hide Lived, Unit;
  }

  lemma TargetInProfitWins(t: Trade, bars: seq<Bar>, pair: Pair)
    requires Fresh(t) && Gain(t.dir, t.entry, t.tp1) >= 0.0 && Gain(t.dir, t.entry, t.tp2) > 0.0
    ensures var u := Lived(t, bars, pair);
      u.closed.Some? && u.closed.value.reason != SL ==> u.closed.value.gross > 0.0
  {
    hide Lived, Unit;
    EveryPathPays(t, bars, pair);
    UnitIsPositive(t, pair);
    PositiveProduct(0.5 * pair.maxSpread, pair.pip);
    TwoHalves(Gain(t.dir, t.entry, t.tp1), Gain(t.dir, t.entry, t.tp2), 0.0, Unit(t, pair));
    TwoHalves(Gain(t.dir, t.entry, t.tp1), HalfSpread(pair), 0.0, Unit(t, pair));
  }

  const WIDEST_SPREAD_CAP := 5.0

  /**
   * Slippage never makes a first target insane that lies on the winning side of the signal's own entry. The tag of
   * the detectors, TP1_R times their risk beyond their entry, even stays in profit: their risk is at least
   * MIN_RISK_PIPS and the widest spread cap in the table is five pips. Without a tag the target is set after slippage.
   */
  lemma DetectorTargetsAreSane(sig: Signal, symbol: string, k: nat, time: int, pair: Pair, balance: real,
                               pipValue: real)
    requires Opened(sig, symbol, k, time, pair, balance, pipValue).Some? && Gain(sig.dir, sig.sl, sig.entry) >= 0.0
    ensures var t := Opened(sig, symbol, k, time, pair, balance, pipValue).value;
      && (sig.tp1.None? || Gain(sig.dir, sig.entry, sig.tp1.value) >= 0.0 ==> FirstTargetIsSane(t, pair))
      && (sig.tp1 == Some(Shift(sig.dir, sig.entry, TP1_R * Gain(sig.dir, sig.sl, sig.entry)))
          && Gain(sig.dir, sig.sl, sig.entry) >= MIN_RISK_PIPS * pair.pip && pair.maxSpread <= WIDEST_SPREAD_CAP
          ==> FirstTargetIsSane(t, pair) && Gain(t.dir, t.entry, t.tp1) > 0.0)
  {
    hide Opened;
    var slip := HalfSpread(pair);
    SlippageMovesLevels(sig, symbol, k, time, pair, balance, pipValue);
    TargetSurvivesSlippage(Gain(sig.dir, sig.sl, sig.entry), slip, pair);
  }

  lemma SlippageMovesLevels(sig: Signal, symbol: string, k: nat, time: int, pair: Pair, balance: real, pipValue: real)
    requires Opened(sig, symbol, k, time, pair, balance, pipValue).Some?
    ensures var t := Opened(sig, symbol, k, time, pair, balance, pipValue).value;
      && HalfSpread(pair) > 0.0 && t.risk > 0.0 && Gain(t.dir, t.entry, t.tp2) > 0.0
      && t.dir == sig.dir && t.risk == Gain(sig.dir, sig.sl, sig.entry) + HalfSpread(pair)
      && (if sig.tp1.None? then Gain(t.dir, t.entry, t.tp1) == TP1_R * t.risk
          else Gain(t.dir, t.entry, t.tp1) == Gain(sig.dir, sig.entry, sig.tp1.value) - HalfSpread(pair))
  {
    hide SizedLots;
    PositiveProduct(0.5 * pair.maxSpread, pair.pip);
  }

  lemma TargetSurvivesSlippage(risk: real, slip: real, pair: Pair)
    requires slip == HalfSpread(pair)
    ensures risk >= MIN_RISK_PIPS * pair.pip && pair.maxSpread <= WIDEST_SPREAD_CAP ==> TP1_R * risk > slip
  {
    if pair.maxSpread <= WIDEST_SPREAD_CAP {
      Scales(2.5, 0.5 * pair.maxSpread, pair.pip);
      assert slip <= 2.5 * pair.pip;
    }
  }

  lemma SizingFitsBudget(sig: Signal, symbol: string, k: nat, time: int, pair: Pair, balance: real, pipValue: real)
    requires Opened(sig, symbol, k, time, pair, balance, pipValue).Some?
    ensures var t := Opened(sig, symbol, k, time, pair, balance, pipValue).value;
      && Fresh(t) && t.dir == sig.dir && LOT_MIN <= t.lots <= LOT_MAX
      && Gain(t.dir, t.entry, t.tp2) > 0.0
      && t.risk * Unit(t, pair) <= balance * (RISK_PCT / 100.0)
  {
    hide Unit, SizedLots;
    var t := Opened(sig, symbol, k, time, pair, balance, pipValue).value;
    var riskPips := InPips(t.risk, pair);
    PositiveProduct(riskPips, pipValue);
    StakeOfLots(t, pair);
    LotsStayInBudget(balance, riskPips, pipValue);
    Scales(SizedLots(balance, riskPips, pipValue), t.lots, riskPips * pipValue);
  }

  lemma StakeOfLots(t: Trade, pair: Pair)
    ensures t.risk * Unit(t, pair) == t.lots * (t.risk / pair.pip * t.pipValue)
  {
    assert t.risk * (1.0 / pair.pip) == t.risk / pair.pip;
  }

  lemma LotsStayInBudget(balance: real, riskPips: real, pipValue: real)
    requires riskPips * pipValue > 0.0
    ensures SizedLots(balance, riskPips, pipValue) * (riskPips * pipValue) <= balance * (RISK_PCT / 100.0)
  {
    LotsFitBudget(balance * (RISK_PCT / 100.0), riskPips * pipValue, LOT_STEP);
  }
}
