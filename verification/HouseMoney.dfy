/** The house-money risk allocator (risk/house_money.py). */
module HouseMoney {
  import opened Common

  datatype Grade = A | B | C

  function Rank(g: Grade): nat {
    match g case A => 2 case B => 1 case C => 0
  }

  datatype Mode = Standard | House | Defensive | Skip

  datatype Allocation = Allocation(grade: Grade, tradeNumber: int, basePct: real, finalPct: real, mode: Mode)

  datatype Error = GradeC | NoEquity | TradeNumber

  datatype Config = Config(base: map<Grade, real>, fraction: real, maxMult: real, defensiveMult: real)

  /** What the constructor accepts. */
  predicate ValidConfig(c: Config) {
    c.fraction >= 0.0 && c.maxMult >= 1.0 && 0.0 <= c.defensiveMult <= 1.0
  }

  function BasePct(c: Config, g: Grade): real {
    if g in c.base then c.base[g] else 0.0
  }

  /** The share of today's profit, in percent of equity, that may be risked on top. */
  function Extra(c: Config, todaysPnl: real, equity: real): real
    requires equity > 0.0
  {
    todaysPnl / equity * 100.0 * c.fraction
  }

  function Cap(c: Config, base: real): real {
    base * c.maxMult
  }

  function Defended(c: Config, base: real): real {
    base * c.defensiveMult
  }

  function CalcTradeRisk(c: Config, grade: Grade, equity: real, todaysPnl: real, tradeNumber: int)
    : (r: Result<Allocation, Error>)
    ensures r.Ok? <==> grade != C && equity > 0.0 && (tradeNumber == 1 || tradeNumber == 2)
  {
    if grade == C then Err(GradeC)
    else if equity <= 0.0 then Err(NoEquity)
    else if tradeNumber != 1 && tradeNumber != 2 then Err(TradeNumber)
    else
      var base := BasePct(c, grade);
      if base <= 0.0 then Ok(Allocation(grade, tradeNumber, 0.0, 0.0, Skip))
      else if tradeNumber == 1 then Ok(Allocation(grade, 1, base, base, Standard))
      else if todaysPnl > 0.0 then
        Ok(Allocation(grade, 2, base, Min(base + Extra(c, todaysPnl, equity), Cap(c, base)), House))
      else Ok(Allocation(grade, 2, base, Defended(c, base), Defensive))
  }

  lemma ScaleInOrder(base: real, low: real, high: real)
    requires base > 0.0 && low <= high
    ensures base * low <= base * high
  {
  }

  lemma DefendedIsLess(c: Config, base: real)
    requires base > 0.0 && 0.0 <= c.defensiveMult <= 1.0
    ensures 0.0 <= Defended(c, base) <= base
  {
    ScaleInOrder(base, 0.0, c.defensiveMult);
    ScaleInOrder(base, c.defensiveMult, 1.0);
  }

  lemma CapIsMore(c: Config, base: real)
    requires base > 0.0 && c.maxMult >= 1.0
    ensures base <= Cap(c, base)
  {
    ScaleInOrder(base, 1.0, c.maxMult);
  }

  lemma ExtraIsNonNegative(c: Config, pnl: real, equity: real)
    requires equity > 0.0 && pnl >= 0.0 && c.fraction >= 0.0
    ensures Extra(c, pnl, equity) >= 0.0
  {
    assert pnl / equity >= 0.0;
  }

  /** Inside its domain the risk never exceeds the capped multiple of the base, and is raised only after a win. */
  lemma RiskIsCapped(c: Config, grade: Grade, equity: real, todaysPnl: real, tradeNumber: int)
    requires ValidConfig(c) && CalcTradeRisk(c, grade, equity, todaysPnl, tradeNumber).Ok?
    ensures var a, base := CalcTradeRisk(c, grade, equity, todaysPnl, tradeNumber).value, BasePct(c, grade);
      && 0.0 <= a.finalPct
      && (base > 0.0 ==> Defended(c, base) <= a.finalPct <= Cap(c, base))
      && (a.finalPct > a.basePct ==> tradeNumber == 2 && todaysPnl > 0.0)
  {
    hide Extra, Cap, Defended;
    var base := BasePct(c, grade);
    if base > 0.0 {
      DefendedIsLess(c, base);
      CapIsMore(c, base);
      if todaysPnl > 0.0 { ExtraIsNonNegative(c, todaysPnl, equity); }
    }
  }

  /**
   * What is risked: nothing on a grade without a base; the base on the first trade; on the second the reduced base
   * after no profit, and after a profit the base and the fraction of that profit, in money, up to the capped multiple.
   */
  ghost predicate Risks(c: Config, base: real, equity: real, profit: real, second: bool, pct: real) {
    if base <= 0.0 then pct == 0.0
    else if !second then pct == base
    else if profit <= 0.0 then pct == c.defensiveMult * base
    else
      && pct <= c.maxMult * base
      && (pct - base) / 100.0 * equity <= c.fraction * profit
      && (pct == c.maxMult * base || (pct - base) / 100.0 * equity == c.fraction * profit)
  }

  lemma ShareOfProfit(c: Config, profit: real, equity: real)
    requires equity > 0.0
    ensures Extra(c, profit, equity) / 100.0 * equity == c.fraction * profit
  {
    var share := profit / equity;
    assert share * equity == profit;
    assert share * 100.0 * c.fraction / 100.0 * equity == c.fraction * (share * equity);
  }

  lemma LessIsLess(x: real, y: real, equity: real)
    requires x <= y && equity > 0.0
    ensures x / 100.0 * equity <= y / 100.0 * equity
  {
  }

  lemma RiskIsExactly(c: Config, grade: Grade, equity: real, todaysPnl: real, tradeNumber: int)
    ensures var r := CalcTradeRisk(c, grade, equity, todaysPnl, tradeNumber);
      if grade == C then r == Err(GradeC)
      else if equity <= 0.0 then r == Err(NoEquity)
      else if tradeNumber < 1 || tradeNumber > 2 then r == Err(TradeNumber)
      else
        && r.Ok? && r.value.grade == grade && r.value.tradeNumber == tradeNumber
        && var base := if grade in c.base then c.base[grade] else 0.0;
           Risks(c, base, equity, todaysPnl, tradeNumber == 2, r.value.finalPct)
  {
    hide Extra;
    if equity > 0.0 {
      ShareOfProfit(c, todaysPnl, equity);
      var base, extra := BasePct(c, grade), Extra(c, todaysPnl, equity);
      if base + extra > Cap(c, base) { LessIsLess(Cap(c, base) - base, extra, equity); }
    }
  }
}
