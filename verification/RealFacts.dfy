/** Facts about products of reals that proofs about money lean on, one at a time. */
module RealFacts {
  lemma PositiveProduct(x: real, y: real)
    requires x > 0.0 && y > 0.0
    ensures x * y > 0.0
  {
  }

  lemma SignOfProduct(x: real, y: real, p: real)
    requires y > 0.0 && p == x * y
    ensures x > 0.0 ==> p > 0.0
    ensures x >= 0.0 ==> p >= 0.0
  {
  }

  lemma Scales(x: real, y: real, u: real)
    requires x >= y && u > 0.0
    ensures x * u >= y * u
    ensures x > y ==> x * u > y * u
  {
  }

  lemma ScaledRisk(k: real, risk: real, u: real)
    ensures k * risk * u == k * (risk * u)
    ensures -risk * u == -(risk * u)
  {
  }

  /** Cutting `x` units, worth `total`, down to `whole` ones, worth `kept`, loses less than a unit. */
  lemma WithinOneStep(x: real, whole: real, u: real, total: real, kept: real)
    requires whole <= x < whole + 1.0 && u > 0.0 && x * u == total && whole * u == kept
    ensures kept <= total && total < kept + u
  {
    SignOfProduct(whole + 1.0 - x, u, kept + u - total);
    SignOfProduct(x - whole, u, total - kept);
  }

  /** Rounding a quotient down to a multiple of `step` stays within the budget, by less than one step. */
  lemma LotsFitBudget(budget: real, perLot: real, step: real)
    requires perLot > 0.0 && step > 0.0
    ensures var lots := (budget / perLot / step).Floor as real * step;
      lots * perLot <= budget && budget < lots * perLot + step * perLot
  {
    var raw := budget / perLot;
    var whole := (raw / step).Floor as real;
    WithinOneStep(raw / step, whole, step, raw, whole * step);
  }
}
