/**
 * What a bar does under each of the six exit policies: comparisons, prices and multiples are written out here, apart
 * from the policies' own, and hold at every bar of every path.
 */
module ExitLaws {
  import opened Common
  import opened ExitPayoffs
  import opened ExitPolicies
  import opened Market
  import SwingTracker

  // ------------------------------------------------------------------ prices and money

  /** The price `amount` to the good of the entry. */
  function Ahead(p: Position, amount: real): real {
    match p.dir
    case Buy => p.entry + amount
    case Sell => p.entry - amount
  }

  /** The stop `amount` behind a price. */
  function BehindPrice(p: Position, price: real, amount: real): real {
    match p.dir
    case Buy => price - amount
    case Sell => price + amount
  }

  function Earns(p: Position, ins: Instrument, price: real, lots: real): real
    requires ins.pip > 0.0
  {
    match p.dir
    case Buy => (price - p.entry) * lots * (1.0 / ins.pip) * p.pipValue
    case Sell => (p.entry - price) * lots * (1.0 / ins.pip) * p.pipValue
  }

  /** Everything that was open leaves at this price and for this reason. */
  predicate Leaves(p: Position, ins: Instrument, price: real, reason: Reason, o: Outcome)
    requires ins.pip > 0.0
  {
    && o.exit == Some(Exit(price, reason))
    && o.pos == p.(realized := p.realized + Earns(p, ins, price, p.remaining))
  }

  predicate Stays(p: Position, o: Outcome) {
    o == Outcome(p, None)
  }

  // ------------------------------------------------------------------ the policies

  /** The stop first, then the target. */
  predicate TargetDecides(p: Position, ins: Instrument, bar: Bar, o: Outcome)
    requires ins.pip > 0.0
  {
    if FellTo(p.dir, p.sl, bar) then Leaves(p, ins, p.sl, SL, o)
    else if p.tp.Some? && RoseTo(p.dir, p.tp.value, bar) then Leaves(p, ins, p.tp.value, TP, o)
    else Stays(p, o)
  }

  /** The stop first, then a candle against the position, at its close. */
  predicate CandleDecides(p: Position, ins: Instrument, ltf: seq<Bar>, i: nat, rejects: Rejection, o: Outcome)
    requires ins.pip > 0.0 && i < |ltf|
  {
    if FellTo(p.dir, p.sl, ltf[i]) then Leaves(p, ins, p.sl, SL, o)
    else if i > 0 && rejects(p.dir, ltf[i - 1], ltf[i]) then Leaves(p, ins, ltf[i].close, OPP_REJ, o)
    else Stays(p, o)
  }

  /** Bar `j` is a swing against the position: a strict low (high) with three bars on each side inside [from, i]. */
  ghost predicate SwingWithin(dir: Direction, ltf: seq<Bar>, from: int, i: nat, j: nat): (yes: bool)
    requires i < |ltf|
    ensures yes ==> from <= j <= i
  {
    && 0 <= from && from + 3 <= j <= i - 3
    && forall k :: j - 3 <= k <= j + 3 && k != j ==> Deeper(dir, ltf[j], ltf[k])
  }

  predicate Deeper(dir: Direction, b: Bar, c: Bar) {
    match dir
    case Buy => b.low < c.low
    case Sell => b.high > c.high
  }

  /** The stop a swing at this bar calls for. */
  function SwingCallsFor(p: Position, ins: Instrument, b: Bar): real {
    match p.dir
    case Buy => b.low - ins.slBuffer * ins.pip
    case Sell => b.high + ins.slBuffer * ins.pip
  }

  /**
   * `stop` is the nearest of the stop before and what the confirmed swings since three bars before the entry call for.
   */
  ghost predicate NearestOfSwings(p: Position, ins: Instrument, ltf: seq<Bar>, i: nat, stop: real)
    requires p.entryIdx <= i < |ltf|
  {
    var from := MaxInt(0, p.entryIdx - 3);
    && NearerStop(p.dir, p.sl, stop) == stop
    && (forall j: nat :: SwingWithin(p.dir, ltf, from, i, j) ==>
          NearerStop(p.dir, SwingCallsFor(p, ins, ltf[j]), stop) == stop)
    && (stop == p.sl
        || exists j: nat :: SwingWithin(p.dir, ltf, from, i, j) && stop == SwingCallsFor(p, ins, ltf[j]))
  }

  /** The stop first; once a bar has risen by the risk, the stop goes behind the nearest swing, never backwards. */
  ghost predicate SwingDecides(p: Position, ins: Instrument, ltf: seq<Bar>, i: nat, o: Outcome)
    requires ins.pip > 0.0 && p.entryIdx <= i < |ltf|
  {
    if FellTo(p.dir, p.sl, ltf[i]) then Leaves(p, ins, p.sl, if p.armed then TRAIL else SL, o)
    else
      var armed := p.armed || RoseTo(p.dir, Ahead(p, p.risk), ltf[i]);
      && o.exit.None? && o.pos == p.(armed := armed, sl := o.pos.sl)
      && if armed then NearestOfSwings(p, ins, ltf, i, o.pos.sl) else o.pos.sl == p.sl
  }

  /** Once a bar has risen by the risk: the stop to the entry and half the widest spread, never backwards. */
  function EvenAfter(p: Position, ins: Instrument, bar: Bar): Position {
    if !p.armed && RoseTo(p.dir, Ahead(p, p.risk), bar) then
      p.(armed := true, sl := NearerStop(p.dir, p.sl, Ahead(p, ins.maxSpread / 2.0 * ins.pip)))
    else p
  }

  /** Once it has risen by twice the risk: half off there. */
  function HalfAfter(p: Position, ins: Instrument, bar: Bar): Position
    requires ins.pip > 0.0
  {
    if p.armed && !p.partialTaken && RoseTo(p.dir, Ahead(p, 2.0 * p.risk), bar) then
      p.(realized := p.realized + Earns(p, ins, Ahead(p, 2.0 * p.risk), p.remaining / 2.0),
         remaining := p.remaining / 2.0, partialTaken := true, highWater := Ahead(p, 2.0 * p.risk))
    else p
  }

  /** From then on the stop trails the best close so far by three tenths of the risk, never backwards. */
  function TrailAfter(p: Position, bar: Bar): Position {
    if p.partialTaken then
      var best := NearerStop(p.dir, p.highWater, bar.close);
      p.(highWater := best, sl := NearerStop(p.dir, p.sl, BehindPrice(p, best, 0.3 * p.risk)))
    else p
  }

  predicate PartialDecides(p: Position, ins: Instrument, bar: Bar, o: Outcome)
    requires ins.pip > 0.0
  {
    if FellTo(p.dir, p.sl, bar) then
      Leaves(p, ins, p.sl, if p.partialTaken then TRAIL else if p.armed then BE else SL, o)
    else Stays(TrailAfter(HalfAfter(EvenAfter(p, ins, bar), ins, bar), bar), o)
  }

  /** A bar under policy `v`. */
  ghost predicate BarDecides(v: Variant, p: Position, ins: Instrument, ltf: seq<Bar>, i: nat, rejects: Rejection,
                             o: Outcome)
    requires ins.pip > 0.0 && p.entryIdx <= i < |ltf|
  {
    match v
    case A => TargetDecides(p, ins, ltf[i], o)
    case B => TargetDecides(p, ins, ltf[i], o)
    case C => TargetDecides(p, ins, ltf[i], o)
    case D => SwingDecides(p, ins, ltf, i, o)
    case E => CandleDecides(p, ins, ltf, i, rejects, o)
    case F => PartialDecides(p, ins, ltf[i], o)
  }

  // ------------------------------------------------------------------ the policies decide so

  lemma ClosingLeaves(p: Position, ins: Instrument, price: real, reason: Reason)
    requires ins.pip > 0.0
    ensures Leaves(p, ins, price, reason, CloseAt(p, ins, price, reason))
  {
  }

  lemma FixedTargetDecides(p: Position, ins: Instrument, bar: Bar)
    requires ins.pip > 0.0
    ensures TargetDecides(p, ins, bar, FixedTarget(p, ins, bar))
  {
    hide Leaves, CloseAt;
    ClosingLeaves(p, ins, p.sl, SL);
    if p.tp.Some? { ClosingLeaves(p, ins, p.tp.value, TP); }
  }

  lemma RejectionDecides(p: Position, ins: Instrument, ltf: seq<Bar>, i: nat, rejects: Rejection)
    requires ins.pip > 0.0 && p.entryIdx <= i < |ltf|
    ensures CandleDecides(p, ins, ltf, i, rejects, Step(E, p, ins, ltf, i, rejects))
  {
    hide Leaves, CloseAt;
    ClosingLeaves(p, ins, p.sl, SL);
    ClosingLeaves(p, ins, ltf[i].close, OPP_REJ);
  }

  lemma EvenIs(p: Position, ins: Instrument, bar: Bar)
    ensures BreakEven(p, ins, bar) == EvenAfter(p, ins, bar)
  {
    assert 0.5 * ins.maxSpread * ins.pip == ins.maxSpread / 2.0 * ins.pip;
  }

  lemma HalfIs(p: Position, ins: Instrument, bar: Bar)
    requires ins.pip > 0.0
    ensures HalfOff(p, ins, bar) == HalfAfter(p, ins, bar)
  {
    hide Profit, Earns;
    var target := Ahead(p, 2.0 * p.risk);
    EarnsIsProfit(p, ins, target, p.remaining / 2.0);
    assert p.remaining * 0.5 == p.remaining / 2.0 == p.remaining - p.remaining / 2.0;
  }

  lemma EarnsIsProfit(p: Position, ins: Instrument, price: real, lots: real)
    requires ins.pip > 0.0
    ensures Profit(p, ins, price, lots) == Earns(p, ins, price, lots)
  {
  }

  lemma PartialExitDecides(p: Position, ins: Instrument, bar: Bar)
    requires ins.pip > 0.0
    ensures PartialDecides(p, ins, bar, PartialExit(p, ins, bar))
  {
    hide Leaves, CloseAt, BreakEven, HalfOff, EvenAfter, HalfAfter;
    ClosingLeaves(p, ins, p.sl, if p.partialTaken then TRAIL else if p.armed then BE else SL);
    EvenIs(p, ins, bar);
    HalfIs(EvenAfter(p, ins, bar), ins, bar);
  }

  /** Bar `j` of the window is bar `from + j` of the series, and so are its neighbours. */
  lemma WindowBars(p: Position, ltf: seq<Bar>, i: nat, j: nat, k: nat)
    requires p.entryIdx <= i < |ltf|
    ensures var from, window := MaxInt(0, p.entryIdx - 3), SinceEntry(p, ltf, i);
      && |window| == i + 1 - from
      && (k <= j && j + k < |window| ==>
            (SwingTracker.BeatsAt(window, j, k, SwingKind(p.dir)) <==>
             Deeper(p.dir, ltf[from + j], ltf[from + j - k]) && Deeper(p.dir, ltf[from + j], ltf[from + j + k])))
  {
  }

  /** Swings of the window are swings of the series that lie within it. */
  lemma WindowSwings(p: Position, ltf: seq<Bar>, i: nat, j: nat)
    requires p.entryIdx <= i < |ltf|
    ensures var from, window := MaxInt(0, p.entryIdx - 3), SinceEntry(p, ltf, i);
      SwingTracker.IsSwing(window, j, L_SWING, SwingKind(p.dir)) <==> SwingWithin(p.dir, ltf, from, i, from + j)
  {
    hide SinceEntry, Deeper, SwingTracker.BeatsAt;
    var from, window := MaxInt(0, p.entryIdx - 3), SinceEntry(p, ltf, i);
    WindowBars(p, ltf, i, j, 1);
    WindowBars(p, ltf, i, j, 2);
    WindowBars(p, ltf, i, j, 3);
    if 3 <= j < |window| - 3 {
      if SwingTracker.IsSwing(window, j, L_SWING, SwingKind(p.dir)) {
        var kind := SwingKind(p.dir);
        assert SwingTracker.BeatsAt(window, j, 1, kind);
        assert SwingTracker.BeatsAt(window, j, 2, kind);
        assert SwingTracker.BeatsAt(window, j, 3, kind);
      }
      if SwingWithin(p.dir, ltf, from, i, from + j) {
        forall k | 1 <= k <= L_SWING ensures SwingTracker.BeatsAt(window, j, k, SwingKind(p.dir)) {
          assert Deeper(p.dir, ltf[from + j], ltf[from + j - k]) && Deeper(p.dir, ltf[from + j], ltf[from + j + k]);
        }
      }
    }
  }

  /** The trailed stop is no looser than what a swing no tighter than the best calls for. */
  lemma NoNearer(p: Position, ins: Instrument, b: Bar, best: real)
    requires Gain(p.dir, SwingPrice(p.dir, b), best) >= 0.0
    ensures var stop := Tightened(p, Shift(p.dir, best, -(ins.slBuffer * ins.pip))).sl;
      NearerStop(p.dir, SwingCallsFor(p, ins, b), stop) == stop
  {
    var buffer, calls := ins.slBuffer * ins.pip, SwingCallsFor(p, ins, b);
    match p.dir
    case Buy => assert calls == b.low - buffer && b.low <= best;
    case Sell => assert calls == b.high + buffer && b.high >= best;
  }

  lemma CalledForByBest(p: Position, ins: Instrument, b: Bar)
    ensures Shift(p.dir, SwingPrice(p.dir, b), -(ins.slBuffer * ins.pip)) == SwingCallsFor(p, ins, b)
  {
    var buffer, calls := ins.slBuffer * ins.pip, SwingCallsFor(p, ins, b);
    match p.dir
    case Buy => assert calls == b.low - buffer && SwingPrice(p.dir, b) == b.low;
    case Sell => assert calls == b.high + buffer && SwingPrice(p.dir, b) == b.high;
  }

  lemma TrailIsNearest(p: Position, ins: Instrument, ltf: seq<Bar>, i: nat)
    requires p.entryIdx <= i < |ltf|
    ensures var q := SwingTrail(p, ins, SinceEntry(p, ltf, i));
      q == p.(sl := q.sl) && NearestOfSwings(p, ins, ltf, i, q.sl)
  {
    hide SwingTracker.IsSwing, Tightest, SwingWithin, SinceEntry, SwingPrice, SwingCallsFor;
    var from, window := MaxInt(0, p.entryIdx - 3), SinceEntry(p, ltf, i);
    var stop, best := SwingTrail(p, ins, window).sl, Tightest(window, p.dir, |window|);
    TightestIsTightest(window, p.dir, |window|);
    SinceEntryIs(p, ltf, i);
    forall j: nat | SwingWithin(p.dir, ltf, from, i, j)
      ensures NearerStop(p.dir, SwingCallsFor(p, ins, ltf[j]), stop) == stop
    {
      WindowSwings(p, ltf, i, j - from);
      assert SwingTracker.IsSwing(window, j - from, L_SWING, SwingKind(p.dir));
      assert window[j - from] == ltf[j];
      NoNearer(p, ins, ltf[j], best.value);
    }
    if stop != p.sl {
      var k :| 0 <= k < |window| && SwingTracker.IsSwing(window, k, L_SWING, SwingKind(p.dir))
               && SwingPrice(p.dir, window[k]) == best.value;
      WindowSwings(p, ltf, i, k);
      assert window[k] == ltf[from + k];
      CalledForByBest(p, ins, window[k]);
      assert SwingWithin(p.dir, ltf, from, i, from + k);
    }
  }

  lemma SinceEntryIs(p: Position, ltf: seq<Bar>, i: nat)
    requires p.entryIdx <= i < |ltf|
    ensures SinceEntry(p, ltf, i) == ltf[MaxInt(0, p.entryIdx - 3)..i + 1]
  {
  }

  lemma SwingExitDecides(p: Position, ins: Instrument, ltf: seq<Bar>, i: nat)
    requires ins.pip > 0.0 && p.entryIdx <= i < |ltf|
    ensures SwingDecides(p, ins, ltf, i, SwingExit(p, ins, ltf, i))
  {
    hide Leaves, CloseAt, SwingTrail, NearestOfSwings, SinceEntry;
    ClosingLeaves(p, ins, p.sl, if p.armed then TRAIL else SL);
    var q := p.(armed := p.armed || Reached(p, ltf[i], p.risk));
    TrailIsNearest(q, ins, ltf, i);
    NearestIgnoresArming(p, q, ins, ltf, i, SwingTrail(q, ins, SinceEntry(q, ltf, i)).sl);
  }

  lemma NearestIgnoresArming(p: Position, q: Position, ins: Instrument, ltf: seq<Bar>, i: nat, stop: real)
    requires q == p.(armed := q.armed) && p.entryIdx <= i < |ltf|
    ensures NearestOfSwings(q, ins, ltf, i, stop) == NearestOfSwings(p, ins, ltf, i, stop)
  {
    hide SwingWithin;
    assert forall b: Bar :: SwingCallsFor(q, ins, b) == SwingCallsFor(p, ins, b);
  }

  /** Every bar of a path that finds the trade open decides so, under every policy; a closed trade is left alone. */
  lemma EveryBarDecides(v: Variant, p: Position, ins: Instrument, ltf: seq<Bar>, i: nat, rejects: Rejection)
    requires ins.pip > 0.0 && p.entryIdx < i < |ltf|
    ensures var before, after := Watch(v, p, ins, ltf, i - 1, rejects), Watch(v, p, ins, ltf, i, rejects);
      if before.exit.Some? then after == before
      else before.pos.entryIdx == p.entryIdx && BarDecides(v, before.pos, ins, ltf, i, rejects, after)
  {
    hide TargetDecides, SwingDecides, CandleDecides, PartialDecides, FixedTarget, SwingExit, RejectionExit, PartialExit;
    var q := Watch(v, p, ins, ltf, i - 1, rejects).pos;
    match v
    case D => SwingExitDecides(q, ins, ltf, i);
    case E => RejectionDecides(q, ins, ltf, i, rejects);
    case F => PartialExitDecides(q, ins, ltf[i]);
    case _ => FixedTargetDecides(q, ins, ltf[i]);
  }

  /** What a trade opens with: a market entry one half of the widest spread worse, and the policy's target. */
  lemma OpensWith(v: Variant, sig: Signal, ins: Instrument, balance: real, pipValue: real, k: nat, p: Position)
    requires Tradeable(ins) && Open(v, sig, ins, balance, pipValue, k) == Ok(p)
    ensures match sig.dir
            case Buy => p.entry == sig.entryIntent + ins.maxSpread / 2.0 * ins.pip && p.risk == p.entry - sig.sl
            case Sell => p.entry == sig.entryIntent - ins.maxSpread / 2.0 * ins.pip && p.risk == sig.sl - p.entry
    ensures p.sl == sig.sl && p.dir == sig.dir
    ensures match v
            case A => p.tp == Some(Ahead(p, 2.0 * p.risk))
            case B => p.tp == Some(Ahead(p, 1.5 * p.risk))
            case C => p.tp == Some(Ahead(p, 3.0 * p.risk))
            case D => p.tp == None
            case E => p.tp == None
            case F => p.tp == Some(Ahead(p, 2.0 * p.risk))
  {
    hide Lots;
    SizingIsTight(v, sig, ins, balance, pipValue, k, p);
    assert 0.5 * ins.maxSpread * ins.pip == ins.maxSpread / 2.0 * ins.pip;
  }
}
