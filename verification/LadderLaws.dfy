/**
 * What the V5 ladder does on a bar, and what the broker is told: the comparisons are written out here, apart from the
 * ladder's own, and the stop a broker holds is followed over whole paths of bars.
 */
module LadderLaws {
  import opened AsianSweepExit
  import opened Common
  import opened Market

  // ------------------------------------------------------------------ opening

  /** A position opens with the tagged first target, or without one (or with a zero) at once the risk. */
  lemma OpensWith(dir: Direction, entry: real, sl: real, tp1: Option<real>, tp2: real, lots: real)
    requires match dir case Buy => sl < entry case Sell => sl > entry
    ensures var s := Opened(dir, entry, sl, tp1, tp2, lots);
      && Fresh(s) && s.dir == dir && s.entry == entry && s.sl == sl && s.tp2 == tp2 && s.initialLots == lots
      && match dir
         case Buy =>
           s.risk == entry - sl && s.tp1 == if tp1 == None || tp1 == Some(0.0) then entry + s.risk else tp1.value
         case Sell =>
           s.risk == sl - entry && s.tp1 == if tp1 == None || tp1 == Some(0.0) then entry - s.risk else tp1.value
  {
  }

  // ------------------------------------------------------------------ one bar

  /** The stop behind the close at three tenths of the initial risk. */
  function Behind(s: Ladder, bar: Bar): real {
    match s.dir
    case Buy => bar.close - 0.3 * s.risk
    case Sell => bar.close + 0.3 * s.risk
  }

  /**
   * A bar that falls to the stop closes the position there, whatever else it touches. Otherwise it may take half off at
   * the first target, once, which moves the stop to the entry; from then on the stop follows the close, never
   * backwards, and a bar that rises to the second target closes the rest there.
   */
  ghost predicate BarDecides(s: Ladder, n: Ladder, bar: Bar) {
    if FellTo(s.dir, s.sl, bar) then
      n == s.(closed := true, exitPrice := Some(s.sl), remaining := 0.0,
              exitReason := Some(if s.tp1Hit then Trail else StopLoss))
    else
      var first := !s.tp1Hit && RoseTo(s.dir, s.tp1, bar);
      var half := if first then s.(tp1Hit := true, partialPrice := Some(s.tp1), remaining := s.remaining / 2.0) else s;
      var stop := if first then s.entry else s.sl;
      var held := half.(sl := if half.tp1Hit then NearerStop(s.dir, stop, Behind(s, bar)) else stop);
      if held.tp1Hit && RoseTo(s.dir, s.tp2, bar) then
        n == held.(closed := true, exitPrice := Some(s.tp2), exitReason := Some(TakeProfit2), remaining := 0.0)
      else n == held
  }

  lemma StepDecides(s: Ladder, bar: Bar)
    requires !s.closed
    ensures BarDecides(s, LadderStep(s, bar), bar)
  {
  }

  /** Every bar of a path that finds the position open decides so. */
  lemma EveryBarDecides(s0: Ladder, bars: seq<Bar>, i: nat)
    requires i < |bars| && !Run(s0, bars[..i]).closed
    ensures BarDecides(Run(s0, bars[..i]), Run(s0, bars[..i + 1]), bars[i])
  {
    hide LadderStep, BarDecides;
    assert Front(bars[..i + 1]) == bars[..i];
    StepDecides(Run(s0, bars[..i]), bars[i]);
  }

  // ------------------------------------------------------------------ the broker's stop

  /** The stop a broker holds who starts with this one and applies the instructions in order. */
  function BrokerStop(stop: real, actions: seq<ExitAction>): real {
    if actions == [] then stop
    else if Last(actions).modifySl.Some? then Last(actions).modifySl.value
    else BrokerStop(stop, Front(actions))
  }

  lemma {:induction false} BrokerStopOfConcat(stop: real, a: seq<ExitAction>, b: seq<ExitAction>)
    ensures BrokerStop(stop, a + b) == BrokerStop(BrokerStop(stop, a), b)
  {
    if b == [] {
      assert a + b == a;
    } else {
      assert Front(a + b) == a + Front(b);
      BrokerStopOfConcat(stop, a, Front(b));
    }
  }

  lemma BrokerStopOfOne(stop: real, a: ExitAction)
    ensures BrokerStop(stop, []) == stop
    ensures BrokerStop(stop, [a]) == if a.modifySl.Some? then a.modifySl.value else stop
  {
    assert Front([a]) == [];
  }

  lemma StepTellsBroker(s: Ladder, bar: Bar)
    ensures BrokerStop(s.sl, StepActions(s, bar)) == LadderStep(s, bar).sl
  {
    hide BrokerStop;
    var s1 := AfterTp1(s, bar);
    var s2 := AfterTrail(s1, bar);
    var half := ExitAction(false, PARTIAL_CLOSE_FRACTION, Some(s.entry), Some(s.tp1), Some(PartialTp1));
    var move := ExitAction(false, 0.0, Some(s2.sl), None, None);
    var full := ExitAction(true, 0.0, None, Some(s.tp2), Some(TakeProfit2));
    var stopped := ExitAction(true, 0.0, None, Some(s.sl), Some(if s.tp1Hit then Trail else StopLoss));
    BrokerStopOfOne(s.sl, stopped);
    BrokerStopOfOne(s.sl, half);
    BrokerStopOfOne(s1.sl, move);
    BrokerStopOfOne(s2.sl, full);
    var a := if s1 != s then [half] else [];
    var b := if s2.sl != s1.sl then [move] else [];
    var c := if AfterTp2(s2, bar).closed then [full] else [];
    BrokerStopOfConcat(s.sl, a + b, c);
    BrokerStopOfConcat(s.sl, a, b);
  }

  lemma ForcedTellsNothing(s: Ladder, price: real)
    ensures BrokerStop(s.sl, ForcedCloseActions(s, price)) == s.sl
  {
    hide BrokerStop;
    BrokerStopOfOne(s.sl, ExitAction(true, 0.0, None, Some(price), Some(if s.tp1Hit then EodTrail else Eod)));
  }

  /**
   * Over every path the broker who applies what the ladder emits holds the ladder's own stop; the flatten at the end of
   * the session leaves it alone.
   */
  lemma {:induction false} BrokerHoldsTheStop(s0: Ladder, bars: seq<Bar>)
    ensures BrokerStop(s0.sl, RunActions(s0, bars)) == Run(s0, bars).sl
    ensures bars != [] ==>
      var actions := RunActions(s0, bars) + ForcedCloseActions(Run(s0, bars), Last(bars).close);
      BrokerStop(s0.sl, actions) == Trade(s0, bars).sl
  {
    hide StepActions, LadderStep;
    if bars != [] {
      var forced := ForcedCloseActions(Run(s0, bars), Last(bars).close);
      BrokerStopOfConcat(s0.sl, RunActions(s0, bars), forced);
      ForcedTellsNothing(Run(s0, bars), Last(bars).close);
    }
    if bars != [] {
      BrokerHoldsTheStop(s0, Front(bars));
      BrokerStopOfConcat(s0.sl, RunActions(s0, Front(bars)), StepActions(Run(s0, Front(bars)), Last(bars)));
      StepTellsBroker(Run(s0, Front(bars)), Last(bars));
    }
  }
}
