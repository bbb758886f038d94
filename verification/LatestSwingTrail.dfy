/**
 * Policy D beside its own documentation (scripts/sr_flip_exit_sweep.py): the text has the stop trail behind the most
 * recent confirmed swing, the code takes the tightest swing since entry. Both only ever tighten the stop.
 */
module LatestSwingTrail {
  import opened Common
  import opened ExitPayoffs
  import opened ExitPolicies
  import opened Market
  import SwingTracker

  predicate SwingAt(window: seq<Bar>, dir: Direction, j: nat) {
    SwingTracker.IsSwing(window, j, L_SWING, SwingKind(dir))
  }

  /** The most recent swing price among the bars before `n`. */
  function Latest(window: seq<Bar>, dir: Direction, n: nat): Option<real>
    requires n <= |window|
  {
    if n == 0 then None
    else if SwingAt(window, dir, n - 1) then Some(SwingPrice(dir, window[n - 1]))
    else Latest(window, dir, n - 1)
  }

  /** The stop a swing at this price calls for. */
  function Level(p: Position, ins: Instrument, price: real): real {
    Shift(p.dir, price, -(ins.slBuffer * ins.pip))
  }

  /** The tighter of two stops. */
  function Tighter(dir: Direction, a: real, b: real): real {
    if Gain(dir, a, b) > 0.0 then b else a
  }

  /** The stop, or the level of a swing if there is one and it is tighter. */
  function TighterSwing(p: Position, ins: Instrument, stop: real, swing: Option<real>): real {
    if swing.None? then stop else Tighter(p.dir, stop, Level(p, ins, swing.value))
  }

  // ------------------------------------------------------------------ the documented policy

  /** As policy D, but trailing behind the most recent swing. */
  function LatestExit(p: Position, ins: Instrument, ltf: seq<Bar>, i: nat): Outcome
    requires ins.pip > 0.0 && p.entryIdx <= i < |ltf|
  {
    if StopHit(p, ltf[i]) then CloseAt(p, ins, p.sl, if p.armed then TRAIL else SL)
    else
      var q := p.(armed := p.armed || Reached(p, ltf[i], p.risk));
      var window := SinceEntry(q, ltf, i);
      Outcome(if q.armed then q.(sl := TighterSwing(q, ins, q.sl, Latest(window, q.dir, |window|))) else q, None)
  }

  function LatestWatch(p: Position, ins: Instrument, ltf: seq<Bar>, i: nat): (o: Outcome)
    requires ins.pip > 0.0 && p.entryIdx <= i < |ltf|
    ensures o.pos.entryIdx == p.entryIdx
  {
    if i == p.entryIdx then Outcome(p, None)
    else
      var o := LatestWatch(p, ins, ltf, i - 1);
      if o.exit.Some? then o else LatestExit(o.pos, ins, ltf, i)
  }

  // ------------------------------------------------------------------ the two swings of a growing window

  lemma {:induction false} LatestIgnoresLaterBars(window: seq<Bar>, b: Bar, dir: Direction, n: nat)
    requires n + L_SWING <= |window|
    ensures Latest(window + [b], dir, n) == Latest(window, dir, n)
  {
    hide SwingTracker.IsSwing;
    if n > 0 {
      LatestIgnoresLaterBars(window, b, dir, n - 1);
      SwingsPersist(window, b, n - 1, dir);
      assert (window + [b])[n - 1] == window[n - 1];
    }
  }

  /** The last bars of a window, and the first, cannot be swings yet. */
  lemma {:induction false} NoSwingAtEdges(window: seq<Bar>, dir: Direction, m: nat, n: nat)
    requires m <= n <= |window| && (|window| - L_SWING <= m || n <= L_SWING)
    ensures Latest(window, dir, n) == Latest(window, dir, m)
  {
    if m < n { NoSwingAtEdges(window, dir, m, n - 1); }
  }

  /** One more bar confirms at most one swing, which is then the latest, and the tightest if it is tighter. */
  lemma OneMoreBar(window: seq<Bar>, b: Bar, dir: Direction)
    ensures var w := window + [b];
      var best, last := Tightest(window, dir, |window|), Latest(window, dir, |window|);
      var newBest, newLast := Tightest(w, dir, |w|), Latest(w, dir, |w|);
      || (newBest == best && newLast == last)
      || (newLast.Some?
          && newBest == if best.None? || Gain(dir, best.value, newLast.value) > 0.0 then newLast else best)
  {
    hide SwingTracker.IsSwing;
    var w := window + [b];
    if |window| < L_SWING {
      NoEarlySwing(window, dir, |window|);
      NoEarlySwing(w, dir, |w|);
      NoSwingAtEdges(window, dir, 0, |window|);
      NoSwingAtEdges(w, dir, 0, |w|);
    } else {
      var n := |window| - L_SWING;
      NoLateSwing(window, dir, n, |window|);
      NoLateSwing(w, dir, n + 1, |w|);
      TightestIgnoresLaterBars(window, b, dir, n);
      NoSwingAtEdges(window, dir, n, |window|);
      NoSwingAtEdges(w, dir, n + 1, |w|);
      LatestIgnoresLaterBars(window, b, dir, n);
    }
  }

  /** The latest swing is one of those the tightest was chosen from. */
  lemma {:induction false} LatestIsNoTighter(window: seq<Bar>, dir: Direction, n: nat)
    requires n <= |window|
    ensures var best, last := Tightest(window, dir, n), Latest(window, dir, n);
      && (last.Some? <==> best.Some?) && (last.Some? ==> Gain(dir, last.value, best.value) >= 0.0)
  {
    hide SwingTracker.IsSwing;
    if n > 0 { LatestIsNoTighter(window, dir, n - 1); }
  }

  // ------------------------------------------------------------------ the two runs

  /** The trade is first armed on bar `a`. */
  ghost predicate ArmedOn(p: Position, ltf: seq<Bar>, a: nat) {
    && p.entryIdx < a < |ltf| && Reached(p, ltf[a], p.risk)
    && forall k :: p.entryIdx < k < a ==> !Reached(p, ltf[k], p.risk)
  }

  /** What the window up to bar `i` holds. */
  function BestAt(p: Position, ltf: seq<Bar>, i: nat): Option<real>
    requires p.entryIdx <= i < |ltf|
  {
    var w := SinceEntry(p, ltf, i);
    Tightest(w, p.dir, |w|)
  }

  function LatestAt(p: Position, ltf: seq<Bar>, i: nat): Option<real>
    requires p.entryIdx <= i < |ltf|
  {
    var w := SinceEntry(p, ltf, i);
    Latest(w, p.dir, |w|)
  }

  /** The initial stop, or the tightest of the levels of the latest swings at bars `a` to `i`. */
  function LatestStop(p: Position, ins: Instrument, ltf: seq<Bar>, a: nat, i: nat): real
    requires p.entryIdx <= a <= i < |ltf|
  {
    var before := if i == a then p.slInitial else LatestStop(p, ins, ltf, a, i - 1);
    TighterSwing(p, ins, before, LatestAt(p, ltf, i))
  }

  lemma SwingsCommute(p: Position, ins: Instrument, stop: real, s: Option<real>, t: Option<real>)
    ensures TighterSwing(p, ins, TighterSwing(p, ins, stop, s), t) ==
        TighterSwing(p, ins, TighterSwing(p, ins, stop, t), s)
  {
  }

  /** The tightest swing so far and the latest one now make the tightest one now. */
  lemma NextBest(p: Position, ins: Instrument, ltf: seq<Bar>, i: nat, stop: real)
    requires p.entryIdx < i < |ltf|
    ensures TighterSwing(p, ins, TighterSwing(p, ins, stop, BestAt(p, ltf, i - 1)), LatestAt(p, ltf, i))
         == TighterSwing(p, ins, stop, BestAt(p, ltf, i))
  {
    hide Tightest, Latest;
    var before := SinceEntry(p, ltf, i - 1);
    assert SinceEntry(p, ltf, i) == before + [ltf[i]];
    OneMoreBar(before, ltf[i], p.dir);
    LatestIsNoTighter(before, p.dir, |before|);
  }

  /**
   * The code's stop is the documented one, or the level of the tightest swing confirmed by bar `a` if that is tighter.
   */
  lemma {:induction false} StopsCompare(p: Position, ins: Instrument, ltf: seq<Bar>, a: nat, i: nat)
    requires p.entryIdx < a <= i < |ltf|
    ensures TighterSwing(p, ins, LatestStop(p, ins, ltf, a, i), BestAt(p, ltf, a))
         == TighterSwing(p, ins, p.slInitial, BestAt(p, ltf, i))
  {
    hide SinceEntry, Tightest, Latest, TighterSwing;
    if i == a {
      NextBest(p, ins, ltf, i, p.slInitial);
      FirstStops(p, ins, ltf, a);
    } else {
      StopsCompare(p, ins, ltf, a, i - 1);
      var stop := LatestStop(p, ins, ltf, a, i - 1);
      SwingsCommute(p, ins, stop, LatestAt(p, ltf, i), BestAt(p, ltf, a));
      SwingsCommute(p, ins, p.slInitial, BestAt(p, ltf, i - 1), LatestAt(p, ltf, i));
      NextBest(p, ins, ltf, i, p.slInitial);
    }
  }

  lemma FirstStops(p: Position, ins: Instrument, ltf: seq<Bar>, a: nat)
    requires p.entryIdx < a < |ltf|
    ensures TighterSwing(p, ins, TighterSwing(p, ins, p.slInitial, LatestAt(p, ltf, a)), BestAt(p, ltf, a))
         == TighterSwing(p, ins, p.slInitial, BestAt(p, ltf, a))
  {
    hide SinceEntry, Tightest, Latest;
    LatestIsNoTighter(SinceEntry(p, ltf, a), p.dir, |SinceEntry(p, ltf, a)|);
  }

  /** The documented trade on one more bar that does not stop it out. */
  lemma DocumentedStep(p: Position, q: Position, ins: Instrument, ltf: seq<Bar>, a: nat, i: nat)
    requires Tradeable(ins) && !p.armed && p.sl == p.slInitial && p.entryIdx < i < |ltf| && ArmedOn(p, ltf, a)
    requires q == p.(armed := a <= i - 1, sl := if a <= i - 1 then LatestStop(p, ins, ltf, a, i - 1) else p.slInitial)
    requires !StopHit(q, ltf[i])
    ensures LatestExit(q, ins, ltf, i) ==
            Outcome(p.(armed := a <= i, sl := if a <= i then LatestStop(p, ins, ltf, a, i) else p.slInitial), None)
  {
    hide Latest, Profit;
  }

  lemma LooserStopHolds(p: Position, stop: real, tight: real, bar: Bar)
    requires Gain(p.dir, stop, tight) >= 0.0 && !StopHit(p.(sl := tight), bar)
    ensures !StopHit(p.(sl := stop), bar)
  {
  }

  /** The documented trade is open, armed and at its own stop. */
  lemma {:induction false} DocumentedRun(p: Position, ins: Instrument, ltf: seq<Bar>, a: nat, i: nat,
                                         rejects: Rejection)
    requires Tradeable(ins) && Fresh(D, p) && p.entryIdx <= i < |ltf| && ArmedOn(p, ltf, a)
    requires Watch(D, p, ins, ltf, i, rejects).exit.None?
    ensures var o := LatestWatch(p, ins, ltf, i);
      o == Outcome(p.(armed := a <= i, sl := if a <= i then LatestStop(p, ins, ltf, a, i) else p.slInitial), None)
    ensures var q := Watch(D, p, ins, ltf, i, rejects).pos;
      q == p.(armed := a <= i,
              sl := if a <= i then TighterSwing(p, ins, p.slInitial, BestAt(p, ltf, i)) else p.slInitial)
  {
    hide Tightest, Latest, Reached, SinceEntry, Profit;
    if i > p.entryIdx {
      DocumentedRun(p, ins, ltf, a, i - 1, rejects);
      SwingTrailClosedForm(p, ins, ltf, i, rejects);
      if a <= i - 1 { StopsCompare(p, ins, ltf, a, i - 1); }
      var before, o := Watch(D, p, ins, ltf, i - 1, rejects).pos, LatestWatch(p, ins, ltf, i - 1).pos;
      assert !StopHit(before, ltf[i]);
      LooserStopHolds(before, o.sl, before.sl, ltf[i]);
      assert before.(sl := o.sl) == o && before.(sl := before.sl) == before;
      DocumentedStep(p, o, ins, ltf, a, i);
    }
  }

  /**
   * While the trade is open, the code's stop and the documented one are the same until it is armed, and after that
   * exactly when no swing confirmed by then is tighter than the initial stop and every latest swing seen since. The
   * documented stop is never the tighter one.
   */
  lemma StopsAgreeExactly(p: Position, ins: Instrument, ltf: seq<Bar>, a: nat, i: nat, rejects: Rejection)
    requires Tradeable(ins) && Fresh(D, p) && p.entryIdx <= i < |ltf| && ArmedOn(p, ltf, a)
    requires Watch(D, p, ins, ltf, i, rejects).exit.None?
    ensures var q, o := Watch(D, p, ins, ltf, i, rejects).pos, LatestWatch(p, ins, ltf, i);
      && o.exit.None? && Gain(p.dir, o.pos.sl, q.sl) >= 0.0
      && (i < a ==> o.pos.sl == q.sl)
      && (a <= i ==> (o.pos.sl == q.sl <==> NoneOverlooked(p, ins, ltf, a, i)))
  {
    hide LatestStop, BestAt, Watch, LatestWatch;
    DocumentedRun(p, ins, ltf, a, i, rejects);
    if a <= i {
      StopsCompare(p, ins, ltf, a, i);
      OverlookedByTightest(p, ins, ltf, a, i);
    }
  }

  /** Swing `j` of the window at arming calls for a stop no tighter than the initial one or some latest swing since. */
  ghost predicate Covered(p: Position, ins: Instrument, ltf: seq<Bar>, a: nat, i: nat, j: nat)
    requires p.entryIdx <= a <= i < |ltf| && j < |SinceEntry(p, ltf, a)|
  {
    var price := SwingPrice(p.dir, SinceEntry(p, ltf, a)[j]);
    || Gain(p.dir, Level(p, ins, price), p.slInitial) >= 0.0
    || exists k :: a <= k <= i && LatestAt(p, ltf, k).Some? && Gain(p.dir, price, LatestAt(p, ltf, k).value) >= 0.0
  }

  ghost predicate NoneOverlooked(p: Position, ins: Instrument, ltf: seq<Bar>, a: nat, i: nat)
    requires p.entryIdx <= a <= i < |ltf|
  {
    forall j :: 0 <= j < |SinceEntry(p, ltf, a)| && SwingAt(SinceEntry(p, ltf, a), p.dir, j) ==>
        Covered(p, ins, ltf, a, i, j)
  }

  /** The documented stop is the tightest of the initial one and the levels of the latest swings. */
  lemma {:induction false} LatestStopIsTightest(p: Position, ins: Instrument, ltf: seq<Bar>, a: nat, i: nat,
                                                price: real)
    requires p.entryIdx <= a <= i < |ltf|
    ensures Gain(p.dir, Level(p, ins, price), LatestStop(p, ins, ltf, a, i)) >= 0.0 <==>
            || Gain(p.dir, Level(p, ins, price), p.slInitial) >= 0.0
            || exists k :: a <= k <= i
                        && LatestAt(p, ltf, k).Some? && Gain(p.dir, price, LatestAt(p, ltf, k).value) >= 0.0
  {
    hide LatestAt;
    if i > a {
      LatestStopIsTightest(p, ins, ltf, a, i - 1, price);
    }
  }

  lemma OverlookedByTightest(p: Position, ins: Instrument, ltf: seq<Bar>, a: nat, i: nat)
    requires p.entryIdx <= a <= i < |ltf|
    ensures NoneOverlooked(p, ins, ltf, a, i) <==>
            TighterSwing(p, ins, LatestStop(p, ins, ltf, a, i), BestAt(p, ltf, a)) == LatestStop(p, ins, ltf, a, i)
  {
    hide LatestStop, LatestAt, SwingTracker.IsSwing, Tightest;
    var w, stop := SinceEntry(p, ltf, a), LatestStop(p, ins, ltf, a, i);
    TightestIsTightest(w, p.dir, |w|);
    forall j | 0 <= j < |w| && SwingAt(w, p.dir, j)
      ensures Covered(p, ins, ltf, a, i, j) <==> Gain(p.dir, Level(p, ins, SwingPrice(p.dir, w[j])), stop) >= 0.0
    {
      LatestStopIsTightest(p, ins, ltf, a, i, SwingPrice(p.dir, w[j]));
    }
  }

  // ------------------------------------------------------------------ a run on which they differ

  /** Gold with its table values. */
  const GOLD := Instrument(0.1, 5.0, 5.0)
  const QUARTER_HOUR_MS := 900_000

  /** The `k`-th bar of a quarter of an hour: a dip at 3, a deeper one at 7, and one R above the entry at 10. */
  function Dip(k: nat): Bar {
    var low := if k == 3 then 1_995.0 else if k == 7 then 1_994.0 else 1_999.0;
    Bar("XAUUSD", k * QUARTER_HOUR_MS, 1_999.75, if k == 10 then 2_009.0 else 2_000.0, low, 1_999.75, 900, 20.0)
  }

  /** Two swing lows, the second one lower, and only then a bar that reaches one R. */
  function TwoDips(): (ltf: seq<Bar>)
    ensures |ltf| == 11 && forall k :: 0 <= k < 11 ==> ltf[k] == Dip(k)
  {
    seq(11, i requires 0 <= i => Dip(i))
  }

  /** A buy at the close of the first bar, ninety pips from its stop after slippage. */
  function LongGold(): Position {
    Position(Buy, 2_000.0, 1_991.0, 1_991.0, None, 9.0, 0.05, 0.05, 10.0, 0, 0.0, false, false, 0.0)
  }

  lemma LongGoldIsOpened()
    ensures Open(D, Signal(Buy, 1_999.75, 1_991.0), GOLD, 10_000.0, 10.0, 0) == Ok(LongGold())
  {
    assert SLIPPAGE_MARKET_FRAC_OF_MAX_SPREAD * GOLD.maxSpread * GOLD.pip == 0.25;
    assert 9.0 / GOLD.pip == 90.0;
    assert 10_000.0 * (RISK_PCT / 100.0) / (90.0 * 10.0) / LOT_STEP == 50.0 / 9.0;
    assert (50.0 / 9.0).Floor == 5;
  }

  lemma {:induction false} Untouched(p: Position, ins: Instrument, ltf: seq<Bar>, i: nat, rejects: Rejection)
    requires ins.pip > 0.0 && !p.armed && p.entryIdx <= i < |ltf|
    requires forall k :: p.entryIdx < k <= i ==> !StopHit(p, ltf[k]) && !Reached(p, ltf[k], p.risk)
    ensures Watch(D, p, ins, ltf, i, rejects) == Outcome(p, None)
  {
    hide StopHit, Reached, Tightest;
    if i > p.entryIdx { Untouched(p, ins, ltf, i - 1, rejects); }
  }

  lemma {:induction false} UntouchedAsDocumented(p: Position, ins: Instrument, ltf: seq<Bar>, i: nat)
    requires ins.pip > 0.0 && !p.armed && p.entryIdx <= i < |ltf|
    requires forall k :: p.entryIdx < k <= i ==> !StopHit(p, ltf[k]) && !Reached(p, ltf[k], p.risk)
    ensures LatestWatch(p, ins, ltf, i) == Outcome(p, None)
  {
    hide StopHit, Reached, Latest;
    if i > p.entryIdx { UntouchedAsDocumented(p, ins, ltf, i - 1); }
  }

  lemma SwingsOfTwoDips()
    ensures Tightest(TwoDips(), Buy, 11) == Some(1_995.0) && Latest(TwoDips(), Buy, 11) == Some(1_994.0)
  {
    var w := TwoDips();
    assert SwingTracker.IsSwing(w, 3, L_SWING, SwingTracker.Low);
    assert SwingTracker.IsSwing(w, 7, L_SWING, SwingTracker.Low);
    NoEarlySwing(w, Buy, 3);
    assert Tightest(w, Buy, 4) == Some(1_995.0);
    assert !SwingTracker.BeatsAt(w, 4, 1, SwingTracker.Low);
    assert !SwingTracker.BeatsAt(w, 5, 1, SwingTracker.Low);
    assert !SwingTracker.BeatsAt(w, 6, 1, SwingTracker.Low);
    assert Tightest(w, Buy, 5) == Some(1_995.0);
    assert Tightest(w, Buy, 6) == Some(1_995.0);
    assert Tightest(w, Buy, 7) == Some(1_995.0);
    NoLateSwing(w, Buy, 8, 11);
    NoSwingAtEdges(w, Buy, 8, 11);
  }

  lemma OneRAtTheEnd()
    ensures var p, ltf := LongGold(), TwoDips();
      && ArmedOn(p, ltf, 10) && SinceEntry(p, ltf, 10) == ltf
      && forall k :: 0 <= k <= 10 ==> WellFormed(ltf[k]) && !StopHit(p, ltf[k])
  {
    hide TwoDips;
    var p, ltf := LongGold(), TwoDips();
    forall k | 0 <= k <= 10
      ensures WellFormed(ltf[k]) && !StopHit(p, ltf[k]) && (Reached(p, ltf[k], p.risk) <==> k == 10)
    {
      assert ltf[k] == Dip(k);
    }
    assert SinceEntry(p, ltf, 10) == ltf[..11] == ltf;
  }

  lemma TightestOfDips(p: Position, ltf: seq<Bar>)
    requires p == LongGold() && ltf == TwoDips() && |ltf| == 11 && SinceEntry(p, ltf, 10) == ltf
    requires !StopHit(p, ltf[10]) && Reached(p, ltf[10], p.risk)
    requires Tightest(ltf, Buy, 11) == Some(1_995.0) && Latest(ltf, Buy, 11) == Some(1_994.0)
    ensures SwingExit(p, GOLD, ltf, 10) == Outcome(p.(armed := true, sl := 1_994.5), None)
    ensures LatestExit(p, GOLD, ltf, 10) == Outcome(p.(armed := true, sl := 1_993.5), None)
  {
    hide Tightest, Latest, StopHit, Reached, SinceEntry, TwoDips;
    var q := p.(armed := true);
    assert SinceEntry(q, ltf, 10) == SinceEntry(p, ltf, 10) by { SameWindow(p, q, ltf); }
  }

  lemma SameWindow(p: Position, q: Position, ltf: seq<Bar>)
    requires q.entryIdx == p.entryIdx <= 10 < |ltf|
    ensures SinceEntry(q, ltf, 10) == SinceEntry(p, ltf, 10)
  {
  }

  /** The code stops at the first dip less the buffer, the documentation at the second. */
  lemma StopsCanDiffer(rejects: Rejection)
    ensures var p, ltf := LongGold(), TwoDips();
      && Open(D, Signal(Buy, 1_999.75, 1_991.0), GOLD, 10_000.0, 10.0, 0) == Ok(p)
      && |ltf| == 11 && (forall k :: 0 <= k <= 10 ==> WellFormed(ltf[k])) && ArmedOn(p, ltf, 10)
      && Watch(D, p, GOLD, ltf, 10, rejects) == Outcome(p.(armed := true, sl := 1_994.5), None)
      && LatestWatch(p, GOLD, ltf, 10) == Outcome(p.(armed := true, sl := 1_993.5), None)
  {
    hide Tightest, Latest, Profit, Open, TwoDips, SwingExit, LatestExit, StopHit, Reached, SinceEntry;
    var p, ltf := LongGold(), TwoDips();
    LongGoldIsOpened();
    OneRAtTheEnd();
    SwingsOfTwoDips();
    Untouched(p, GOLD, ltf, 9, rejects);
    UntouchedAsDocumented(p, GOLD, ltf, 9);
    TightestOfDips(p, ltf);
  }
}
