/**
 * The percentage drawdown of an equity curve and the compression of its samples (`_max_dd_from_curve`,
 * `_equity_log` in scripts/multi_setup_backtest.py).
 */
module EquityCurve {
  import opened Clock
  import opened Common
  import opened MultiSetupBacktest
  import opened MultiSetupLedger
  import opened MultiSetupLimits

  function FallPct(peak: real, value: real): real
    requires peak != 0.0
  {
    (peak - value) / peak * 100.0
  }

  function Peak(vs: seq<real>): (p: real)
    requires vs != []
    ensures p >= vs[0]
  {
    if |vs| == 1 then vs[0] else Max(Peak(Front(vs)), Last(vs))
  }

  /** The drawdown as one pass computes it. */
  function Drawdown(vs: seq<real>): real
    requires vs != [] && vs[0] > 0.0
  {
    if |vs| == 1 then 0.0 else Max(Drawdown(Front(vs)), FallPct(Peak(vs), Last(vs)))
  }

  /** One more value. */
  lemma OneMoreValue(vs: seq<real>, n: nat)
    requires 0 < n < |vs| && vs[0] > 0.0
    ensures Peak(vs[..n + 1]) == Max(Peak(vs[..n]), vs[n])
    ensures Drawdown(vs[..n + 1]) == Max(Drawdown(vs[..n]), FallPct(Peak(vs[..n + 1]), vs[n]))
  {
    hide FallPct;
    assert Front(vs[..n + 1]) == vs[..n];
  }

  lemma FirstValue(vs: seq<real>)
    requires vs != [] && vs[0] > 0.0
    ensures Peak(vs[..1]) == vs[0] && Drawdown(vs[..1]) == 0.0 && FallPct(vs[0], vs[0]) == 0.0
  {
  }

  method MaxDdFromCurve(curve: seq<(int, real)>) returns (mdd: real)
    requires curve != [] && curve[0].1 > 0.0
    ensures mdd == Drawdown(Values(curve))
  {
    hide Peak, Drawdown, Values;
    ghost var vs := Values(curve);
    var peak := curve[0].1;
    mdd := 0.0;
    FirstValue(vs);
    for i := 0 to |curve|
      invariant peak == if i == 0 then curve[0].1 else Peak(vs[..i])
      invariant mdd == if i == 0 then 0.0 else Drawdown(vs[..i])
      invariant peak > 0.0
    {
      var v := curve[i].1;
      ValueAt(curve, i);
      if i > 0 { OneMoreValue(vs, i); }
      if v > peak { peak := v; }
      var dd := (peak - v) / peak * 100.0;
      assert dd == FallPct(peak, v);
      if dd > mdd { mdd := dd; }
    }
    assert vs[..|curve|] == vs;
  }

  function Values(curve: seq<(int, real)>): (vs: seq<real>)
    ensures |vs| == |curve| && (curve != [] ==> vs[0] == curve[0].1)
  {
    if curve == [] then [] else Values(Front(curve)) + [Last(curve).1]
  }

  lemma {:induction false} ValueAt(curve: seq<(int, real)>, i: nat)
    requires i < |curve|
    ensures |Values(curve)| == |curve| && Values(curve)[i] == curve[i].1
  {
    if i < |curve| - 1 { ValueAt(Front(curve), i); }
  }

  // ------------------------------------------------------------------ all pairs

  ghost predicate AllPositive(vs: seq<real>) {
    forall i :: 0 <= i < |vs| ==> vs[i] > 0.0
  }

  /** The largest percentage fall from any value to a later one. */
  ghost predicate IsLargestFall(vs: seq<real>, mdd: real)
    requires AllPositive(vs)
  {
    && (forall i, j :: 0 <= i <= j < |vs| ==> FallPct(vs[i], vs[j]) <= mdd)
    && exists i, j :: 0 <= i <= j < |vs| && FallPct(vs[i], vs[j]) == mdd
  }

  lemma {:induction false} PeakIsHighest(vs: seq<real>)
    requires vs != []
    ensures forall i :: 0 <= i < |vs| ==> vs[i] <= Peak(vs)
    ensures exists i :: 0 <= i < |vs| && vs[i] == Peak(vs)
  {
    if |vs| == 1 {
      assert vs[0] == Peak(vs);
    } else {
      PeakIsHighest(Front(vs));
      if Last(vs) > Peak(Front(vs)) {
        assert vs[|vs| - 1] == Peak(vs);
      } else {
        var i :| 0 <= i < |Front(vs)| && Front(vs)[i] == Peak(Front(vs));
        assert vs[i] == Peak(vs);
      }
    }
  }

  /** A fall is larger from a higher start. */
  lemma FallGrowsWithStart(low: real, high: real, value: real)
    requires 0.0 < low <= high && value > 0.0
    ensures FallPct(low, value) <= FallPct(high, value)
  {
    var a, b := (low - value) / low, (high - value) / high;
    assert a * low == low - value && b * high == high - value;
    Ratio(low, high, value, a, b);
  }

  lemma Ratio(low: real, high: real, value: real, a: real, b: real)
    requires 0.0 < low <= high && value > 0.0
    requires (1.0 - a) * low == value && (1.0 - b) * high == value
    ensures a <= b
  {
    if a > b {
      assert 1.0 - a > 0.0 by { if 1.0 - a <= 0.0 { NoPositiveProduct(1.0 - a, low); } }
      Grows(1.0 - a, 1.0 - b, low);
      Grows(low, high, 1.0 - b);
    }
  }

  lemma NoPositiveProduct(x: real, y: real)
    requires x <= 0.0 && y > 0.0
    ensures x * y <= 0.0
  {
  }

  lemma Grows(x: real, y: real, k: real)
    requires x <= y && k > 0.0
    ensures x * k <= y * k && (x < y ==> x * k < y * k)
  {
  }

  lemma NoFall(v: real)
    requires v > 0.0
    ensures FallPct(v, v) == 0.0
  {
  }

  /** For a positive curve the running-peak drawdown is the largest fall over all pairs. */
  lemma {:induction false} DrawdownIsLargestFall(vs: seq<real>)
    requires vs != [] && AllPositive(vs)
    ensures IsLargestFall(vs, Drawdown(vs))
  {
    hide FallPct;
    var n := |vs| - 1;
    NoFall(vs[n]);
    if n == 0 {
      assert FallPct(vs[0], vs[0]) == Drawdown(vs);
    } else {
      var before := Front(vs);
      DrawdownIsLargestFall(before);
      PeakIsHighest(vs);
      var top :| 0 <= top < |vs| && vs[top] == Peak(vs);
      forall i, j | 0 <= i <= j < |vs| ensures FallPct(vs[i], vs[j]) <= Drawdown(vs) {
        if j == n {
          FallGrowsWithStart(vs[i], Peak(vs), vs[n]);
        } else {
          assert FallPct(before[i], before[j]) <= Drawdown(before);
        }
      }
      if Drawdown(vs) == Drawdown(before) {
        var i, j :| 0 <= i <= j < |before| && FallPct(before[i], before[j]) == Drawdown(before);
        assert FallPct(vs[i], vs[j]) == Drawdown(vs);
      } else {
        assert FallPct(vs[top], vs[n]) == Drawdown(vs);
      }
    }
  }

  // ------------------------------------------------------------------ compression

  /** The values with repetitions of the latest one left out. */
  function Compressed(vs: seq<real>): (c: seq<real>)
    ensures vs != [] ==> c != [] && c[0] == vs[0] && Last(c) == Last(vs)
    ensures vs == [] ==> c == []
  {
    if vs == [] then []
    else
      var c := Compressed(Front(vs));
      if c != [] && Last(c) == Last(vs) then c else c + [Last(vs)]
  }

  /** Compression changes neither the peak nor the drawdown. */
  lemma {:induction false} CompressionKeepsDrawdown(vs: seq<real>)
    requires vs != [] && vs[0] > 0.0
    ensures Peak(Compressed(vs)) == Peak(vs) && Drawdown(Compressed(vs)) == Drawdown(vs)
  {
    hide FallPct;
    if |vs| == 1 {
      assert Compressed(vs) == [vs[0]];
    } else {
      var before := Front(vs);
      CompressionKeepsDrawdown(before);
      var c := Compressed(before);
      assert Front(c + [Last(vs)]) == c;
      if Last(c) == Last(vs) { RepeatAddsNothing(before); }
    }
  }

  /** Repeating the last value neither raises the peak nor deepens the drawdown. */
  lemma RepeatAddsNothing(vs: seq<real>)
    requires vs != [] && vs[0] > 0.0
    ensures Max(Peak(vs), Last(vs)) == Peak(vs) && Max(Drawdown(vs), FallPct(Peak(vs), Last(vs))) == Drawdown(vs)
  {
    if |vs| == 1 { NoFall(vs[0]); }
  }

  lemma LoggedCompresses(curve: seq<(int, real)>, vs: seq<real>, time: int, v: real)
    requires vs != [] && Values(curve) == Compressed(vs)
    ensures Values(Logged(curve, time, v)) == Compressed(vs + [v])
  {
    assert Front(vs + [v]) == vs;
    assert Last(Values(curve)) == Last(curve).1;
    var r := Logged(curve, time, v);
    if Last(curve).1 == v {
      assert Front(r) == Front(curve);
    } else {
      assert Front(r) == curve;
    }
  }

  /** The balance before the first event and after each of the first `n`. */
  function Balances(inp: Input, n: nat): (b: seq<real>)
    requires Proper(inp) && n <= |inp.events|
    ensures b != [] && b[0] == INITIAL_BALANCE
  {
    if n == 0 then [INITIAL_BALANCE] else Balances(inp, n - 1) + [After(inp, n).book.balance]
  }

  /** Up to and including the event that sets a halt, the curve is the compressed series of all balances. */
  lemma {:induction false} CurveIsCompressed(inp: Input, n: nat)
    requires Proper(inp) && n <= |inp.events| && inp.events != []
    requires !After(inp, n).failed && (n > 0 ==> !After(inp, n - 1).halted)
    ensures Values(After(inp, n).curve) == Compressed(Balances(inp, n))
  {
    hide Step, Ready, CursorMoved, Fails, Idle, Enters, Logged, Compressed, Values, DateKey, CursorsFit;
    if n == 0 {
      StartIsCompressed(inp);
    } else {
      var st, e := After(inp, n - 1), inp.events[n - 1];
      assert e in inp.events;
      if st.failed { FailureIsFinal(inp, n - 1, n); }
      if n > 1 && After(inp, n - 2).halted { HaltIsFinal(inp, n - 2, n - 1); }
      CurveIsCompressed(inp, n - 1);
      ReadyShape(inp, st, e);
      StepShape(inp, st, e);
      LoggedCompresses(st.curve, Balances(inp, n - 1), e.time, After(inp, n).book.balance);
    }
  }

  lemma StartIsCompressed(inp: Input)
    requires Proper(inp) && inp.events != []
    ensures Values(After(inp, 0).curve) == Compressed(Balances(inp, 0))
  {
    var c := After(inp, 0).curve;
    assert Front(c) == [] && Front([INITIAL_BALANCE]) == [];
  }

  // ------------------------------------------------------------------ the finished curve

  /** The balance before the first event, after every event, and at the end. */
  function AllBalances(inp: Input): (b: seq<real>)
    requires Proper(inp)
    ensures b != [] && b[0] == INITIAL_BALANCE
  {
    Balances(inp, |inp.events|) + [Outcome(inp).book.balance]
  }

  /** Whether the end-of-data close has anything to close, and so takes one more sample. */
  predicate Sampled(inp: Input)
    requires Proper(inp)
  {
    var st := After(inp, |inp.events|);
    !st.failed && st.open != [] && inp.events != []
  }

  /** The drawdown that is reported. */
  function Reported(inp: Input): real
    requires Proper(inp) && inp.events != []
  {
    CurveStartsAtInitial(inp);
    Drawdown(Values(Outcome(inp).curve))
  }

  lemma {:induction false} BalancesAt(inp: Input, n: nat, m: nat)
    requires Proper(inp) && n <= m <= |inp.events|
    ensures |Balances(inp, m)| == m + 1 && Balances(inp, m)[..n + 1] == Balances(inp, n)
    ensures Balances(inp, n)[n] == After(inp, n).book.balance
  {
    hide After;
    if n < m {
      BalancesAt(inp, n, m - 1);
    } else if n > 0 {
      BalancesAt(inp, n - 1, n - 1);
    } else {
      assert After(inp, 0) == Start(inp) by { NoEventYet(inp); }
    }
  }

  lemma NoEventYet(inp: Input)
    requires Proper(inp)
    ensures After(inp, 0) == Start(inp)
  {
  }

  lemma EndSamples(inp: Input)
    requires Proper(inp)
    ensures var st, r := After(inp, |inp.events|), Outcome(inp);
      && r.failed == st.failed && r.halted == st.halted
      && (if Sampled(inp) then r.curve == Logged(st.curve, Last(inp.events).time, r.book.balance)
          else r.curve == st.curve && r.book == st.book)
  {
    hide After, Logged, CloseAll;
    OpenIsClosable(inp, |inp.events|);
  }

  /** What the samples show: every balance up to event `h`, and the final one if it was sampled. */
  function Shown(inp: Input, h: nat): (b: seq<real>)
    requires Proper(inp) && h <= |inp.events|
    ensures b != [] && b[0] == INITIAL_BALANCE
  {
    Balances(inp, h) + if Sampled(inp) then [Outcome(inp).book.balance] else []
  }

  /** The finished curve, when no event after `h` was sampled. */
  lemma FinishedCurve(inp: Input, h: nat)
    requires Proper(inp) && h <= |inp.events| && inp.events != []
    requires !Outcome(inp).failed && (h > 0 ==> !After(inp, h - 1).halted)
    requires After(inp, h).halted || h == |inp.events|
    ensures Values(Outcome(inp).curve) == Compressed(Shown(inp, h))
  {
    hide After, Compressed, Values, Logged, Sampled, Outcome, Balances;
    var n := |inp.events|;
    EndSamples(inp);
    if After(inp, h).failed { FailureIsFinal(inp, h, n); }
    CurveIsCompressed(inp, h);
    assert After(inp, n).curve == After(inp, h).curve by { if After(inp, h).halted { HaltIsFinal(inp, h, n); } }
    if Sampled(inp) {
      LoggedCompresses(After(inp, n).curve, Balances(inp, h), Last(inp.events).time, Outcome(inp).book.balance);
    } else {
      assert Shown(inp, h) == Balances(inp, h);
    }
  }

  lemma CurveStartsAtInitial(inp: Input)
    requires Proper(inp) && inp.events != []
    ensures Outcome(inp).curve != [] && Values(Outcome(inp).curve) != [] && Values(Outcome(inp).curve)[0] > 0.0
  {
    hide After, Values, Sampled;
    EndSamples(inp);
    CurveKeepsStart(inp, |inp.events|);
  }

  /** The first sample is the initial balance: a later one only replaces an equal one. */
  lemma {:induction false} CurveKeepsStart(inp: Input, n: nat)
    requires Proper(inp) && n <= |inp.events| && inp.events != []
    ensures var c := After(inp, n).curve; c != [] && c[0].1 == INITIAL_BALANCE
  {
    hide Step, Ready, CursorMoved, Fails, Idle, Enters, DateKey, CursorsFit;
    if n > 0 {
      CurveKeepsStart(inp, n - 1);
      var st, e := After(inp, n - 1), inp.events[n - 1];
      assert e in inp.events;
      if st.failed {
        FailureIsFinal(inp, n - 1, n);
      } else {
        ReadyShape(inp, st, e);
        StepShape(inp, st, e);
      }
    }
  }

  /** Without a halt the finished curve shows all balances, compressed, and the reported drawdown is theirs. */
  lemma ReportedDrawdownIsTrue(inp: Input)
    requires Proper(inp) && inp.events != [] && !Outcome(inp).failed && !Outcome(inp).halted
    ensures Values(Outcome(inp).curve) == Compressed(AllBalances(inp))
    ensures Reported(inp) == Drawdown(AllBalances(inp))
  {
    hide After, Drawdown, Compressed, Values, Sampled, Outcome, Balances;
    var n := |inp.events|;
    EndSamples(inp);
    if After(inp, n - 1).halted { HaltIsFinal(inp, n - 1, n); }
    FinishedCurve(inp, n);
    CompressionKeepsDrawdown(AllBalances(inp));
    if !Sampled(inp) {
      BalancesAt(inp, n, n);
      assert Shown(inp, n) == Balances(inp, n);
      assert Compressed(AllBalances(inp)) == Compressed(Shown(inp, n)) by { RepeatIsCompressed(Balances(inp, n)); }
    }
  }

  lemma RepeatIsCompressed(vs: seq<real>)
    requires vs != []
    ensures Compressed(vs + [Last(vs)]) == Compressed(vs)
  {
    assert Front(vs + [Last(vs)]) == vs;
  }

  /** How far value `j` lies below the highest value up to it. */
  function FallAt(vs: seq<real>, j: nat): real
    requires j < |vs| && vs[0] > 0.0
  {
    FallPct(Peak(vs[..j + 1]), vs[j])
  }

  /** A bound on the drawdown is a bound on it up to some value and on every fall after that. */
  lemma {:induction false} DrawdownBound(vs: seq<real>, n: nat, bound: real)
    requires 0 < n <= |vs| && vs[0] > 0.0
    ensures Drawdown(vs) <= bound <==>
        Drawdown(vs[..n]) <= bound && forall j :: n <= j < |vs| ==> FallAt(vs, j) <= bound
    ensures Drawdown(vs) < bound <==> Drawdown(vs[..n]) < bound && forall j :: n <= j < |vs| ==> FallAt(vs, j) < bound
    decreases |vs| - n
  {
    hide FallPct, Peak, Drawdown;
    if n == |vs| {
      assert vs[..n] == vs;
    } else {
      OneMoreValue(vs, n);
      DrawdownBound(vs, n + 1, bound);
      assert FallAt(vs, n) == FallPct(Peak(vs[..n + 1]), vs[n]);
    }
  }

  /** How far the end-of-data sample lies below the highest balance up to event `h`, or below itself. */
  function SampleFall(inp: Input, h: nat): real
    requires Proper(inp) && h <= |inp.events|
  {
    var final := Outcome(inp).book.balance;
    FallPct(Max(Peak(Balances(inp, h)), final), final)
  }

  /** The deepest fall up to event `h`, and that of the end-of-data sample if there is one. */
  function KnownFall(inp: Input, h: nat): real
    requires Proper(inp) && h <= |inp.events|
  {
    var dd := Drawdown(Balances(inp, h));
    if Sampled(inp) then Max(dd, SampleFall(inp, h)) else dd
  }

  /** No balance after event `h` falls deeper than that. */
  ghost predicate NoDeeperFall(inp: Input, h: nat)
    requires Proper(inp) && h <= |inp.events|
  {
    forall j :: h < j < |AllBalances(inp)| ==> FallAt(AllBalances(inp), j) <= KnownFall(inp, h)
  }

  /** The end-of-data sample falls deeper than any balance did. */
  ghost predicate Overstates(inp: Input, h: nat)
    requires Proper(inp) && h <= |inp.events|
  {
    && Sampled(inp) && SampleFall(inp, h) > Drawdown(Balances(inp, h))
    && forall j :: h < j < |AllBalances(inp)| ==> FallAt(AllBalances(inp), j) < SampleFall(inp, h)
  }

  /** The shown balances are the first `h + 1` and, if sampled, the last of all. */
  lemma ShownAmongAll(inp: Input, h: nat)
    requires Proper(inp) && h <= |inp.events|
    ensures var all, shown := AllBalances(inp), Shown(inp, h);
      && |all| == |inp.events| + 2 && h + 1 <= |shown| && shown[..h + 1] == all[..h + 1]
      && (Sampled(inp) ==> |shown| == h + 2 && shown[h + 1] == all[|inp.events| + 1])
      && (!Sampled(inp) ==> |shown| == h + 1)
  {
    hide After, Outcome, Sampled, Balances;
    var n := |inp.events|;
    BalancesAt(inp, h, n);
    BalancesAt(inp, h, h);
    BalancesAt(inp, n, n);
    assert Balances(inp, h)[..h + 1] == Balances(inp, h);
    assert AllBalances(inp)[..h + 1] == Balances(inp, n)[..h + 1];
  }

  lemma {:induction false} LongerPeakIsHigher(vs: seq<real>, n: nat)
    requires 0 < n <= |vs|
    ensures Peak(vs[..n]) <= Peak(vs)
  {
    if n < |vs| {
      LongerPeakIsHigher(Front(vs), n);
      assert Front(vs)[..n] == vs[..n];
    } else {
      assert vs[..n] == vs;
    }
  }

  /** The shown peak is never above the true one. */
  lemma ShownPeakIsLower(inp: Input, h: nat)
    requires Proper(inp) && h <= |inp.events|
    ensures Peak(Shown(inp, h)) <= Peak(AllBalances(inp))
  {
    hide After, Outcome, Sampled, Balances, AllBalances, Shown;
    var all, shown := AllBalances(inp), Shown(inp, h);
    ShownAmongAll(inp, h);
    LongerPeakIsHigher(all, h + 1);
    PeakIsHighest(all);
    if Sampled(inp) {
      assert Front(shown) == all[..h + 1] && Last(shown) == all[|all| - 1];
    } else {
      assert shown == shown[..h + 1];
    }
  }

  /** It can only do so when the final balance is below zero and the peak was raised after the halt. */
  lemma OverstatesOnlyBelowZero(inp: Input, h: nat)
    requires Proper(inp) && h <= |inp.events| && Overstates(inp, h)
    ensures Outcome(inp).book.balance < 0.0 && Peak(Balances(inp, h)) < Peak(AllBalances(inp))
  {
    hide After, Outcome, Sampled, Balances, Shown, Peak, Drawdown, FallPct;
    var all, final := AllBalances(inp), Outcome(inp).book.balance;
    ShownAmongAll(inp, h);
    ShownPeakIsLower(inp, h);
    PeakOfShown(inp, h);
    assert all[..|all|] == all && Last(all) == final;
    assert FallAt(all, |all| - 1) == FallPct(Peak(all), final);
    PeakIsPositive(Shown(inp, h));
    if final >= 0.0 { FallOfNonNegative(Peak(Shown(inp, h)), Peak(all), final); }
  }

  lemma PeakOfShown(inp: Input, h: nat)
    requires Proper(inp) && h <= |inp.events| && Sampled(inp)
    ensures Peak(Shown(inp, h)) == Max(Peak(Balances(inp, h)), Outcome(inp).book.balance)
    ensures Peak(Balances(inp, h)) <= Peak(Shown(inp, h))
    ensures SampleFall(inp, h) == FallPct(Peak(Shown(inp, h)), Outcome(inp).book.balance)
  {
    hide After, Outcome, Sampled, Balances, FallPct;
    assert Front(Shown(inp, h)) == Balances(inp, h);
  }

  lemma PeakIsPositive(vs: seq<real>)
    requires vs != [] && vs[0] > 0.0
    ensures Peak(vs) > 0.0
  {
  }

  lemma FallOfNonNegative(low: real, high: real, value: real)
    requires 0.0 < low <= high && value >= 0.0
    ensures FallPct(low, value) <= FallPct(high, value)
  {
    if value > 0.0 {
      FallGrowsWithStart(low, high, value);
    } else {
      assert low / low == 1.0 && high / high == 1.0;
    }
  }

  /**
   * After a halt at event `h` the report knows the deepest fall up to `h` and the end-of-data sample. It is the true
   * drawdown exactly when no later balance falls deeper than that, and the sample no deeper than every balance.
   */
  lemma HaltedDrawdownIsTrueExactly(inp: Input, h: nat)
    requires Proper(inp) && 0 < h <= |inp.events| && !Outcome(inp).failed
    requires !After(inp, h - 1).halted && After(inp, h).halted
    ensures Reported(inp) == KnownFall(inp, h)
    ensures Drawdown(AllBalances(inp)) <= Reported(inp) <==> NoDeeperFall(inp, h)
    ensures Drawdown(AllBalances(inp)) == Reported(inp) <==> NoDeeperFall(inp, h) && !Overstates(inp, h)
  {
    hide After, Outcome, Sampled, Balances, AllBalances, Shown, Peak, Drawdown, FallPct, Values, Compressed, SampleFall;
    var all, shown := AllBalances(inp), Shown(inp, h);
    FinishedCurve(inp, h);
    CompressionKeepsDrawdown(shown);
    ShownAmongAll(inp, h);
    ShownDrawdown(inp, h);
    DrawdownBound(all, h + 1, KnownFall(inp, h));
    DrawdownBound(all, h + 1, SampleFall(inp, h));
  }

  lemma ShownDrawdown(inp: Input, h: nat)
    requires Proper(inp) && h <= |inp.events|
    ensures var all := AllBalances(inp);
      |all| > h + 1 && all[..h + 1] == Balances(inp, h) && Drawdown(Shown(inp, h)) == KnownFall(inp, h)
  {
    hide After, Sampled, Balances, Peak, Drawdown, FallPct, Outcome, SampleFall;
    var shown := Shown(inp, h);
    BalancesAt(inp, h, h);
    ShownAmongAll(inp, h);
    assert shown[..h + 1] == Balances(inp, h);
    if Sampled(inp) {
      PeakOfShown(inp, h);
      OneMoreValue(shown, h + 1);
      assert shown[..h + 2] == shown;
    } else {
      assert shown[..h + 1] == shown;
    }
  }
}
