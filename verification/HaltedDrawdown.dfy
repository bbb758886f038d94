/**
 * What is known about the drawdown when the event-driven backtest halts: with nothing open the report is true however
 * the data go on, and with an exposed position some continuation of the data makes it false.
 */
module HaltedDrawdown {
  import opened Clock
  import opened Common
  import opened EquityCurve
  import opened Market
  import opened MultiSetupBacktest
  import opened MultiSetupCausality
  import opened MultiSetupLedger
  import opened MultiSetupLimits
  import opened MultiSetupPayoff
  import opened MultiSetupRisk
  import opened MultiSetupTrade
  import opened RealFacts

  // ------------------------------------------------------------------ nothing open

  /** The event that sets the halt. */
  ghost predicate HaltsAt(inp: Input, h: nat)
    requires Proper(inp)
  {
    0 < h <= |inp.events| && !After(inp, h - 1).halted && After(inp, h).halted
  }

  /** A step either fails or halts. */
  lemma HaltIsNoFailure(inp: Input, s: State, e: Event)
    requires e.symbol in inp.ltf && e.k < |inp.ltf[e.symbol]| && DateKey(e.time) in s.dayStart
    requires e.symbol in inp.htf && -1 <= CursorOf(s, e.symbol) < |inp.htf[e.symbol]|
    requires !s.failed && !s.halted
    ensures var r := Decided(inp, s, e); r.halted ==> !r.failed
  {
    hide Gated, DateKey, Logged, LossPct, CursorOf, Idle, Enters, CursorMoved;
    if Healthy(s, DateKey(e.time)) { GatedShape(inp, s, e); }
  }

  lemma HaltingStepGoesOn(inp: Input, st: State, e: Event)
    requires e.symbol in inp.ltf && e.k < |inp.ltf[e.symbol]| && e.symbol in inp.htf && CursorsFit(inp, st)
    requires !st.failed && !st.halted
    ensures var r := Step(inp, st, e); r.halted ==> !r.failed
  {
    hide WalkAll, Decided, DateKey;
    StepKeepsCursorsFit(inp, st, e);
    var s := Ready(inp, st, e);
    ReadyShape(inp, st, e);
    CursorFits(inp, s, e.symbol);
    HaltIsNoFailure(inp, s, e);
  }

  lemma HaltingEventGoesOn(inp: Input, h: nat)
    requires Proper(inp) && HaltsAt(inp, h)
    ensures !After(inp, h).failed
  {
    hide Step, CursorsFit;
    if After(inp, h - 1).failed {
      FailureIsFinal(inp, h - 1, h);
    } else {
      assert inp.events[h - 1] in inp.events;
      HaltingStepGoesOn(inp, After(inp, h - 1), inp.events[h - 1]);
    }
  }

  lemma HaltingRunGoesOn(inp: Input, h: nat)
    requires Proper(inp) && HaltsAt(inp, h)
    ensures !After(inp, h).failed && !Outcome(inp).failed && Outcome(inp).halted
  {
    hide After, Sampled, Outcome, Logged;
    HaltingEventGoesOn(inp, h);
    HaltIsFinal(inp, h, |inp.events|);
    EndSamples(inp);
  }

  /** With nothing open, a halted run moves no money. */
  lemma {:induction false} NothingMoves(inp: Input, h: nat, n: nat)
    requires Proper(inp) && h <= n <= |inp.events| && After(inp, h).halted && After(inp, h).open == []
    ensures After(inp, n).open == [] && After(inp, n).book == After(inp, h).book && After(inp, n).halted
  {
    hide Step, Ready, CursorMoved, Fails, Logged, DateKey, Idle, Enters, CursorsFit;
    if h < n {
      NothingMoves(inp, h, n - 1);
      var st, e := After(inp, n - 1), inp.events[n - 1];
      assert e in inp.events;
      if st.failed {
        FailureIsFinal(inp, n - 1, n);
      } else {
        ReadyShape(inp, st, e);
        StepShape(inp, st, e);
      }
    }
  }

  /** So the balances after it repeat the last one, and the drawdown stays what it was. */
  lemma {:induction false} DrawdownStands(inp: Input, h: nat, n: nat)
    requires Proper(inp) && h <= n <= |inp.events| && After(inp, h).halted && After(inp, h).open == []
    ensures Drawdown(Balances(inp, n)) == Drawdown(Balances(inp, h))
    ensures Last(Balances(inp, n)) == After(inp, h).book.balance
  {
    hide After, FallPct, Peak;
    if n == h {
      BalancesAt(inp, h, h);
    } else {
      DrawdownStands(inp, h, n - 1);
      NothingMoves(inp, h, n);
      RepeatedLast(Balances(inp, n - 1));
    }
  }

  lemma RepeatedLast(vs: seq<real>)
    requires vs != [] && vs[0] > 0.0
    ensures Drawdown(vs + [Last(vs)]) == Drawdown(vs)
  {
    hide FallPct;
    assert Front(vs + [Last(vs)]) == vs;
    RepeatAddsNothing(vs);
  }

  /** Halted with nothing open, the run reports the true drawdown, whatever the rest of the data are. */
  lemma EmptyHandsReportTruly(inp: Input, h: nat)
    requires Proper(inp) && HaltsAt(inp, h) && After(inp, h).open == []
    ensures Reported(inp) == Drawdown(Balances(inp, h)) == Drawdown(AllBalances(inp))
  {
    hide After, FallPct, Peak, Drawdown, Balances, NoDeeperFall, Overstates, Outcome;
    var n := |inp.events|;
    HaltingRunGoesOn(inp, h);
    HaltedDrawdownIsTrueExactly(inp, h);
    NothingMoves(inp, h, n);
    DrawdownStands(inp, h, n);
    EndSamples(inp);
    RepeatedLast(Balances(inp, n));
  }

  // ------------------------------------------------------------------ complete streams

  /** How many of these events are of the pair. */
  function Seen(events: seq<Event>, symbol: string): nat {
    if events == [] then 0 else Seen(Front(events), symbol) + if Last(events).symbol == symbol then 1 else 0
  }

  /** The stream of time-ordered bars: each pair's in turn, and all of them. */
  ghost predicate Streamed(inp: Input) {
    && (forall i :: 0 <= i < |inp.events| ==> inp.events[i].k == Seen(inp.events[..i], inp.events[i].symbol))
    && (forall s :: s in inp.ltf ==> Seen(inp.events, s) == |inp.ltf[s]|)
  }

  /** The data go on from the first `h` events as data can. */
  ghost predicate Continues(inp: Input, other: Input, h: nat) {
    Proper(other) && Streamed(other) && SharesFirst(inp, other, h)
  }

  lemma {:induction false} SeenGrows(events: seq<Event>, n: nat, m: nat, symbol: string)
    requires n <= m <= |events|
    ensures Seen(events[..n], symbol) <= Seen(events[..m], symbol)
    ensures n < m && events[n].symbol == symbol ==> Seen(events[..n], symbol) < Seen(events[..m], symbol)
  {
    if n < m {
      SeenGrows(events, n, m - 1, symbol);
      assert Front(events[..m]) == events[..m - 1];
    }
  }

  lemma SeenFits(inp: Input, h: nat)
    requires Streamed(inp) && h <= |inp.events|
    ensures forall s :: s in inp.ltf ==> Seen(inp.events[..h], s) <= |inp.ltf[s]|
  {
    hide Seen;
    assert inp.events[..|inp.events|] == inp.events;
    forall s | s in inp.ltf ensures Seen(inp.events[..h], s) <= |inp.ltf[s]| {
      SeenGrows(inp.events, h, |inp.events|, s);
    }
  }

  /** The bars the first `h` events have shown. */
  ghost function ShownBars(inp: Input, h: nat): (ltf: Series)
    requires Streamed(inp) && h <= |inp.events|
    ensures ltf.Keys == inp.ltf.Keys
    ensures forall s :: s in ltf ==>
      |ltf[s]| == Seen(inp.events[..h], s) && |ltf[s]| <= |inp.ltf[s]| && ltf[s] == inp.ltf[s][..|ltf[s]|]
  {
    SeenFits(inp, h);
    map s | s in inp.ltf :: inp.ltf[s][..Seen(inp.events[..h], s)]
  }

  /** The data that end with event `h`. */
  ghost function Cut(inp: Input, h: nat): Input
    requires Streamed(inp) && h <= |inp.events|
  {
    inp.(ltf := ShownBars(inp, h), events := inp.events[..h])
  }

  lemma CutContinues(inp: Input, h: nat)
    requires Proper(inp) && Streamed(inp) && h <= |inp.events|
    ensures Continues(inp, Cut(inp, h), h)
  {
    hide Seen;
    var cut := Cut(inp, h);
    forall i | 0 <= i < h
      ensures cut.events[i] == inp.events[i] && cut.events[..i] == inp.events[..i]
      ensures SameBars(inp, cut, inp.events[i])
    {
      var e := inp.events[i];
      assert e in inp.events;
      SeenGrows(inp.events, i, h, e.symbol);
      var bars := cut.ltf[e.symbol];
      assert bars == inp.ltf[e.symbol][..|bars|] && bars[..e.k + 1] == inp.ltf[e.symbol][..e.k + 1];
    }
    assert cut.events[..h] == inp.events[..h];
    CutIsProper(inp, h);
  }

  lemma CutIsProper(inp: Input, h: nat)
    requires Proper(inp) && Streamed(inp) && h <= |inp.events|
    requires forall i :: 0 <= i < h ==> SameBars(inp, Cut(inp, h), inp.events[i])
    ensures Proper(Cut(inp, h))
  {
    hide Seen, Streamed, ShownBars;
    var cut := Cut(inp, h);
    forall e | e in cut.events
      ensures e.symbol in cut.ltf && e.k < |cut.ltf[e.symbol]| && cut.ltf[e.symbol][e.k] == inp.ltf[e.symbol][e.k]
      ensures e in inp.events
    {
      var i :| 0 <= i < h && inp.events[i] == e;
      assert SameBars(inp, cut, inp.events[i]);
      assert cut.ltf[e.symbol][e.k] == cut.ltf[e.symbol][..e.k + 1][e.k];
      assert inp.ltf[e.symbol][e.k] == inp.ltf[e.symbol][..e.k + 1][e.k];
    }
  }

  /** The data with one more bar at the end. */
  function OneBarMore(inp: Input, bar: Bar): Input
    requires bar.symbol in inp.ltf
  {
    inp.(ltf := inp.ltf[bar.symbol := inp.ltf[bar.symbol] + [bar]],
         events := inp.events + [Event(bar.time, bar.symbol, |inp.ltf[bar.symbol]|)])
  }

  lemma OneBarMoreContinues(inp: Input, bar: Bar)
    requires Proper(inp) && Streamed(inp) && bar.symbol in inp.ltf && bar.symbol in inp.htf
    requires forall e :: e in inp.events ==> e.time <= bar.time
    ensures Continues(inp, OneBarMore(inp, bar), |inp.events|)
  {
    hide Seen;
    var more, n := OneBarMore(inp, bar), |inp.events|;
    assert more.events[..n] == inp.events;
    forall i | 0 <= i < n
      ensures more.events[i] == inp.events[i] && more.events[..i] == inp.events[..i]
      ensures SameBars(inp, more, inp.events[i])
    {
      assert inp.events[i] in inp.events;
    }
    forall s ensures Seen(more.events, s) == Seen(inp.events, s) + if bar.symbol == s then 1 else 0 {
      SeenOneMore(inp.events, Last(more.events), s);
    }
    OneBarMoreIsProper(inp, bar);
  }

  lemma SeenOneMore(events: seq<Event>, e: Event, symbol: string)
    ensures Seen(events + [e], symbol) == Seen(events, symbol) + if e.symbol == symbol then 1 else 0
  {
    assert Front(events + [e]) == events;
  }

  lemma OneBarMoreIsProper(inp: Input, bar: Bar)
    requires Proper(inp) && bar.symbol in inp.ltf && bar.symbol in inp.htf
    requires forall e :: e in inp.events ==> e.time <= bar.time
    ensures Proper(OneBarMore(inp, bar))
  {
    var more, n := OneBarMore(inp, bar), |inp.events|;
    forall i, j | 0 <= i < j < |more.events|
      ensures more.events[i].time <= more.events[j].time
      ensures more.events[i].symbol != more.events[j].symbol || more.events[i].k != more.events[j].k
    {
      assert inp.events[i] in inp.events;
      assert more.events[i] == inp.events[i];
    }
  }

  lemma ContinuesFurther(inp: Input, other: Input, more: Input, h: nat, n: nat)
    requires h <= n && Continues(inp, other, h) && Continues(other, more, n)
    ensures Continues(inp, more, h)
  {
    hide Proper, Streamed;
    assert more.events[..h] == more.events[..n][..h] && other.events[..h] == other.events[..n][..h];
    forall i | 0 <= i < h ensures SameBars(inp, more, inp.events[i]) {
      assert inp.events[i] == inp.events[..h][i] == other.events[..h][i] == other.events[i];
      assert SameBars(other, more, other.events[i]);
    }
  }

  // ------------------------------------------------------------------ a bar that is due

  /** What a price unit in a trade's favour pays it now. */
  function UnitNow(t: Trade, pair: Pair): real {
    t.remaining * (1.0 / pair.pip) * t.pipValue
  }

  /** What a rise of the price by one pays the trade, and what a price of zero pays it. */
  function Slope(t: Trade, pair: Pair): real {
    if t.dir.Buy? then UnitNow(t, pair) else -UnitNow(t, pair)
  }

  function NetAtZero(t: Trade, pair: Pair): real {
    t.realized - t.commission - t.entry * Slope(t, pair)
  }

  /** What a rise of the pair's price by one pays the open trades of that pair together. */
  function Exposure(open: seq<Trade>, symbol: string, pair: Pair): real {
    if open == [] then 0.0
    else Exposure(Front(open), symbol, pair) + if Last(open).symbol == symbol then Slope(Last(open), pair) else 0.0
  }

  /** What a price of zero pays them together. */
  function AtZero(open: seq<Trade>, symbol: string, pair: Pair): real {
    if open == [] then 0.0
    else AtZero(Front(open), symbol, pair) + if Last(open).symbol == symbol then NetAtZero(Last(open), pair) else 0.0
  }

  function Others(open: seq<Trade>, symbol: string): seq<Trade> {
    if open == [] then []
    else Others(Front(open), symbol) + if Last(open).symbol == symbol then [] else [Last(open)]
  }

  /** Some pair's price still matters. */
  ghost predicate Exposed(inp: Input, open: seq<Trade>) {
    exists symbol :: Exposure(open, symbol, inp.w.pair(symbol)) != 0.0
  }

  function FlatBarAt(symbol: string, time: int, price: real): Bar {
    Bar(symbol, time, price, price, price, price, 0, 0.0)
  }

  predicate Due(open: seq<Trade>, time: int) {
    forall t :: t in open ==> time - t.entryTime >= TIME_STOP_HOURS * HOUR_MS
  }

  lemma ForcedNet(t: Trade, bar: Bar, pair: Pair)
    ensures Net(ForceClosed(t, bar, pair, TIME_STOP).closed.value) == NetAtZero(t, pair) + Slope(t, pair) * bar.close
  {
    hide UnitNow;
    MoveTimesUnit(t, pair, bar.close);
    Distributes(bar.close, -t.entry, Slope(t, pair));
  }

  lemma MoveTimesUnit(t: Trade, pair: Pair, price: real)
    ensures Profit(t, pair, price, t.remaining) == (price - t.entry) * Slope(t, pair)
  {
  }

  lemma Distributes(x: real, y: real, z: real)
    ensures (x + y) * z == x * z + y * z && -x * z == -(x * z)
  {
  }

  lemma DueTradeCloses(w: Walk, t: Trade, bar: Bar, e: Event, pair: Pair)
    requires e.time - t.entryTime >= TIME_STOP_HOURS * HOUR_MS
    ensures var v := WalkOne(w, t, bar, e, pair);
      if t.symbol != e.symbol then v == w.(still := w.still + [t])
      else v.still == w.still && v.book.balance == w.book.balance + (NetAtZero(t, pair) + Slope(t, pair) * bar.close)
  {
    hide Updated, FridayClose, Profit, NetAtZero, Slope;
    ForcedNet(t, bar, pair);
  }

  /** The balance after one more trade of the pair, and after one of another. */
  lemma OneMoreDue(open: seq<Trade>, symbol: string, pair: Pair, b: real, price: real)
    requires open != []
    ensures var t := Last(open);
      var before := b + AtZero(Front(open), symbol, pair) + Exposure(Front(open), symbol, pair) * price;
      b + AtZero(open, symbol, pair) + Exposure(open, symbol, pair) * price ==
      if t.symbol == symbol then before + (NetAtZero(t, pair) + Slope(t, pair) * price) else before
  {
    hide NetAtZero, Slope;
    Distributes(Exposure(Front(open), symbol, pair), Slope(Last(open), pair), price);
  }

  lemma NothingDue(symbol: string, pair: Pair, price: real)
    ensures AtZero([], symbol, pair) == Exposure([], symbol, pair) == Exposure([], symbol, pair) * price == 0.0
  {
  }

  /** Once the time stop is due for all of them, a bar closes the trades of its pair, at its close. */
  lemma {:induction false} DueTradesClose(b: Ledger, open: seq<Trade>, bar: Bar, e: Event, pair: Pair)
    requires Due(open, e.time)
    ensures var w := WalkAll(b, open, bar, e, pair);
      && w.still == Others(open, e.symbol)
      && w.book.balance == b.balance + AtZero(open, e.symbol, pair) + Exposure(open, e.symbol, pair) * bar.close
  {
    hide WalkOne, NetAtZero, Slope, AtZero, Exposure;
    if open == [] {
      NothingDue(e.symbol, pair, bar.close);
    } else {
      var t := Last(open);
      assert t in open && forall u :: u in Front(open) ==> u in open;
      DueTradesClose(b, Front(open), bar, e, pair);
      DueTradeCloses(WalkAll(b, Front(open), bar, e, pair), t, bar, e, pair);
      OneMoreDue(open, e.symbol, pair, b.balance, bar.close);
      assert Others(Front(open), e.symbol) + [] == Others(Front(open), e.symbol);
    }
  }

  /** Without another pair's trades the exposure to this pair is the same. */
  lemma {:induction false} OthersKeepExposure(open: seq<Trade>, symbol: string, other: string, pair: Pair)
    requires other != symbol
    ensures Exposure(Others(open, other), symbol, pair) == Exposure(open, symbol, pair)
  {
    hide Slope;
    if open != [] {
      OthersKeepExposure(Front(open), symbol, other, pair);
      var t, rest := Last(open), Others(Front(open), other);
      assert Front(rest + [t]) == rest && rest + [] == rest;
    }
  }

  lemma {:induction false} OthersAreFewer(open: seq<Trade>, other: string)
    ensures |Others(open, other)| <= |open| && forall t :: t in Others(open, other) <==> t in open && t.symbol != other
    ensures (exists t :: t in open && t.symbol == other) ==> |Others(open, other)| < |open|
  {
    if open != [] {
      OthersAreFewer(Front(open), other);
      assert open == Front(open) + [Last(open)];
    }
  }

  /** Late enough for the time stop of everything that is open, and after every event. */
  function LateTime(open: seq<Trade>, from: int): (t: int)
    ensures t >= from && Due(open, t)
  {
    if open == [] then from
    else
      var t := MaxInt(LateTime(Front(open), from), Last(open).entryTime + TIME_STOP_HOURS * HOUR_MS);
      assert forall u :: u in open ==> u in Front(open) || u == Last(open);
      t
  }

  /** The bar of that time that closes at this price. */
  function LateBar(inp: Input, symbol: string, price: real): (bar: Bar)
    requires Proper(inp) && inp.events != []
    ensures bar.symbol == symbol && WellFormed(bar)
  {
    FlatBarAt(symbol, LateTime(After(inp, |inp.events|).open, Last(inp.events).time), price)
  }

  lemma LateBarContinues(inp: Input, symbol: string, price: real)
    requires Proper(inp) && Streamed(inp) && inp.events != [] && symbol in inp.ltf && symbol in inp.htf
    ensures Continues(inp, OneBarMore(inp, LateBar(inp, symbol, price)), |inp.events|)
  {
    hide After, Streamed, Continues;
    var n := |inp.events|;
    forall e | e in inp.events ensures e.time <= inp.events[n - 1].time {
      var i :| 0 <= i < n && inp.events[i] == e;
    }
    OneBarMoreContinues(inp, LateBar(inp, symbol, price));
  }

  lemma {:induction false} SameBalances(inp: Input, other: Input, h: nat, n: nat)
    requires Proper(inp) && Proper(other) && SharesFirst(inp, other, h) && 0 < h && n <= h
    ensures Balances(other, n) == Balances(inp, n)
  {
    hide After, SharesFirst;
    assert h <= |other.events| && h <= |inp.events| by { SharedLengths(inp, other, h); }
    if n > 0 {
      SameBalances(inp, other, h, n - 1);
      SameBeginning(inp, other, h, n);
    }
  }

  lemma SharedLengths(inp: Input, other: Input, h: nat)
    requires SharesFirst(inp, other, h)
    ensures h <= |other.events| && h <= |inp.events|
  {
  }

  /** In a halted run a bar that is late enough only closes the trades of its pair. */
  lemma HaltedDueStep(inp: Input, st: State, e: Event)
    requires e.symbol in inp.ltf && e.k < |inp.ltf[e.symbol]| && e.symbol in inp.htf && CursorsFit(inp, st)
    requires st.halted && !st.failed && Due(st.open, e.time)
    ensures var r, pair := Step(inp, st, e), inp.w.pair(e.symbol);
      && r.halted && !r.failed && r.open == Others(st.open, e.symbol)
      && r.book.balance == st.book.balance + AtZero(st.open, e.symbol, pair)
                         + Exposure(st.open, e.symbol, pair) * inp.ltf[e.symbol][e.k].close
  {
    hide Exposure, AtZero, Others, WalkAll, Ready, Step, CursorsFit, Due, DateKey, Idle, Enters, CursorMoved, LossPct;
    ReadyShape(inp, st, e);
    StepShape(inp, st, e);
    DueTradesClose(st.book, st.open, inp.ltf[e.symbol][e.k], e, inp.w.pair(e.symbol));
  }

  lemma LastStep(inp: Input, n: nat)
    requires Proper(inp) && n < |inp.events|
    ensures var e := inp.events[n]; e.symbol in inp.ltf && e.k < |inp.ltf[e.symbol]| && e.symbol in inp.htf
    ensures CursorsFit(inp, After(inp, n)) && After(inp, n + 1) == Step(inp, After(inp, n), inp.events[n])
  {
    hide Step;
    assert inp.events[n] in inp.events;
  }

  lemma HaltedRunMeetsBar(inp: Input, n: nat, st: State, bar: Bar)
    requires Proper(inp) && n < |inp.events| && After(inp, n) == st
    requires st.halted && !st.failed && Due(st.open, inp.events[n].time)
    requires var e := inp.events[n]; e.symbol in inp.ltf && e.k < |inp.ltf[e.symbol]| && inp.ltf[e.symbol][e.k] == bar
    ensures var r, symbol := After(inp, n + 1), inp.events[n].symbol;
      var pair := inp.w.pair(symbol);
      && r.halted && !r.failed && r.open == Others(st.open, symbol)
      && r.book.balance == st.book.balance + AtZero(st.open, symbol, pair) + Exposure(st.open, symbol, pair) * bar.close
  {
    hide After, Exposure, AtZero, Others, Due, Step, CursorsFit;
    LastStep(inp, n);
    HaltedDueStep(inp, st, inp.events[n]);
  }

  /** What the last event of the longer run is. */
  lemma LateBarIsDue(inp: Input, symbol: string, price: real)
    requires Proper(inp) && inp.events != [] && symbol in inp.ltf
    ensures var n, more := |inp.events|, OneBarMore(inp, LateBar(inp, symbol, price));
      && |more.events| == n + 1 && more.w == inp.w
      && var e := more.events[n];
      && e.symbol == symbol && symbol in more.ltf && e.k < |more.ltf[symbol]|
      && more.ltf[symbol][e.k] == LateBar(inp, symbol, price)
      && Due(After(inp, n).open, e.time) && LateBar(inp, symbol, price).close == price
  {
    hide After, Due, LateTime, Proper;
  }

  lemma LateBarCloses(inp: Input, symbol: string, price: real)
    requires Proper(inp) && Streamed(inp) && inp.events != [] && symbol in inp.ltf && symbol in inp.htf
    requires var st := After(inp, |inp.events|); st.halted && !st.failed
    ensures var n, more := |inp.events|, OneBarMore(inp, LateBar(inp, symbol, price));
      && Continues(inp, more, n) && |more.events| == n + 1 && After(more, n) == After(inp, n)
      && Balances(more, n) == Balances(inp, n)
      && var st, r, pair := After(inp, n), After(more, n + 1), inp.w.pair(symbol);
      && r.halted && !r.failed && r.open == Others(st.open, symbol)
      && r.book.balance == st.book.balance + AtZero(st.open, symbol, pair) + Exposure(st.open, symbol, pair) * price
  {
    hide After, Streamed, Exposure, AtZero, Others, Proper, SharesFirst, Due, Balances, OneBarMore, LateBar;
    var n, bar := |inp.events|, LateBar(inp, symbol, price);
    var more := OneBarMore(inp, bar);
    LateBarContinues(inp, symbol, price);
    LateBarIsDue(inp, symbol, price);
    SameBeginning(inp, more, n, n);
    SameBalances(inp, more, n, n);
    HaltedRunMeetsBar(more, n, After(inp, n), bar);
  }

  // ------------------------------------------------------------------ the converse

  lemma {:induction false} TicketIsOpen(open: seq<Trade>, t: Trade)
    requires t in open
    ensures TicketOf(t) in OpenTickets(open)
  {
    if t != Last(open) {
      assert open == Front(open) + [Last(open)];
      TicketIsOpen(Front(open), t);
    }
  }

  /** Every open trade is of a pair the stream has shown. */
  lemma OpenPairsAreThere(inp: Input, n: nat, t: Trade)
    requires Proper(inp) && n <= |inp.events| && t in After(inp, n).open
    ensures t.symbol in inp.ltf && t.symbol in inp.htf
  {
    hide After, OpenTickets, ClosedTickets;
    TradesAreConserved(inp, n);
    NothingOpensTwice(inp, n);
    var st := After(inp, n);
    TicketIsOpen(st.open, t);
    assert TicketOf(t) in multiset(OpenTickets(st.open)) && TicketOf(t) in multiset(st.tickets);
    var i :| 0 <= i < n && inp.events[i].symbol == t.symbol && inp.events[i].k == t.entryIdx;
    assert inp.events[i] in inp.events;
  }

  lemma {:induction false} ExposedHasTrade(open: seq<Trade>, symbol: string, pair: Pair) returns (t: Trade)
    requires Exposure(open, symbol, pair) != 0.0
    ensures t in open && t.symbol == symbol
  {
    hide Slope;
    if Last(open).symbol == symbol {
      t := Last(open);
    } else {
      t := ExposedHasTrade(Front(open), symbol, pair);
    }
  }

  lemma {:induction false} DrawdownIsNotNegative(vs: seq<real>)
    requires vs != [] && vs[0] > 0.0
    ensures Drawdown(vs) >= 0.0
  {
    hide FallPct, Peak;
    if |vs| > 1 { DrawdownIsNotNegative(Front(vs)); }
  }

  /** The balance that lies `pct` percent below the peak. */
  function Below(peak: real, pct: real): real {
    peak * (1.0 - pct / 100.0)
  }

  lemma BelowFalls(peak: real, pct: real)
    requires peak > 0.0 && pct >= 0.0
    ensures FallPct(peak, Below(peak, pct)) == pct && Below(peak, pct) <= peak
  {
    var x := pct / 100.0;
    assert peak - Below(peak, pct) == peak * x;
    assert peak * x / peak == x;
    assert peak * x >= 0.0 by { SignOfProduct(x, peak, x * peak); }
  }

  /** The price at which a position linear in it reaches this balance. */
  lemma PriceFor(slope: real, balance: real, target: real) returns (price: real)
    requires slope != 0.0
    ensures balance + slope * price == target
  {
    price := (target - balance) / slope;
  }

  /** A last event that falls deeper than all the run reported. */
  lemma LastFallIsHidden(inp: Input, h: nat)
    requires Proper(inp) && HaltsAt(inp, h) && h < |inp.events| && After(inp, |inp.events|).open == []
    requires var p, b := Peak(Balances(inp, |inp.events| - 1)), After(inp, |inp.events|).book.balance;
      p >= b && p > 0.0 && FallPct(p, b) > Drawdown(Balances(inp, h))
    ensures Reported(inp) < Drawdown(AllBalances(inp))
  {
    hide After, FallPct, Outcome, NoDeeperFall, Overstates, HaltsAt;
    var n := |inp.events|;
    HaltingRunGoesOn(inp, h);
    assert 0 < h && !After(inp, h - 1).halted && After(inp, h).halted by { HaltsThere(inp, h); }
    HaltedDrawdownIsTrueExactly(inp, h);
    var before, vs, all := Balances(inp, n - 1), Balances(inp, n), AllBalances(inp);
    BalancesAt(inp, n - 1, n);
    assert Front(vs) == before && Front(all) == vs && |vs| > 1 && |all| > 1;
  }

  lemma HaltsThere(inp: Input, h: nat)
    requires Proper(inp) && HaltsAt(inp, h)
    ensures 0 < h <= |inp.events| && !After(inp, h - 1).halted && After(inp, h).halted
  {
  }

  lemma SameHalt(inp: Input, other: Input, h: nat, n: nat)
    requires Proper(inp) && HaltsAt(inp, h) && h <= n && Continues(inp, other, n)
    ensures HaltsAt(other, h)
  {
    hide After;
    SameBeginning(inp, other, n, h);
    SameBeginning(inp, other, n, h - 1);
  }

  /** One more bar at the right price makes the report false if nothing else is open. */
  lemma WorseBar(inp: Input, h: nat, symbol: string) returns (worse: Input)
    requires Proper(inp) && Streamed(inp) && HaltsAt(inp, h) && symbol in inp.ltf && symbol in inp.htf
    requires Exposure(After(inp, |inp.events|).open, symbol, inp.w.pair(symbol)) != 0.0
    requires Others(After(inp, |inp.events|).open, symbol) == []
    ensures Continues(inp, worse, |inp.events|) && Reported(worse) < Drawdown(AllBalances(worse))
  {
    hide After, FallPct, Outcome, Peak, Drawdown, Exposure, AtZero;
    hide Others, Balances, LateBar, Below, Streamed, SharesFirst;
    var n, pair := |inp.events|, inp.w.pair(symbol);
    HaltsThere(inp, h);
    HaltingRunGoesOn(inp, h);
    HaltIsFinal(inp, h, n);
    var st, vs := After(inp, n), Balances(inp, n);
    var pct := Drawdown(Balances(inp, h)) + 1.0;
    PeakIsPositive(vs);
    DrawdownIsNotNegative(Balances(inp, h));
    BelowFalls(Peak(vs), pct);
    var atZero := st.book.balance + AtZero(st.open, symbol, pair);
    var slope := Exposure(st.open, symbol, pair);
    var price := PriceFor(slope, atZero, Below(Peak(vs), pct));
    worse := OneBarMore(inp, LateBar(inp, symbol, price));
    LateBarCloses(inp, symbol, price);
    SameHalt(inp, worse, h, n);
    SameBalances(inp, worse, n, h);
    assert Balances(worse, n) == vs;
    assert After(worse, n + 1).book.balance == atZero + slope * price == Below(Peak(vs), pct);
    assert Drawdown(Balances(worse, h)) == Drawdown(Balances(inp, h));
    LastFallIsHidden(worse, h);
  }

  /** With a pair still exposed, bars that are late enough can be added one by one until the report is false. */
  lemma WorseContinuation(inp: Input, h: nat, symbol: string) returns (worse: Input)
    requires Proper(inp) && Streamed(inp) && HaltsAt(inp, h)
    requires Exposure(After(inp, |inp.events|).open, symbol, inp.w.pair(symbol)) != 0.0
    ensures Continues(inp, worse, |inp.events|) && Reported(worse) < Drawdown(AllBalances(worse))
    decreases |After(inp, |inp.events|).open|
  {
    hide After, Outcome, Drawdown, Exposure, AtZero, Others, Balances, LateBar, SharesFirst, Reported, AllBalances;
    var n := |inp.events|;
    var open := After(inp, n).open;
    var exposed := ExposedHasTrade(open, symbol, inp.w.pair(symbol));
    OpenPairsAreThere(inp, n, exposed);
    HaltsThere(inp, h);
    OthersAreFewer(open, symbol);
    if Others(open, symbol) == [] {
      worse := WorseBar(inp, h, symbol);
    } else {
      var t := Others(open, symbol)[0];
      assert t in Others(open, symbol);
      OpenPairsAreThere(inp, n, t);
      var more := OneBarMore(inp, LateBar(inp, t.symbol, 1.0));
      HaltingRunGoesOn(inp, h);
      HaltIsFinal(inp, h, n);
      LateBarCloses(inp, t.symbol, 1.0);
      SameHalt(inp, more, h, n);
      OthersKeepExposure(open, symbol, t.symbol, inp.w.pair(symbol));
      OthersAreFewer(open, t.symbol);
      worse := WorseContinuation(more, h, symbol);
      ContinuesFurther(inp, more, worse, n, n + 1);
    }
  }

  /**
   * At a halt the drawdown that will be reported is safe, whatever data follow, exactly when nothing is open. If some
   * pair is exposed then, a few more flat bars, late enough for the time stop, end in a loss the report leaves out.
   */
  lemma HaltedReportIsSafeExactly(inp: Input, h: nat)
    requires Proper(inp) && Streamed(inp) && HaltsAt(inp, h)
    requires After(inp, h).open == [] || Exposed(inp, After(inp, h).open)
    ensures After(inp, h).open == [] <==>
            forall htf: Series, ltf: Series, events: seq<Event> ::
              var other := inp.(htf := htf, ltf := ltf, events := events);
              Continues(inp, other, h) ==> Reported(other) == Drawdown(AllBalances(other))
  {
    hide After, Outcome, Drawdown, Exposure, Balances, Reported, AllBalances, SameBars, Streamed, Proper;
    HaltsThere(inp, h);
    if After(inp, h).open == [] {
      forall htf: Series, ltf: Series, events: seq<Event>
        | Continues(inp, inp.(htf := htf, ltf := ltf, events := events), h)
        ensures var other := inp.(htf := htf, ltf := ltf, events := events);
          Reported(other) == Drawdown(AllBalances(other))
      {
        var other := inp.(htf := htf, ltf := ltf, events := events);
        SameHalt(inp, other, h, h);
        SameBeginning(inp, other, h, h);
        EmptyHandsReportTruly(other, h);
      }
    } else {
      var symbol :| Exposure(After(inp, h).open, symbol, inp.w.pair(symbol)) != 0.0;
      var cut := Cut(inp, h);
      CutContinues(inp, h);
      SameHalt(inp, cut, h, h);
      SameBeginning(inp, cut, h, h);
      var worse := WorseContinuation(cut, h, symbol);
      ContinuesFurther(inp, cut, worse, h, h);
      assert worse == inp.(htf := worse.htf, ltf := worse.ltf, events := worse.events);
    }
  }

  /** A trade alone on its pair is exposed, and so is any position that is not exactly hedged within each pair. */
  lemma LoneTradeIsExposed(inp: Input, n: nat, i: nat)
    requires Proper(inp) && n <= |inp.events| && i < |After(inp, n).open|
    requires forall j :: 0 <= j < |After(inp, n).open| && j != i ==>
        After(inp, n).open[j].symbol != After(inp, n).open[i].symbol
    ensures Exposed(inp, After(inp, n).open)
  {
    hide After, Exposure, Slope, FirstTargetIsSane, SaneSignals;
    var open, t := After(inp, n).open, After(inp, n).open[i];
    EveryTradeIsTraced(inp, n);
    assert Descends(inp, n, t);
    SlopeOfOpen(inp, n, t);
    ExposureOfOne(open, i, inp.w.pair(t.symbol));
  }

  lemma {:induction false} ExposureOfOne(open: seq<Trade>, i: nat, pair: Pair)
    requires i < |open| && forall j :: 0 <= j < |open| && j != i ==> open[j].symbol != open[i].symbol
    ensures Exposure(open, open[i].symbol, pair) == Slope(open[i], pair)
  {
    hide Slope;
    if i < |open| - 1 {
      ExposureOfOne(Front(open), i, pair);
    } else {
      NoExposure(Front(open), open[i].symbol, pair);
    }
  }

  lemma {:induction false} NoExposure(open: seq<Trade>, symbol: string, pair: Pair)
    requires forall j :: 0 <= j < |open| ==> open[j].symbol != symbol
    ensures Exposure(open, symbol, pair) == 0.0
  {
    if open != [] { NoExposure(Front(open), symbol, pair); }
  }

  lemma SlopeOfOpen(inp: Input, n: nat, u: Trade)
    requires Proper(inp) && Descends(inp, n, u)
    ensures Slope(u, inp.w.pair(u.symbol)) != 0.0
  {
    hide After, Unit, FirstTargetIsSane, SaneSignals;
    var m: nat, t :| m < n && Begun(inp, m, t) && Alive(t, u, inp.w.pair(t.symbol)) && u.symbol == t.symbol;
    BegunIsFresh(inp, m, t);
    var pair := inp.w.pair(u.symbol);
    PositiveProduct(u.remaining, 1.0 / pair.pip);
    PositiveProduct(u.remaining * (1.0 / pair.pip), u.pipValue);
  }
}
