/**
 * What a bar does to the trades of the event-driven backtest: the comparisons, the clock and the money are written out
 * here, apart from the trade's own, and hold of every open trade at every event.
 */
module MultiSetupExits {
  import opened Clock
  import opened Common
  import opened Market
  import opened MultiSetupBacktest
  import opened MultiSetupLedger
  import opened MultiSetupTrade
  import opened RealFacts

  // ------------------------------------------------------------------ opening

  /** A signal's entry with half the widest spread against it, in price. */
  function Worsened(sig: Signal, pair: Pair): real {
    match sig.dir
    case Buy => sig.entry + pair.maxSpread / 2.0 * pair.pip
    case Sell => sig.entry - pair.maxSpread / 2.0 * pair.pip
  }

  /** The stop lies behind the entry, by five pips or more, and the target ahead. */
  predicate InOrder(sig: Signal, entry: real, pair: Pair) {
    match sig.dir
    case Buy => entry - sig.sl >= 5.0 * pair.pip && sig.tp > entry
    case Sell => sig.sl - entry >= 5.0 * pair.pip && sig.tp < entry
  }

  /** What one lot loses over this distance, in account currency. */
  function PerLot(distance: real, pair: Pair, pipValue: real): real {
    distance / pair.pip * pipValue
  }

  /**
   * A trade opens exactly on a signal in order, when half a percent of the balance buys a hundredth of a lot: at the
   * worsened entry, with the signal's stop and targets, at no more than that risk and within a hundredth of it.
   */
  lemma OpensWith(sig: Signal, symbol: string, k: nat, time: int, pair: Pair, balance: real, pipValue: real)
    ensures var entry, o := Worsened(sig, pair), Opened(sig, symbol, k, time, pair, balance, pipValue);
      var risk := match sig.dir case Buy => entry - sig.sl case Sell => sig.sl - entry;
      && (o.Some? <==>
            InOrder(sig, entry, pair) && pipValue > 0.0 && balance * 0.005 >= 0.01 * PerLot(risk, pair, pipValue))
      && (o.Some? ==>
            var t := o.value;
            && t.entry == entry && t.sl == sig.sl && t.tp2 == sig.tp && t.dir == sig.dir && t.risk == risk
            && t.tp1 == (if sig.tp1.Some? then sig.tp1.value
                         else match sig.dir case Buy => entry + 1.5 * risk case Sell => entry - 1.5 * risk)
            && 0.01 <= t.lots <= 50.0 && t.remaining == t.lots && t.commission == 7.0 * t.lots && !t.tp1Hit
            && t.lots * PerLot(risk, pair, pipValue) <= balance * 0.005
            && (t.lots < 50.0 ==> balance * 0.005 < (t.lots + 0.01) * PerLot(risk, pair, pipValue)))
  {
    hide Opened, Worsened, Slipped, PerLot, InPips;
    WorsenedIs(sig, pair);
    OpenedShape(sig, symbol, k, time, pair, balance, pipValue);
    OpenedFields(sig, symbol, k, time, pair, balance, pipValue);
    FivePips(Abs(Worsened(sig, pair) - sig.sl), pair, pipValue);
  }

  lemma WorsenedIs(sig: Signal, pair: Pair)
    ensures Worsened(sig, pair) == Slipped(sig, pair)
  {
    assert 0.5 * pair.maxSpread * pair.pip == pair.maxSpread / 2.0 * pair.pip;
  }

  /** When a trade opens, and with how many lots. */
  lemma OpenedWhen(sig: Signal, symbol: string, k: nat, time: int, pair: Pair, balance: real, pipValue: real,
                   pips: real)
    requires pips == InPips(Abs(Slipped(sig, pair) - sig.sl), pair) >= 5.0 && pipValue > 0.0 && pips * pipValue > 0.0
    ensures var entry, o := Slipped(sig, pair), Opened(sig, symbol, k, time, pair, balance, pipValue);
      var lots := SizedLots(balance, pips, pipValue);
      && (o.Some? <==> Gain(sig.dir, sig.sl, entry) > 0.0 && Gain(sig.dir, entry, sig.tp) > 0.0 && lots >= 0.01)
      && (o.Some? ==> o.value.lots == Min(lots, 50.0))
  {
    hide SizedLots, InPips, Slipped, Gain;
  }

  lemma OpenedFields(sig: Signal, symbol: string, k: nat, time: int, pair: Pair, balance: real, pipValue: real)
    ensures var entry, o := Slipped(sig, pair), Opened(sig, symbol, k, time, pair, balance, pipValue);
      o.Some? ==>
        var t, risk := o.value, Abs(entry - sig.sl);
        && InPips(risk, pair) >= 5.0 && pipValue > 0.0
        && t.entry == entry && t.sl == sig.sl && t.tp2 == sig.tp && t.dir == sig.dir && t.risk == risk
        && t.tp1 == (if sig.tp1.Some? then sig.tp1.value else Shift(sig.dir, entry, 1.5 * risk))
        && t.remaining == t.lots && t.commission == 7.0 * t.lots && !t.tp1Hit
  {
    hide SizedLots, InPips, Slipped, Gain;
  }

  /** The same in the terms of the code. */
  lemma OpenedShape(sig: Signal, symbol: string, k: nat, time: int, pair: Pair, balance: real, pipValue: real)
    ensures var entry, o := Slipped(sig, pair), Opened(sig, symbol, k, time, pair, balance, pipValue);
      var pips := InPips(Abs(entry - sig.sl), pair);
      && (o.Some? <==>
            && Gain(sig.dir, sig.sl, entry) > 0.0 && Gain(sig.dir, entry, sig.tp) > 0.0
            && pips >= 5.0 && pipValue > 0.0 && balance * 0.005 >= 0.01 * (pips * pipValue))
      && (o.Some? ==>
            var t := o.value;
            && 0.01 <= t.lots <= 50.0 && t.lots * (pips * pipValue) <= balance * 0.005
            && (t.lots < 50.0 ==> balance * 0.005 < (t.lots + 0.01) * (pips * pipValue)))
  {
    hide SizedLots, Opened, Slipped, InPips, Gain;
    OpenedFields(sig, symbol, k, time, pair, balance, pipValue);
    var pips := InPips(Abs(Slipped(sig, pair) - sig.sl), pair);
    if pips >= 5.0 && pipValue > 0.0 {
      SizedFits(balance, pips, pipValue);
      OpenedWhen(sig, symbol, k, time, pair, balance, pipValue, pips);
      var lots := SizedLots(balance, pips, pipValue);
      if lots > 50.0 { Scales(lots, 50.0, pips * pipValue); }
    }
  }

  lemma FivePips(risk: real, pair: Pair, pipValue: real)
    ensures InPips(risk, pair) >= 5.0 <==> risk >= 5.0 * pair.pip
    ensures InPips(risk, pair) * pipValue == PerLot(risk, pair, pipValue)
  {
    var n := InPips(risk, pair);
    assert risk == n * pair.pip;
    SignOfProduct(n - 5.0, pair.pip, risk - 5.0 * pair.pip);
    SignOfProduct(5.0 - n, pair.pip, 5.0 * pair.pip - risk);
  }

  lemma SizedFits(balance: real, riskPips: real, pipValue: real)
    requires riskPips > 0.0 && pipValue > 0.0
    ensures riskPips * pipValue > 0.0
    ensures var lots, perLot := SizedLots(balance, riskPips, pipValue), riskPips * pipValue;
      && lots * perLot <= balance * 0.005 < (lots + 0.01) * perLot
      && (lots < 0.01 <==> balance * 0.005 < 0.01 * perLot)
  {
    PositiveProduct(riskPips, pipValue);
    var perLot := riskPips * pipValue;
    LotsFitBudget(balance * (RISK_PCT / 100.0), perLot, LOT_STEP);
    var lots := SizedLots(balance, riskPips, pipValue);
    assert (lots + 0.01) * perLot == lots * perLot + 0.01 * perLot;
    if lots < 0.01 {
      WholeLots(lots, (balance * (RISK_PCT / 100.0) / perLot / LOT_STEP).Floor);
      Scales(0.01, lots + 0.01, perLot);
    } else {
      Scales(lots, 0.01, perLot);
    }
  }

  lemma WholeLots(lots: real, n: int)
    requires lots == n as real * 0.01 && lots < 0.01
    ensures lots <= 0.0
  {
  }

  // ------------------------------------------------------------------ one bar

  /** What closing these lots at this price earns. */
  function Earns(t: Trade, pair: Pair, price: real, lots: real): real {
    match t.dir
    case Buy => (price - t.entry) * lots * (1.0 / pair.pip) * t.pipValue
    case Sell => (t.entry - price) * lots * (1.0 / pair.pip) * t.pipValue
  }

  /** The trade left on this bar at this price, for this reason, with everything that was open. */
  predicate Left(t: Trade, bar: Bar, pair: Pair, price: real, reason: Reason, c: Option<Closed>) {
    c == Some(Closed(t.symbol, t.entryIdx, bar.time, price, reason, t.realized + Earns(t, pair, price, t.remaining),
                     t.commission))
  }

  /** Half is taken off at the first target, and the stop goes to the entry and half the widest spread beyond it. */
  function Halved(t: Trade, pair: Pair): Trade {
    t.(tp1Hit := true, remaining := t.remaining / 2.0,
       realized := t.realized + Earns(t, pair, t.tp1, t.remaining / 2.0),
       sl := match t.dir
             case Buy => t.entry + pair.maxSpread / 2.0 * pair.pip
             case Sell => t.entry - pair.maxSpread / 2.0 * pair.pip)
  }

  /** Three tenths of the initial risk behind the close. */
  function Behind(t: Trade, bar: Bar): real {
    match t.dir
    case Buy => bar.close - 0.3 * t.risk
    case Sell => bar.close + 0.3 * t.risk
  }

  /**
   * A bar that falls to the stop ends the trade there, whatever else it touches. Otherwise it may reach the first
   * target, once; after that the second target ends the trade, and short of it the stop follows the close, never
   * backwards.
   */
  predicate BarDecides(t: Trade, bar: Bar, pair: Pair, u: Update) {
    if FellTo(t.dir, t.sl, bar) then Left(t, bar, pair, t.sl, if t.tp1Hit then TRAIL else SL, u.closed)
    else
      var held := if !t.tp1Hit && RoseTo(t.dir, t.tp1, bar) then Halved(t, pair) else t;
      if held.tp1Hit && RoseTo(t.dir, t.tp2, bar) then Left(held, bar, pair, t.tp2, TP2, u.closed)
      else
        && u.closed == None
        && u.trade == if held.tp1Hit then held.(sl := NearerStop(t.dir, held.sl, Behind(t, bar))) else held
  }

  lemma EarnsIsProfit(t: Trade, pair: Pair, price: real, lots: real)
    ensures Profit(t, pair, price, lots) == Earns(t, pair, price, lots)
  {
  }

  lemma PartialIsHalved(t: Trade, bar: Bar, pair: Pair)
    ensures AfterTp1(t, bar, pair) == if !t.tp1Hit && RoseTo(t.dir, t.tp1, bar) then Halved(t, pair) else t
  {
    hide Profit, Earns;
    EarnsIsProfit(t, pair, t.tp1, t.remaining / 2.0);
    assert t.remaining * PARTIAL_FRACTION == t.remaining / 2.0 == t.remaining - t.remaining / 2.0;
    assert 0.5 * pair.maxSpread * pair.pip == pair.maxSpread / 2.0 * pair.pip;
  }

  lemma UpdatedDecides(t: Trade, bar: Bar, pair: Pair)
    ensures BarDecides(t, bar, pair, Updated(t, bar, pair))
  {
    hide Profit, Earns, AfterTp1, Halved;
    PartialIsHalved(t, bar, pair);
    EarnsIsProfit(t, pair, t.sl, t.remaining);
    var held := AfterTp1(t, bar, pair);
    EarnsIsProfit(held, pair, held.tp2, held.remaining);
    HalvedKeeps(t, pair);
  }

  lemma HalvedKeeps(t: Trade, pair: Pair)
    ensures var h := Halved(t, pair);
      h.dir == t.dir && h.tp2 == t.tp2 && h.risk == t.risk && h.tp1Hit
  {
  }

  // ------------------------------------------------------------------ one event

  /** Friday from 23:45 UTC on; the epoch began on a Thursday. */
  predicate LateOnFriday(time: int) {
    1440 + 23 * 60 + 45 <= time / 60_000 % (7 * 1440) < 2 * 1440
  }

  lemma DayAndMinute(m: int)
    ensures m == m / 1440 * 1440 + m / 60 % 24 * 60 + m % 60 && 0 <= m / 60 % 24 * 60 + m % 60 < 1440
  {
    assert m / 1440 == m / 60 / 24;
  }

  lemma WeekAndDay(m: int, day: int, rest: int)
    requires m == day * 1440 + rest && 0 <= rest < 1440
    ensures m % 10080 == day % 7 * 1440 + rest
  {
    assert day == day / 7 * 7 + day % 7;
    assert m == day / 7 * 10080 + (day % 7 * 1440 + rest);
  }

  lemma FridayCloseIsLate(time: int)
    ensures FridayClose(time) == LateOnFriday(time)
  {
    var m := time / 60_000;
    var day, hour, minute := m / 1440, m / 60 % 24, m % 60;
    assert time / 86_400_000 == day && time / 3_600_000 == m / 60;
    DayAndMinute(m);
    WeekAndDay(m, day, hour * 60 + minute);
  }

  /**
   * A trade of another pair is not touched; after 48 hours, or on Friday from 23:45 on, a trade is closed at the close
   * of the bar; otherwise the bar decides.
   */
  predicate EventDecides(t: Trade, e: Event, bar: Bar, pair: Pair, u: Update) {
    if t.symbol != e.symbol then u == Update(t, None)
    else if e.time >= t.entryTime + 48 * 3_600_000 then Left(t, bar, pair, bar.close, TIME_STOP, u.closed)
    else if LateOnFriday(e.time) then Left(t, bar, pair, bar.close, FRIDAY_FLATTEN, u.closed)
    else BarDecides(t, bar, pair, u)
  }

  /** A trade that was ended is among the new records, any other is among the open ones. */
  ghost predicate Shown(u: Update, from: nat, open: seq<Trade>, closed: seq<Closed>)
    requires from <= |closed|
  {
    if u.closed.Some? then u.closed.value in closed[from..] else u.trade in open
  }

  lemma OneDecides(w: Walk, t: Trade, bar: Bar, e: Event, pair: Pair)
    ensures var v := WalkOne(w, t, bar, e, pair);
      && w.still <= v.still && w.book.closed <= v.book.closed
      && exists u: Update :: EventDecides(t, e, bar, pair, u) && Shown(u, |w.book.closed|, v.still, v.book.closed)
  {
    hide BarDecides, Updated, FridayClose, LateOnFriday, Profit, Earns;
    FridayCloseIsLate(e.time);
    UpdatedDecides(t, bar, pair);
    EarnsIsProfit(t, pair, bar.close, t.remaining);
    var v := WalkOne(w, t, bar, e, pair);
    var u := if t.symbol != e.symbol then Update(t, None)
             else if e.time - t.entryTime >= TIME_STOP_HOURS * HOUR_MS then ForceClosed(t, bar, pair, TIME_STOP)
             else if FridayClose(e.time) then ForceClosed(t, bar, pair, FRIDAY_FLATTEN)
             else Updated(t, bar, pair);
    assert EventDecides(t, e, bar, pair, u);
    if u.closed.Some? { assert v.book.closed[|w.book.closed|] == u.closed.value; }
    else { assert v.still[|w.still|] == u.trade; }
    assert Shown(u, |w.book.closed|, v.still, v.book.closed);
  }

  lemma {:induction false} WalkDecides(b: Ledger, open: seq<Trade>, bar: Bar, e: Event, pair: Pair, i: nat)
    requires i < |open|
    ensures var w := WalkAll(b, open, bar, e, pair);
      && b.closed <= w.book.closed
      && exists u: Update :: EventDecides(open[i], e, bar, pair, u) && Shown(u, |b.closed|, w.still, w.book.closed)
  {
    hide EventDecides, WalkOne;
    var before, t := WalkAll(b, Front(open), bar, e, pair), Last(open);
    OneDecides(before, t, bar, e, pair);
    WalkOnlyRecords(b, Front(open), bar, e, pair);
    if i < |open| - 1 {
      WalkDecides(b, Front(open), bar, e, pair, i);
      var u :| EventDecides(open[i], e, bar, pair, u) && Shown(u, |b.closed|, before.still, before.book.closed);
      ShownLater(u, |b.closed|, before, WalkOne(before, t, bar, e, pair));
    } else {
      var w := WalkOne(before, t, bar, e, pair);
      var u: Update :| EventDecides(t, e, bar, pair, u) && Shown(u, |before.book.closed|, w.still, w.book.closed);
      ShownEarlier(u, |b.closed|, |before.book.closed|, w);
    }
  }

  lemma {:induction false} WalkOnlyRecords(b: Ledger, open: seq<Trade>, bar: Bar, e: Event, pair: Pair)
    ensures b.closed <= WalkAll(b, open, bar, e, pair).book.closed
  {
    hide Updated, ForceClosed, FridayClose;
    if open != [] { WalkOnlyRecords(b, Front(open), bar, e, pair); }
  }

  lemma ShownLater(u: Update, from: nat, w: Walk, v: Walk)
    requires from <= |w.book.closed| && w.still <= v.still && w.book.closed <= v.book.closed
    requires Shown(u, from, w.still, w.book.closed)
    ensures Shown(u, from, v.still, v.book.closed)
  {
    if u.closed.Some? {
      var k :| from <= k < |w.book.closed| && w.book.closed[k] == u.closed.value;
      assert v.book.closed[from..][k - from] == u.closed.value;
    }
  }

  lemma ShownEarlier(u: Update, first: nat, from: nat, w: Walk)
    requires first <= from <= |w.book.closed| && Shown(u, from, w.still, w.book.closed)
    ensures Shown(u, first, w.still, w.book.closed)
  {
    if u.closed.Some? {
      var k :| from <= k < |w.book.closed| && w.book.closed[k] == u.closed.value;
      assert w.book.closed[first..][k - first] == u.closed.value;
    }
  }

  // ------------------------------------------------------------------ every run

  /** A recorded trade is not open: no ticket is there twice. */
  lemma RecordedIsNotOpen(inp: Input, n: nat, c: Closed)
    requires Proper(inp) && n <= |inp.events| && c in After(inp, n).book.closed
    ensures ClosedTicket(c) !in OpenTickets(After(inp, n).open)
  {
    hide After, OpenTickets, ClosedTickets, CursorsFit;
    var r := After(inp, n);
    TradesAreConserved(inp, n);
    NothingOpensTwice(inp, n);
    var x := ClosedTicket(c);
    RecordsHaveTickets(r.book.closed, c);
    NeverTwice(r.tickets, x);
    assert multiset(ClosedTickets(r.book.closed))[x] >= 1;
    assert multiset(OpenTickets(r.open))[x] == 0;
  }

  lemma {:induction false} RecordsHaveTickets(closed: seq<Closed>, c: Closed)
    requires c in closed
    ensures ClosedTicket(c) in ClosedTickets(closed)
  {
    if c != Last(closed) {
      assert closed == Front(closed) + [Last(closed)];
      RecordsHaveTickets(Front(closed), c);
    }
  }

  lemma {:induction false} NeverTwice(tickets: seq<Ticket>, x: Ticket)
    requires forall i, j :: 0 <= i < j < |tickets| ==> tickets[i] != tickets[j]
    ensures multiset(tickets)[x] <= 1
  {
    if tickets != [] {
      NeverTwice(Front(tickets), x);
      assert tickets == Front(tickets) + [Last(tickets)];
      if x == Last(tickets) { assert x !in Front(tickets); }
    }
  }

  /**
   * Every trade that is open before an event is decided on by its bar: what the bar ends is recorded with that price,
   * reason and profit, and is open no more; what it leaves is open afterwards, as the bar left it.
   */
  lemma EveryEventDecides(inp: Input, n: nat, i: nat)
    requires Proper(inp) && n < |inp.events| && !After(inp, n).failed && i < |After(inp, n).open|
    ensures var e := inp.events[n]; e.symbol in inp.ltf && e.k < |inp.ltf[e.symbol]|
    ensures var e, st, r := inp.events[n], After(inp, n), After(inp, n + 1);
      && st.book.closed <= r.book.closed
      && exists u: Update ::
           && EventDecides(st.open[i], e, inp.ltf[e.symbol][e.k], inp.w.pair(e.symbol), u)
           && Shown(u, |st.book.closed|, r.open, r.book.closed)
           && (u.closed.Some? ==> TicketOf(st.open[i]) !in OpenTickets(r.open))
  {
    hide Step, WalkAll, Ready, EventDecides, Idle, CursorMoved, Fails;
    hide Logged, CursorsFit, OpenTickets, Healthy, DateKey;
    var st, e := After(inp, n), inp.events[n];
    assert e in inp.events;
    var bar, pair := inp.ltf[e.symbol][e.k], inp.w.pair(e.symbol);
    var w, r := WalkAll(st.book, st.open, bar, e, pair), After(inp, n + 1);
    WalkDecides(st.book, st.open, bar, e, pair, i);
    ReadyShape(inp, st, e);
    StepShape(inp, st, e);
    EntryOnlyAdds(Ready(inp, st, e), r, e);
    var u :| EventDecides(st.open[i], e, bar, pair, u) && Shown(u, |st.book.closed|, w.still, w.book.closed);
    ShownLater(u, |st.book.closed|, w, Walk(r.book, r.open));
    if u.closed.Some? {
      EndKeepsTicket(st.open[i], e, bar, pair, u);
      RecordedIsNotOpen(inp, n + 1, u.closed.value);
    }
  }

  lemma EntryOnlyAdds(s: State, r: State, e: Event)
    requires Idle(s, r) || Enters(s, r, e)
    ensures s.open <= r.open
  {
    hide Healthy, DateKey, Count;
  }

  lemma EndKeepsTicket(t: Trade, e: Event, bar: Bar, pair: Pair, u: Update)
    requires EventDecides(t, e, bar, pair, u) && u.closed.Some?
    ensures ClosedTicket(u.closed.value) == TicketOf(t)
  {
    hide Earns, LateOnFriday;
  }
}
