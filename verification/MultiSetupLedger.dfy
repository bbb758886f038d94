/** What every run of the event-driven backtest keeps: money, trades, caps, halts and the HTF cursor. */
module MultiSetupLedger {
  import opened Clock
  import opened Common
  import opened Market
  import opened MultiSetupTrade
  import opened MultiSetupBacktest

  // ------------------------------------------------------------------ one step, summarised

  /** The state in which the halts are tested: the pair's trades walked, the day on the books. */
  function Ready(inp: Input, st: State, e: Event): State
    requires e.symbol in inp.ltf && e.k < |inp.ltf[e.symbol]|
  {
    DayOpened(Walked(inp, st, e), e)
  }

  /** No drawdown halt is in force. */
  ghost predicate Healthy(st: State, day: int) {
    && !st.halted && day in st.dayStart && st.dayStart[day] != 0.0 && st.book.peak != 0.0
    && LossPct(st.dayStart[day], st.book.balance) < DAILY_DD_PCT_HARD
    && LossPct(st.book.peak, st.book.balance) < TOTAL_DD_PCT_HARD
  }

  /** The step opened no trade. */
  ghost predicate Idle(s: State, r: State) {
    r.open == s.open && r.tickets == s.tickets && r.dayCount == s.dayCount
  }

  /** One trade more, for the event's own bar. */
  ghost predicate Adds(s: State, r: State, e: Event) {
    && r.open != [] && Front(r.open) == s.open && TicketOf(Last(r.open)) == Ticket(e.symbol, e.k)
    && r.tickets == s.tickets + [Ticket(e.symbol, e.k)]
    && r.dayCount == s.dayCount[DateKey(e.time) := Count(s, DateKey(e.time)) + 1]
  }

  /** The step opened a trade, under both caps and with no halt in force. */
  ghost predicate Enters(s: State, r: State, e: Event) {
    && Adds(s, r, e)
    && |s.open| < MAX_CONCURRENT && Count(s, DateKey(e.time)) < MAX_TRADES_PER_DAY
    && Healthy(s, DateKey(e.time))
  }

  lemma EntryShape(inp: Input, s: State, e: Event)
    requires e.symbol in inp.ltf && e.k < |inp.ltf[e.symbol]|
    requires e.symbol in inp.htf && -1 <= CursorOf(s, e.symbol) < |inp.htf[e.symbol]|
    ensures var r := Entered(inp, s, e);
      && r.book == s.book && r.dayStart == s.dayStart && r.curve == s.curve
      && r.halted == s.halted && r.failed == s.failed
      && r.cursor == s.cursor[e.symbol := Advanced(inp.htf[e.symbol], CursorOf(s, e.symbol), e.time)]
      && (Idle(s, r) || Adds(s, r, e))
  {
    hide NewTrade, DateKey, Advanced;
  }

  ghost predicate CursorMoved(inp: Input, s: State, r: State, e: Event)
    requires e.symbol in inp.htf && -1 <= CursorOf(s, e.symbol) < |inp.htf[e.symbol]|
  {
    || r.cursor == s.cursor
    || r.cursor == s.cursor[e.symbol := Advanced(inp.htf[e.symbol], CursorOf(s, e.symbol), e.time)]
  }

  lemma GatedShape(inp: Input, s: State, e: Event)
    requires e.symbol in inp.ltf && e.k < |inp.ltf[e.symbol]|
    requires e.symbol in inp.htf && -1 <= CursorOf(s, e.symbol) < |inp.htf[e.symbol]|
    requires Healthy(s, DateKey(e.time))
    ensures var r := Gated(inp, s, e);
      && r.book == s.book && r.dayStart == s.dayStart && r.halted == s.halted && r.failed == s.failed
      && r.curve == Logged(s.curve, e.time, s.book.balance)
      && (Idle(s, r) || Enters(s, r, e)) && CursorMoved(inp, s, r, e)
  {
    hide Entered, DateKey, Logged, LossPct, Advanced, CursorOf, Count, Healthy;
    EntryShape(inp, s, e);
  }

  lemma DecidedTrades(inp: Input, s: State, e: Event)
    requires e.symbol in inp.ltf && e.k < |inp.ltf[e.symbol]| && DateKey(e.time) in s.dayStart
    requires e.symbol in inp.htf && -1 <= CursorOf(s, e.symbol) < |inp.htf[e.symbol]|
    ensures var r := Decided(inp, s, e);
      && r.book == s.book && r.dayStart == s.dayStart
      && (Idle(s, r) || Enters(s, r, e)) && CursorMoved(inp, s, r, e)
  {
    hide Gated, DateKey, Logged, LossPct, Advanced, CursorOf, Count, Enters;
    if Healthy(s, DateKey(e.time)) { GatedShape(inp, s, e); }
  }

  /** Only a zero day-start balance (or peak) ends a run early, and only while it is not halted. */
  ghost predicate Fails(s: State, day: int)
    requires day in s.dayStart
  {
    && !s.halted
    && (s.dayStart[day] == 0.0
        || (LossPct(s.dayStart[day], s.book.balance) < DAILY_DD_PCT_HARD && s.book.peak == 0.0))
  }

  lemma DecidedFlags(inp: Input, s: State, e: Event)
    requires e.symbol in inp.ltf && e.k < |inp.ltf[e.symbol]| && DateKey(e.time) in s.dayStart
    requires e.symbol in inp.htf && -1 <= CursorOf(s, e.symbol) < |inp.htf[e.symbol]|
    requires !s.failed
    ensures var r := Decided(inp, s, e);
      && (s.halted ==> r == s)
      && (r.failed <==> Fails(s, DateKey(e.time)))
      && r.curve == (if s.halted || r.failed then s.curve else Logged(s.curve, e.time, r.book.balance))
  {
    hide Gated, DateKey, Logged, LossPct, Advanced, CursorOf, Idle, Enters, CursorMoved;
    if Healthy(s, DateKey(e.time)) { GatedShape(inp, s, e); }
  }

  lemma StepShape(inp: Input, st: State, e: Event)
    requires e.symbol in inp.ltf && e.k < |inp.ltf[e.symbol]| && e.symbol in inp.htf && CursorsFit(inp, st)
    requires !st.failed
    ensures var s, r := Ready(inp, st, e), Step(inp, st, e);
      && DateKey(e.time) in s.dayStart
      && r.book == s.book && r.dayStart == s.dayStart
      && (Idle(s, r) || Enters(s, r, e)) && CursorMoved(inp, st, r, e)
      && (s.halted ==> r == s)
      && (r.failed <==> Fails(s, DateKey(e.time)))
      && r.curve == (if s.halted || r.failed then s.curve else Logged(s.curve, e.time, r.book.balance))
  {
    hide WalkAll, Decided, DateKey, Logged, Fails, Advanced, Idle, Enters;
    StepKeepsCursorsFit(inp, st, e);
    DecidedTrades(inp, Ready(inp, st, e), e);
    DecidedFlags(inp, Ready(inp, st, e), e);
  }

  lemma ReadyShape(inp: Input, st: State, e: Event)
    requires e.symbol in inp.ltf && e.k < |inp.ltf[e.symbol]|
    ensures var s := Ready(inp, st, e);
      var w := WalkAll(st.book, st.open, inp.ltf[e.symbol][e.k], e, inp.w.pair(e.symbol));
      && s.book == w.book && s.open == w.still && s.tickets == st.tickets && s.curve == st.curve
      && s.halted == st.halted && s.failed == st.failed && s.cursor == st.cursor
      && DateKey(e.time) in s.dayStart
      && (DateKey(e.time) in st.dayStart ==> s.dayStart == st.dayStart && s.dayCount == st.dayCount)
      && (DateKey(e.time) !in st.dayStart ==>
            && s.dayStart == st.dayStart[DateKey(e.time) := s.book.balance]
            && s.dayCount == st.dayCount[DateKey(e.time) := 0])
  {
    hide WalkAll, DateKey;
  }

  // ------------------------------------------------------------------ money

  function Nets(closed: seq<Closed>): seq<real> {
    if closed == [] then [] else Nets(Front(closed)) + [Net(Last(closed))]
  }

  /** The balance after the first `i` closed trades. */
  function BalanceAfter(closed: seq<Closed>, i: nat): real
    requires i <= |closed|
  {
    INITIAL_BALANCE + Sum(Nets(closed[..i]))
  }

  /** The balance is the initial one plus every net result, and the peak is the highest balance there ever was. */
  ghost predicate Balanced(b: Ledger) {
    && b.balance == BalanceAfter(b.closed, |b.closed|)
    && (forall i :: 0 <= i <= |b.closed| ==> BalanceAfter(b.closed, i) <= b.peak)
    && (exists i :: 0 <= i <= |b.closed| && BalanceAfter(b.closed, i) == b.peak)
  }

  lemma StartIsBalanced()
    ensures Balanced(Ledger(INITIAL_BALANCE, INITIAL_BALANCE, []))
  {
    assert BalanceAfter([], 0) == INITIAL_BALANCE;
  }

  lemma EarlierBalance(closed: seq<Closed>, c: Closed, i: nat)
    requires i <= |closed|
    ensures BalanceAfter(closed + [c], i) == BalanceAfter(closed, i)
  {
    assert (closed + [c])[..i] == closed[..i];
  }

  lemma LatestBalance(closed: seq<Closed>, c: Closed)
    ensures BalanceAfter(closed + [c], |closed| + 1) == BalanceAfter(closed, |closed|) + Net(c)
  {
    var all := closed + [c];
    assert Front(all) == closed && all[..|all|] == all && closed[..|closed|] == closed;
    SumOfAppend(Nets(closed), Net(c));
  }

  lemma BookingKeepsBalance(b: Ledger, c: Closed)
    requires Balanced(b)
    ensures Balanced(Booking(b, c))
  {
    hide BalanceAfter;
    var all, n, r := b.closed + [c], |b.closed|, Booking(b, c);
    LatestBalance(b.closed, c);
    forall i | 0 <= i <= n + 1 ensures BalanceAfter(all, i) <= r.peak {
      if i <= n { EarlierBalance(b.closed, c, i); }
    }
    var top :| 0 <= top <= n && BalanceAfter(b.closed, top) == b.peak;
    EarlierBalance(b.closed, c, top);
    assert BalanceAfter(all, if b.balance + Net(c) > b.peak then n + 1 else top) == r.peak;
  }

  lemma {:induction false} WalkKeepsBalance(b: Ledger, open: seq<Trade>, bar: Bar, e: Event, pair: Pair)
    requires Balanced(b)
    ensures Balanced(WalkAll(b, open, bar, e, pair).book)
  {
    hide Balanced, Booking, Updated, ForceClosed, FridayClose;
    if open != [] {
      WalkKeepsBalance(b, Front(open), bar, e, pair);
      var w, t := WalkAll(b, Front(open), bar, e, pair), Last(open);
      var u := if e.time - t.entryTime >= TIME_STOP_HOURS * HOUR_MS then ForceClosed(t, bar, pair, TIME_STOP)
               else if FridayClose(e.time) then ForceClosed(t, bar, pair, FRIDAY_FLATTEN)
               else Updated(t, bar, pair);
      if u.closed.Some? { BookingKeepsBalance(w.book, u.closed.value); }
    }
  }

  lemma {:induction false} BalanceIsInitialPlusNet(inp: Input, n: nat)
    requires Proper(inp) && n <= |inp.events|
    ensures Balanced(After(inp, n).book)
  {
    hide Step, WalkAll, Ready, Balanced, Idle, Enters, CursorMoved, Fails, Logged;
    if n == 0 {
      StartIsBalanced();
    } else {
      BalanceIsInitialPlusNet(inp, n - 1);
      var st, e := After(inp, n - 1), inp.events[n - 1];
      assert e in inp.events;
      WalkKeepsBalance(st.book, st.open, inp.ltf[e.symbol][e.k], e, inp.w.pair(e.symbol));
      if !st.failed {
        ReadyShape(inp, st, e);
        StepShape(inp, st, e);
      } else {
        FailureIsFinal(inp, n - 1, n);
      }
    }
  }

  // ------------------------------------------------------------------ every opened trade closes once

  function OpenTickets(open: seq<Trade>): seq<Ticket> {
    if open == [] then [] else OpenTickets(Front(open)) + [TicketOf(Last(open))]
  }

  function ClosedTickets(closed: seq<Closed>): seq<Ticket> {
    if closed == [] then [] else ClosedTickets(Front(closed)) + [ClosedTicket(Last(closed))]
  }

  /** Open and closed trades together are exactly the trades that were opened. */
  ghost predicate Conserved(tickets: seq<Ticket>, open: seq<Trade>, closed: seq<Closed>) {
    multiset(tickets) == multiset(OpenTickets(open)) + multiset(ClosedTickets(closed))
  }

  /** Nothing was opened twice, and only on bars of the first `n` events. */
  ghost predicate OnceEach(inp: Input, tickets: seq<Ticket>, n: nat)
    requires n <= |inp.events|
  {
    && (forall i, j :: 0 <= i < j < |tickets| ==> tickets[i] != tickets[j])
    && forall t :: t in tickets ==>
        exists i :: 0 <= i < n && inp.events[i].symbol == t.symbol && inp.events[i].k == t.entryIdx
  }

  lemma TicketsOfAppend(open: seq<Trade>, t: Trade, closed: seq<Closed>, c: Closed)
    ensures multiset(OpenTickets(open + [t])) == multiset(OpenTickets(open)) + multiset{TicketOf(t)}
    ensures multiset(ClosedTickets(closed + [c])) == multiset(ClosedTickets(closed)) + multiset{ClosedTicket(c)}
  {
    assert Front(open + [t]) == open && Front(closed + [c]) == closed;
  }

  /** Walking the open trades moves tickets from the open to the closed ones and loses none. */
  lemma {:induction false} WalkConserves(b: Ledger, open: seq<Trade>, bar: Bar, e: Event, pair: Pair)
    ensures var w := WalkAll(b, open, bar, e, pair);
      multiset(OpenTickets(w.still)) + multiset(ClosedTickets(w.book.closed))
        == multiset(OpenTickets(open)) + multiset(ClosedTickets(b.closed))
  {
    hide FridayClose, OpenTickets, ClosedTickets;
    if open == [] {
    } else {
      WalkConserves(b, Front(open), bar, e, pair);
      var w, t := WalkAll(b, Front(open), bar, e, pair), Last(open);
      assert open == Front(open) + [t];
      OneTradeConserves(w, t, bar, e, pair);
      TicketsOfAppend(Front(open), t, [], Closed("", 0, 0, 0.0, SL, 0.0, 0.0));
    }
  }

  lemma OneTradeConserves(w: Walk, t: Trade, bar: Bar, e: Event, pair: Pair)
    ensures var v := WalkOne(w, t, bar, e, pair);
      multiset(OpenTickets(v.still)) + multiset(ClosedTickets(v.book.closed))
        == multiset(OpenTickets(w.still)) + multiset(ClosedTickets(w.book.closed)) + multiset{TicketOf(t)}
  {
    hide FridayClose, OpenTickets, ClosedTickets, Updated, ForceClosed;
    var u := if e.time - t.entryTime >= TIME_STOP_HOURS * HOUR_MS then ForceClosed(t, bar, pair, TIME_STOP)
             else if FridayClose(e.time) then ForceClosed(t, bar, pair, FRIDAY_FLATTEN)
             else Updated(t, bar, pair);
    UpdateKeepsTicket(t, bar, e, pair);
    var c := if u.closed.Some? then u.closed.value else Closed("", 0, 0, 0.0, SL, 0.0, 0.0);
    TicketsOfAppend(w.still, u.trade, w.book.closed, c);
    TicketsOfAppend(w.still, t, w.book.closed, c);
  }

  lemma UpdateKeepsTicket(t: Trade, bar: Bar, e: Event, pair: Pair)
    ensures var u := if e.time - t.entryTime >= TIME_STOP_HOURS * HOUR_MS then ForceClosed(t, bar, pair, TIME_STOP)
                     else if FridayClose(e.time) then ForceClosed(t, bar, pair, FRIDAY_FLATTEN)
                     else Updated(t, bar, pair);
      TicketOf(u.trade) == TicketOf(t) && (u.closed.Some? ==> ClosedTicket(u.closed.value) == TicketOf(t))
  {
    hide FridayClose, Profit, TargetHit, StopHit;
  }

  lemma EnteringConserves(s: State, r: State, e: Event)
    requires Conserved(s.tickets, s.open, s.book.closed) && r.book == s.book
    requires Idle(s, r) || Enters(s, r, e)
    ensures Conserved(r.tickets, r.open, r.book.closed)
  {
    hide Healthy, Count, DateKey, OpenTickets, ClosedTickets;
    if Enters(s, r, e) {
      assert r.open == s.open + [Last(r.open)];
      TicketsOfAppend(s.open, Last(r.open), [], Closed("", 0, 0, 0.0, SL, 0.0, 0.0));
    }
  }

  lemma EnteringOnceEach(inp: Input, s: State, r: State, n: nat)
    requires Proper(inp) && n < |inp.events| && OnceEach(inp, s.tickets, n)
    requires Idle(s, r) || Enters(s, r, inp.events[n])
    ensures OnceEach(inp, r.tickets, n + 1)
  {
    hide Healthy, Count, DateKey;
    var e := inp.events[n];
    forall t | t in s.tickets
      ensures t != Ticket(e.symbol, e.k)
    {
      var i :| 0 <= i < n && inp.events[i].symbol == t.symbol && inp.events[i].k == t.entryIdx;
    }
  }

  lemma StepConserves(inp: Input, st: State, e: Event)
    requires e.symbol in inp.ltf && e.k < |inp.ltf[e.symbol]| && e.symbol in inp.htf && CursorsFit(inp, st)
    requires !st.failed && Conserved(st.tickets, st.open, st.book.closed)
    ensures var r := Step(inp, st, e); Conserved(r.tickets, r.open, r.book.closed)
  {
    hide Step, WalkAll, Ready, Idle, Enters, CursorMoved, Fails;
    hide Logged, DateKey, CursorsFit, OpenTickets, ClosedTickets;
    WalkConserves(st.book, st.open, inp.ltf[e.symbol][e.k], e, inp.w.pair(e.symbol));
    ReadyShape(inp, st, e);
    StepShape(inp, st, e);
    EnteringConserves(Ready(inp, st, e), Step(inp, st, e), e);
  }

  lemma {:induction false} TradesAreConserved(inp: Input, n: nat)
    requires Proper(inp) && n <= |inp.events|
    ensures Conserved(After(inp, n).tickets, After(inp, n).open, After(inp, n).book.closed)
  {
    hide Step, CursorsFit;
    if n > 0 {
      TradesAreConserved(inp, n - 1);
      assert inp.events[n - 1] in inp.events;
      if After(inp, n - 1).failed {
        FailureIsFinal(inp, n - 1, n);
      } else {
        StepConserves(inp, After(inp, n - 1), inp.events[n - 1]);
      }
    }
  }

  lemma {:induction false} NothingOpensTwice(inp: Input, n: nat)
    requires Proper(inp) && n <= |inp.events|
    ensures OnceEach(inp, After(inp, n).tickets, n)
  {
    hide Step, Ready, Idle, Enters, CursorMoved, Fails, Logged, OnceEach, WalkAll, DateKey, CursorsFit;
    if n == 0 {
      NothingOpened(inp);
    } else {
      NothingOpensTwice(inp, n - 1);
      var st, e := After(inp, n - 1), inp.events[n - 1];
      assert e in inp.events;
      if st.failed {
        FailureIsFinal(inp, n - 1, n);
        OnceEachLater(inp, st.tickets, n - 1);
      } else {
        ReadyShape(inp, st, e);
        StepShape(inp, st, e);
        EnteringOnceEach(inp, Ready(inp, st, e), After(inp, n), n - 1);
      }
    }
  }

  lemma NothingOpened(inp: Input)
    ensures OnceEach(inp, [], 0)
  {
  }

  lemma OnceEachLater(inp: Input, tickets: seq<Ticket>, n: nat)
    requires n < |inp.events| && OnceEach(inp, tickets, n)
    ensures OnceEach(inp, tickets, n + 1)
  {
  }

  lemma {:induction false} ClosingAllBalances(inp: Input, b: Ledger, open: seq<Trade>)
    requires Closable(inp, open)
    ensures Balanced(b) ==> Balanced(CloseAll(inp, b, open))
    ensures multiset(ClosedTickets(CloseAll(inp, b, open).closed)) ==
        multiset(ClosedTickets(b.closed)) + multiset(OpenTickets(open))
  {
    hide Balanced, OpenTickets, ClosedTickets, Profit;
    if open == [] {
      assert OpenTickets([]) == [] by { NoTickets(); }
    } else {
      var t, before := Last(open), CloseAll(inp, b, Front(open));
      ClosingAllBalances(inp, b, Front(open));
      var u := ForceClosed(t, Last(inp.ltf[t.symbol]), inp.w.pair(t.symbol), END_OF_DATA);
      if Balanced(before) { BookingKeepsBalance(before, u.closed.value); }
      TicketsOfAppend(Front(open), t, before.closed, u.closed.value);
      assert open == Front(open) + [t];
    }
  }

  lemma NoTickets()
    ensures OpenTickets([]) == []
  {
  }

  /**
   * The accounts of a finished run: nothing is open, every opened trade was closed exactly once, the balance is the
   * initial one plus every net result and the peak its running maximum. A run ended by a division by zero keeps the
   * same accounts, with what is still open counted as open.
   */
  lemma FinalAccounts(inp: Input)
    requires Proper(inp)
    ensures var r := Outcome(inp);
      && Balanced(r.book)
      && Conserved(r.tickets, r.open, r.book.closed)
      && OnceEach(inp, r.tickets, |inp.events|)
      && (!r.failed ==> r.open == [] && multiset(ClosedTickets(r.book.closed)) == multiset(r.tickets))
  {
    hide Balanced, OnceEach, Logged, OpenTickets, ClosedTickets, Closable;
    var n := |inp.events|;
    BalanceIsInitialPlusNet(inp, n);
    TradesAreConserved(inp, n);
    NothingOpensTwice(inp, n);
    OpenIsClosable(inp, n);
    NoTickets();
    ClosingAllBalances(inp, After(inp, n).book, After(inp, n).open);
  }
}
