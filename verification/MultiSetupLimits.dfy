/** Caps, halts, the lazily advanced HTF cursor and the equity samples of the event-driven backtest. */
module MultiSetupLimits {
  import opened Clock
  import opened Common
  import opened Market
  import opened MultiSetupTrade
  import opened MultiSetupBacktest
  import opened MultiSetupLedger

  // ------------------------------------------------------------------ caps

  /** How many of these trades were opened on the given UTC day. */
  function OpenedOn(inp: Input, tickets: seq<Ticket>, day: int): nat
    requires Known(inp, tickets)
  {
    if tickets == [] then 0
    else OpenedOn(inp, Front(tickets), day) + if DateKey(TimeOf(inp, Last(tickets))) == day then 1 else 0
  }

  /** Every ticket names an existing bar. */
  ghost predicate Known(inp: Input, tickets: seq<Ticket>) {
    forall t :: t in tickets ==> t.symbol in inp.ltf && t.entryIdx < |inp.ltf[t.symbol]|
  }

  function TimeOf(inp: Input, t: Ticket): int
    requires t.symbol in inp.ltf && t.entryIdx < |inp.ltf[t.symbol]|
  {
    inp.ltf[t.symbol][t.entryIdx].time
  }

  /** The day counters tell the truth, and neither cap is exceeded. */
  ghost predicate Capped(inp: Input, st: State) {
    && |st.open| <= MAX_CONCURRENT
    && Known(inp, st.tickets)
    && (forall day :: OpenedOn(inp, st.tickets, day) == Count(st, day))
    && (forall day :: OpenedOn(inp, st.tickets, day) <= MAX_TRADES_PER_DAY)
    && st.dayCount.Keys == st.dayStart.Keys
  }

  lemma {:induction false} WalkNeverAdds(b: Ledger, open: seq<Trade>, bar: Bar, e: Event, pair: Pair)
    ensures |WalkAll(b, open, bar, e, pair).still| <= |open|
  {
    hide Booking, Updated, ForceClosed, FridayClose;
    if open != [] { WalkNeverAdds(b, Front(open), bar, e, pair); }
  }

  lemma ReadyKeepsCaps(inp: Input, st: State, e: Event)
    requires e.symbol in inp.ltf && e.k < |inp.ltf[e.symbol]|
    requires Capped(inp, st)
    ensures Capped(inp, Ready(inp, st, e))
  {
    hide WalkAll, Ready, DateKey;
    WalkNeverAdds(st.book, st.open, inp.ltf[e.symbol][e.k], e, inp.w.pair(e.symbol));
    ReadyShape(inp, st, e);
  }

  lemma EnteringKeepsCaps(inp: Input, s: State, r: State, e: Event)
    requires e.symbol in inp.ltf && e.k < |inp.ltf[e.symbol]| && e.time == inp.ltf[e.symbol][e.k].time
    requires Capped(inp, s) && DateKey(e.time) in s.dayStart && r.dayStart == s.dayStart
    requires Idle(s, r) || Enters(s, r, e)
    ensures Capped(inp, r)
  {
    hide Healthy, DateKey, OpenedOn;
    if Enters(s, r, e) {
      assert |r.open| == |s.open| + 1;
      var t := Ticket(e.symbol, e.k);
      forall day
        ensures OpenedOn(inp, r.tickets, day) == Count(r, day) && OpenedOn(inp, r.tickets, day) <= MAX_TRADES_PER_DAY
      {
        assert OpenedOn(inp, s.tickets, day) == Count(s, day);
        OpenedOneMore(inp, s.tickets, t, day);
      }
    }
  }

  lemma OpenedOneMore(inp: Input, tickets: seq<Ticket>, t: Ticket, day: int)
    requires Known(inp, tickets) && Known(inp, [t])
    ensures Known(inp, tickets + [t])
    ensures OpenedOn(inp, tickets + [t], day) ==
            OpenedOn(inp, tickets, day) + if DateKey(TimeOf(inp, t)) == day then 1 else 0
  {
    assert t in [t];
    assert Front(tickets + [t]) == tickets;
  }

  /** Never more than two trades open, never more than two opened on one UTC day, in every state of every run. */
  lemma {:induction false} CapsHold(inp: Input, n: nat)
    requires Proper(inp) && n <= |inp.events|
    ensures Capped(inp, After(inp, n))
  {
    hide Step, Ready, Idle, Enters, CursorMoved, Fails, Logged, Capped, DateKey;
    if n == 0 {
      StartIsCapped(inp);
    } else {
      CapsHold(inp, n - 1);
      var st, e := After(inp, n - 1), inp.events[n - 1];
      assert e in inp.events;
      if st.failed {
        FailureIsFinal(inp, n - 1, n);
      } else {
        ReadyKeepsCaps(inp, st, e);
        StepShape(inp, st, e);
        EnteringKeepsCaps(inp, Ready(inp, st, e), After(inp, n), e);
      }
    }
  }

  lemma StartIsCapped(inp: Input)
    ensures Capped(inp, Start(inp))
  {
  }

  // ------------------------------------------------------------------ halts

  /** Opening a trade means no halt was in force at that moment. */
  lemma OpensOnlyWhenHealthy(inp: Input, n: nat)
    requires Proper(inp) && n < |inp.events|
    requires After(inp, n + 1).tickets != After(inp, n).tickets
    ensures !After(inp, n).failed
    ensures var s := Ready(inp, After(inp, n), inp.events[n]);
      && Healthy(s, DateKey(inp.events[n].time))
      && s.book.balance > 0.9 * s.book.peak >= 0.9 * INITIAL_BALANCE
  {
    hide Step, Ready, CursorMoved, Fails, Logged, DateKey, Balanced;
    var st, e := After(inp, n), inp.events[n];
    assert e in inp.events;
    if st.failed { FailureIsFinal(inp, n, n + 1); }
    ReadyShape(inp, st, e);
    StepShape(inp, st, e);
    BalanceIsInitialPlusNet(inp, n);
    WalkKeepsBalance(st.book, st.open, inp.ltf[e.symbol][e.k], e, inp.w.pair(e.symbol));
    var s := Ready(inp, st, e);
    PeakCoversStart(s.book);
    SmallLossKeepsMost(s.book.peak, s.book.balance);
  }

  lemma PeakCoversStart(b: Ledger)
    requires Balanced(b)
    ensures b.peak >= INITIAL_BALANCE
  {
    assert b.closed[..0] == [];
    assert BalanceAfter(b.closed, 0) == INITIAL_BALANCE;
  }

  lemma SmallLossKeepsMost(peak: real, balance: real)
    requires peak > 0.0 && LossPct(peak, balance) < TOTAL_DD_PCT_HARD
    ensures balance > 0.9 * peak
  {
    var x := (peak - balance) / peak;
    assert x * peak == peak - balance;
    assert x < 0.1;
    assert x * peak < 0.1 * peak;
  }

  ghost predicate Frozen(a: State, b: State) {
    b.halted && b.tickets == a.tickets && b.curve == a.curve && b.failed == a.failed && |b.open| <= |a.open|
  }

  lemma HaltedStepIsFrozen(inp: Input, st: State, e: Event)
    requires e.symbol in inp.ltf && e.k < |inp.ltf[e.symbol]| && e.symbol in inp.htf && CursorsFit(inp, st)
    requires st.halted && !st.failed
    ensures Frozen(st, Step(inp, st, e))
  {
    hide Step, Ready, CursorMoved, Fails, Logged, DateKey, Idle, Enters, WalkAll, CursorsFit;
    WalkNeverAdds(st.book, st.open, inp.ltf[e.symbol][e.k], e, inp.w.pair(e.symbol));
    ReadyShape(inp, st, e);
    StepShape(inp, st, e);
  }

  /**
   * Once the total drawdown halt is set it stays set, no trade is opened again, and no event of the stream takes an
   * equity sample again, whatever the trades still open go on to win or lose.
   */
  lemma {:induction false} HaltIsFinal(inp: Input, n: nat, m: nat)
    requires Proper(inp) && n <= m <= |inp.events| && After(inp, n).halted
    ensures Frozen(After(inp, n), After(inp, m))
  {
    hide Step, CursorsFit, Start;
    if n < m {
      HaltIsFinal(inp, n, m - 1);
      assert inp.events[m - 1] in inp.events;
      if After(inp, m - 1).failed {
        FailureIsFinal(inp, m - 1, m);
      } else {
        HaltedStepIsFrozen(inp, After(inp, m - 1), inp.events[m - 1]);
      }
    }
  }

  /**
   * A run fails exactly at the first event, not yet halted, whose UTC day starts at a balance of zero. The peak
   * never gets to zero, so the other division is safe.
   */
  lemma FailsExactlyOnZeroDayStart(inp: Input, n: nat)
    requires Proper(inp) && n < |inp.events| && !After(inp, n).failed
    ensures var s, day := Ready(inp, After(inp, n), inp.events[n]), DateKey(inp.events[n].time);
      day in s.dayStart && (After(inp, n + 1).failed <==> !s.halted && s.dayStart[day] == 0.0)
  {
    hide Step, Ready, CursorMoved, Logged, DateKey, Balanced, Idle, Enters, LossPct;
    var st, e := After(inp, n), inp.events[n];
    assert e in inp.events;
    ReadyShape(inp, st, e);
    StepShape(inp, st, e);
    BalanceIsInitialPlusNet(inp, n);
    WalkKeepsBalance(st.book, st.open, inp.ltf[e.symbol][e.k], e, inp.w.pair(e.symbol));
    PeakCoversStart(Ready(inp, st, e).book);
  }

  // ------------------------------------------------------------------ equity samples

  /** Until a halt or a failure the last equity sample is the balance. */
  lemma {:induction false} CurveTracksBalance(inp: Input, n: nat)
    requires Proper(inp) && n <= |inp.events| && inp.events != []
    requires !After(inp, n).failed && !After(inp, n).halted
    ensures var st := After(inp, n); st.curve != [] && Last(st.curve).1 == st.book.balance
  {
    hide Step, Ready, CursorMoved, Fails, DateKey, Idle, Enters, WalkAll;
    if n > 0 {
      var st, e := After(inp, n - 1), inp.events[n - 1];
      assert e in inp.events;
      if st.failed { FailureIsFinal(inp, n - 1, n); }
      ReadyShape(inp, st, e);
      StepShape(inp, st, e);
    }
  }

  // ------------------------------------------------------------------ the HTF cursor

  lemma {:induction false} AdvancedIsLongestPrefix(htf: seq<Bar>, cursor: int, time: int)
    requires -1 <= cursor < |htf|
    ensures var c := Advanced(htf, cursor, time);
      && (forall j :: cursor < j <= c ==> htf[j].time < time)
      && (c + 1 < |htf| ==> htf[c + 1].time >= time)
    decreases |htf| - cursor
  {
    if cursor + 1 < |htf| && htf[cursor + 1].time < time { AdvancedIsLongestPrefix(htf, cursor + 1, time); }
  }

  /** Starting late is as good as starting from scratch, provided only bars before `time` were passed. */
  lemma {:induction false} AdvancedFromAnywhere(htf: seq<Bar>, from: int, cursor: int, time: int)
    requires -1 <= from <= cursor < |htf|
    requires forall j :: from < j <= cursor ==> htf[j].time < time
    ensures Advanced(htf, from, time) == Advanced(htf, cursor, time)
    decreases cursor - from
  {
    if from < cursor { AdvancedFromAnywhere(htf, from + 1, cursor, time); }
  }

  /** Every cursor has only passed bars that open before `time`. */
  ghost predicate Behind(inp: Input, st: State, time: int) {
    forall s, j :: s in inp.htf && 0 <= j <= CursorOf(st, s) < |inp.htf[s]| ==> inp.htf[s][j].time < time
  }

  lemma MovingStaysBehind(inp: Input, st: State, r: State, e: Event)
    requires e.symbol in inp.htf && CursorsFit(inp, st) && Behind(inp, st, e.time)
    requires CursorMoved(inp, st, r, e)
    ensures Behind(inp, r, e.time)
  {
    hide Advanced;
    AdvancedIsLongestPrefix(inp.htf[e.symbol], CursorOf(st, e.symbol), e.time);
  }

  lemma {:induction false} CursorsStayBehind(inp: Input, n: nat)
    requires Proper(inp) && n < |inp.events|
    ensures Behind(inp, After(inp, n), inp.events[n].time)
  {
    hide Step, Ready, CursorMoved, Fails, DateKey, Idle, Enters, WalkAll, Logged, CursorsFit, Behind;
    if n == 0 {
      NothingPassed(inp, inp.events[0].time);
    } else {
      CursorsStayBehind(inp, n - 1);
      var st, e := After(inp, n - 1), inp.events[n - 1];
      assert e in inp.events;
      if st.failed {
        FailureIsFinal(inp, n - 1, n);
      } else {
        StepShape(inp, st, e);
        MovingStaysBehind(inp, st, After(inp, n), e);
      }
      BehindLater(inp, After(inp, n), e.time, inp.events[n].time);
    }
  }

  lemma NothingPassed(inp: Input, time: int)
    ensures Behind(inp, Start(inp), time)
  {
  }

  lemma BehindLater(inp: Input, st: State, time: int, later: int)
    requires Behind(inp, st, time) && time <= later
    ensures Behind(inp, st, later)
  {
  }

  /**
   * The cursor is moved only at the events that reach the detectors, yet whenever it is used it stands where a
   * search from the start would put it.
   */
  lemma LazyCursorIsExact(inp: Input, n: nat)
    requires Proper(inp) && n < |inp.events|
    ensures var e := inp.events[n];
      && e.symbol in inp.htf && -1 <= CursorOf(After(inp, n), e.symbol) < |inp.htf[e.symbol]|
      && Advanced(inp.htf[e.symbol], CursorOf(After(inp, n), e.symbol), e.time) ==
          Advanced(inp.htf[e.symbol], -1, e.time)
  {
    hide Step, Advanced;
    var e := inp.events[n];
    assert e in inp.events;
    CursorsStayBehind(inp, n);
    AdvancedFromAnywhere(inp.htf[e.symbol], -1, CursorOf(After(inp, n), e.symbol), e.time);
  }

  /** On HTF bars in time order that is the largest index whose bar opens before `time`. */
  lemma CursorIsLargestEarlier(htf: seq<Bar>, time: int, j: nat)
    requires forall i, k :: 0 <= i < k < |htf| ==> htf[i].time <= htf[k].time
    requires j < |htf|
    ensures htf[j].time < time <==> j <= Advanced(htf, -1, time)
  {
    AdvancedIsLongestPrefix(htf, -1, time);
  }
}
