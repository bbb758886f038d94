/** What the records of a whole run can lose: the payoff of one trade carried through the ledger. */
module MultiSetupRisk {
  import opened Clock
  import opened Common
  import opened Market
  import opened MultiSetupBacktest
  import opened MultiSetupLedger
  import opened MultiSetupPayoff
  import opened MultiSetupTrade

  /** The event with this number opened this trade. */
  ghost predicate OpenedAt(inp: Input, n: nat, t: Trade)
    requires Proper(inp)
  {
    && n < |inp.events| && After(inp, n + 1).tickets == After(inp, n).tickets + [TicketOf(t)]
    && After(inp, n + 1).open != [] && Last(After(inp, n + 1).open) == t
  }

  /** Signals with their stop not on the winning side and a first target, if tagged, not on the losing side. */
  ghost predicate SaneSignals(w: World) {
    forall symbol, time, h, l :: SaneSignal(w.best(symbol, time, h, l))
  }

  predicate SaneSignal(sig: Option<Signal>) {
    sig.Some? ==>
      && Gain(sig.value.dir, sig.value.sl, sig.value.entry) >= 0.0
      && (sig.value.tp1.Some? ==> Gain(sig.value.dir, sig.value.entry, sig.value.tp1.value) >= 0.0)
  }

  ghost predicate FromSignal(inp: Input, t: Trade, balance: real) {
    exists sig: Signal, k: nat, time: int, pipValue: real ::
      && Opened(sig, t.symbol, k, time, inp.w.pair(t.symbol), balance, pipValue) == Some(t)
      && (SaneSignals(inp.w) ==> SaneSignal(Some(sig)))
  }

  /** A trade as it is opened: fresh, staked within the budget of that balance. */
  ghost predicate WellOpened(inp: Input, t: Trade, balance: real) {
    var pair := inp.w.pair(t.symbol);
    && Fresh(t) && Gain(t.dir, t.entry, t.tp2) > 0.0 && t.risk * Unit(t, pair) <= balance * (RISK_PCT / 100.0)
    && (SaneSignals(inp.w) ==> FirstTargetIsSane(t, pair))
  }

  lemma EntryFromSignal(inp: Input, s: State, e: Event)
    requires e.symbol in inp.ltf && e.k < |inp.ltf[e.symbol]|
    requires e.symbol in inp.htf && -1 <= CursorOf(s, e.symbol) < |inp.htf[e.symbol]|
    requires Entered(inp, s, e).tickets != s.tickets
    ensures var r := Entered(inp, s, e);
      && r.open != [] && r.tickets == s.tickets + [TicketOf(Last(r.open))]
      && FromSignal(inp, Last(r.open), s.book.balance)
  {
    hide Advanced, Opened, SaneSignal;
    var cursor := Advanced(inp.htf[e.symbol], CursorOf(s, e.symbol), e.time);
    var sig := Candidate(inp, e, cursor);
    OpenedSymbol(sig.value, e.symbol, e.k, e.time, inp.w.pair(e.symbol), s.book.balance,
                 inp.w.pipValue(e.symbol, s.prices));
  }

  lemma OpenedSymbol(sig: Signal, symbol: string, k: nat, time: int, pair: Pair, balance: real, pipValue: real)
    ensures var t := Opened(sig, symbol, k, time, pair, balance, pipValue); t.Some? ==> t.value.symbol == symbol
  {
    hide SizedLots;
  }

  lemma StepFromSignal(inp: Input, st: State, e: Event)
    requires e.symbol in inp.ltf && e.k < |inp.ltf[e.symbol]| && e.symbol in inp.htf && CursorsFit(inp, st)
    requires Step(inp, st, e).tickets != st.tickets
    ensures var r := Step(inp, st, e);
      && r.open != [] && r.tickets == st.tickets + [TicketOf(Last(r.open))]
      && FromSignal(inp, Last(r.open), r.book.balance)
  {
    hide WalkAll, Decided, DateKey, FromSignal, CursorOf, TicketOf;
    StepKeepsCursorsFit(inp, st, e);
    var s := Ready(inp, st, e);
    ReadyShape(inp, st, e);
    CursorFits(inp, s, e.symbol);
    DecisionFromSignal(inp, s, e);
  }

  lemma DecisionFromSignal(inp: Input, s: State, e: Event)
    requires e.symbol in inp.ltf && e.k < |inp.ltf[e.symbol]| && DateKey(e.time) in s.dayStart
    requires e.symbol in inp.htf && -1 <= CursorOf(s, e.symbol) < |inp.htf[e.symbol]|
    requires Decided(inp, s, e).tickets != s.tickets
    ensures var r := Decided(inp, s, e);
      && r.open != [] && r.tickets == s.tickets + [TicketOf(Last(r.open))]
      && FromSignal(inp, Last(r.open), r.book.balance)
  {
    hide Entered, Decided, DateKey, FromSignal, CursorOf, TicketOf;
    DecisionIsEntry(inp, s, e);
    EntryFromSignal(inp, s, e);
  }

  lemma DecisionIsEntry(inp: Input, s: State, e: Event)
    requires e.symbol in inp.ltf && e.k < |inp.ltf[e.symbol]| && DateKey(e.time) in s.dayStart
    requires e.symbol in inp.htf && -1 <= CursorOf(s, e.symbol) < |inp.htf[e.symbol]|
    requires Decided(inp, s, e).tickets != s.tickets
    ensures var r, q := Decided(inp, s, e), Entered(inp, s, e);
      r.open == q.open && r.tickets == q.tickets && r.book == s.book
  {
    hide Entered, Logged, LossPct, DateKey, Blocked, CursorOf, Advanced;
    EntryKeepsBook(inp, s, e);
  }

  lemma EntryKeepsBook(inp: Input, s: State, e: Event)
    requires e.symbol in inp.ltf && e.k < |inp.ltf[e.symbol]|
    requires e.symbol in inp.htf && -1 <= CursorOf(s, e.symbol) < |inp.htf[e.symbol]|
    ensures Entered(inp, s, e).book == s.book
  {
    hide NewTrade, DateKey, Advanced;
  }

  lemma SignalOpensWell(inp: Input, t: Trade, balance: real)
    requires FromSignal(inp, t, balance)
    ensures WellOpened(inp, t, balance)
  {
    hide Opened, Unit, SaneSignals, FirstTargetIsSane;
    var sig: Signal, k: nat, time: int, pipValue: real :|
      && Opened(sig, t.symbol, k, time, inp.w.pair(t.symbol), balance, pipValue) == Some(t)
      && (SaneSignals(inp.w) ==> SaneSignal(Some(sig)));
    SizingFitsBudget(sig, t.symbol, k, time, inp.w.pair(t.symbol), balance, pipValue);
    if SaneSignals(inp.w) { DetectorTargetsAreSane(sig, t.symbol, k, time, inp.w.pair(t.symbol), balance, pipValue); }
  }

  lemma OpeningIsWell(inp: Input, n: nat)
    requires Proper(inp) && n < |inp.events| && After(inp, n + 1).tickets != After(inp, n).tickets
    ensures After(inp, n + 1).open != []
    ensures var t := Last(After(inp, n + 1).open);
      OpenedAt(inp, n, t) && WellOpened(inp, t, After(inp, n + 1).book.balance)
  {
    hide Step, FromSignal, WellOpened, CursorsFit;
    assert inp.events[n] in inp.events;
    StepFromSignal(inp, After(inp, n), inp.events[n]);
    SignalOpensWell(inp, Last(After(inp, n + 1).open), After(inp, n + 1).book.balance);
  }

  // ------------------------------------------------------------------ every trade of a run

  ghost predicate Begun(inp: Input, n: nat, t: Trade)
    requires Proper(inp)
  {
    OpenedAt(inp, n, t) && WellOpened(inp, t, After(inp, n + 1).book.balance)
  }

  predicate OwnRules(r: Reason) {
    r == SL || r == TRAIL || r == TP2
  }

  /** An open trade descends from one that was opened at some earlier event, under its own rules. */
  ghost predicate Descends(inp: Input, n: nat, u: Trade)
    requires Proper(inp)
  {
    exists m: nat, t :: m < n && Begun(inp, m, t)
                   && Alive(t, u, inp.w.pair(t.symbol)) && u.symbol == t.symbol
  }

  /** A record that its own rules made pays what the trade it was opened as pays. */
  ghost predicate Settles(inp: Input, n: nat, c: Closed)
    requires Proper(inp)
  {
    OwnRules(c.reason) ==>
      exists m: nat, t :: m < n && Begun(inp, m, t)
                     && Pays(t, c, inp.w.pair(t.symbol)) && ClosedTicket(c) == TicketOf(t)
  }

  ghost predicate Traced(inp: Input, n: nat, closed: seq<Closed>, open: seq<Trade>)
    requires Proper(inp)
  {
    (forall c :: c in closed ==> Settles(inp, n, c)) && forall u :: u in open ==> Descends(inp, n, u)
  }

  lemma OneTradeTraced(inp: Input, n: nat, w: Walk, u: Trade, bar: Bar, e: Event)
    requires Proper(inp) && Descends(inp, n, u) && Traced(inp, n, w.book.closed, w.still)
    ensures var v := WalkOne(w, u, bar, e, inp.w.pair(e.symbol)); Traced(inp, n, v.book.closed, v.still)
  {
    hide Begun, Alive, Pays, FridayClose, Updated, Profit;
    var pair := inp.w.pair(e.symbol);
    if u.symbol == e.symbol {
      var m: nat, t :| m < n && Begun(inp, m, t)
                  && Alive(t, u, inp.w.pair(t.symbol)) && u.symbol == t.symbol;
      BegunIsFresh(inp, m, t);
      UpdatePays(t, u, bar, pair);
      UpdateKeepsName(t, u, bar, pair);
      assert Updated(u, bar, pair).closed.Some? ==> Settles(inp, n, Updated(u, bar, pair).closed.value);
      assert Updated(u, bar, pair).closed.None? ==> Descends(inp, n, Updated(u, bar, pair).trade);
    }
  }

  lemma BegunIsFresh(inp: Input, n: nat, t: Trade)
    requires Proper(inp) && Begun(inp, n, t)
    ensures Fresh(t)
  {
    hide After, Unit, FirstTargetIsSane, SaneSignals;
  }

  lemma UpdateKeepsName(t: Trade, u: Trade, bar: Bar, pair: Pair)
    requires Alive(t, u, pair)
    ensures var r := Updated(u, bar, pair);
      r.trade.symbol == t.symbol && (r.closed.Some? ==> ClosedTicket(r.closed.value) == TicketOf(t))
  {
    hide Profit, StopHit, TargetHit, Unit;
  }

  lemma {:induction false} WalkTraced(inp: Input, n: nat, b: Ledger, open: seq<Trade>, bar: Bar, e: Event)
    requires Proper(inp) && Traced(inp, n, b.closed, open)
    ensures var w := WalkAll(b, open, bar, e, inp.w.pair(e.symbol)); Traced(inp, n, w.book.closed, w.still)
  {
    hide Settles, Descends, WalkOne;
    if open != [] {
      assert Last(open) in open;
      WalkTraced(inp, n, b, Front(open), bar, e);
      OneTradeTraced(inp, n, WalkAll(b, Front(open), bar, e, inp.w.pair(e.symbol)), Last(open), bar, e);
    }
  }

  lemma TracedLater(inp: Input, n: nat, closed: seq<Closed>, open: seq<Trade>)
    requires Proper(inp) && Traced(inp, n, closed, open)
    ensures Traced(inp, n + 1, closed, open)
  {
    hide Begun, Alive, Pays;
    forall c | c in closed ensures Settles(inp, n + 1, c) { assert Settles(inp, n, c); }
    forall u | u in open ensures Descends(inp, n + 1, u) { assert Descends(inp, n, u); }
  }

  lemma OpeningTraced(inp: Input, n: nat)
    requires Proper(inp) && n < |inp.events| && After(inp, n + 1).tickets != After(inp, n).tickets
    ensures After(inp, n + 1).open != [] && Descends(inp, n + 1, Last(After(inp, n + 1).open))
  {
    hide After, Unit, FirstTargetIsSane, SaneSignals;
    OpeningIsWell(inp, n);
    var t := Last(After(inp, n + 1).open);
    assert Begun(inp, n, t) && Alive(t, t, inp.w.pair(t.symbol));
  }

  /** In every state of every run, each open trade and each record goes back to the event that opened it. */
  lemma {:induction false} EveryTradeIsTraced(inp: Input, n: nat)
    requires Proper(inp) && n <= |inp.events|
    ensures Traced(inp, n, After(inp, n).book.closed, After(inp, n).open)
  {
    hide Step, Ready, Idle, Fails, CursorMoved, Logged, Settles, Descends, WalkAll, DateKey, CursorsFit, Healthy;
    if n > 0 {
      EveryTradeIsTraced(inp, n - 1);
      var st, r, e := After(inp, n - 1), After(inp, n), inp.events[n - 1];
      assert e in inp.events;
      TracedLater(inp, n - 1, st.book.closed, st.open);
      if st.failed {
        FailureIsFinal(inp, n - 1, n);
      } else {
        WalkTraced(inp, n, st.book, st.open, inp.ltf[e.symbol][e.k], e);
        ReadyShape(inp, st, e);
        StepShape(inp, st, e);
        TradesAfterStep(inp, n);
      }
    }
  }

  lemma TradesAfterStep(inp: Input, n: nat)
    requires Proper(inp) && 0 < n <= |inp.events| && !After(inp, n - 1).failed
    requires inp.events[n - 1] in inp.events
    requires var s := Ready(inp, After(inp, n - 1), inp.events[n - 1]); Traced(inp, n, s.book.closed, s.open)
    ensures Traced(inp, n, After(inp, n).book.closed, After(inp, n).open)
  {
    hide Step, Ready, Idle, Enters, Fails, CursorMoved, Logged, Traced, DateKey, CursorsFit;
    var st, r, e := After(inp, n - 1), After(inp, n), inp.events[n - 1];
    ReadyShape(inp, st, e);
    StepShape(inp, st, e);
    if r.tickets != st.tickets { OpeningTraced(inp, n - 1); }
    ChangeTraced(inp, n, Ready(inp, st, e), r, e);
  }

  lemma ChangeTraced(inp: Input, n: nat, s: State, r: State, e: Event)
    requires Proper(inp) && Traced(inp, n, s.book.closed, s.open) && r.book == s.book && (Idle(s, r) || Enters(s, r, e))
    requires r.tickets != s.tickets ==> r.open != [] && Descends(inp, n, Last(r.open))
    ensures Traced(inp, n, r.book.closed, r.open)
  {
    hide Traced, Descends, DateKey, Healthy, Count, TicketOf;
    if r.tickets != s.tickets {
      OneMoreTraced(inp, n, s.book.closed, s.open, Last(r.open));
      assert r.open == s.open + [Last(r.open)];
    }
  }

  lemma OneMoreTraced(inp: Input, n: nat, closed: seq<Closed>, open: seq<Trade>, u: Trade)
    requires Proper(inp) && Traced(inp, n, closed, open) && Descends(inp, n, u)
    ensures Traced(inp, n, closed, open + [u])
  {
    hide Settles, Descends;
  }

  lemma {:induction false} ClosingAllTraced(inp: Input, n: nat, b: Ledger, open: seq<Trade>)
    requires Proper(inp) && Closable(inp, open) && forall c :: c in b.closed ==> Settles(inp, n, c)
    ensures forall c :: c in CloseAll(inp, b, open).closed ==> Settles(inp, n, c)
  {
    hide Profit, Begun, Pays;
    if open != [] { ClosingAllTraced(inp, n, b, Front(open)); }
  }

  /**
   * Every record of a finished run with reason SL, TRAIL or TP2 goes back to a trade opened at some event, and loses
   * at most RISK_PCT percent of the balance at that event, if the first target of that trade is sane. With sane
   * signals it always is.
   */
  lemma RecordsKeepToRisk(inp: Input, c: Closed)
    requires Proper(inp) && c in Outcome(inp).book.closed && OwnRules(c.reason)
    ensures exists m: nat, t: Trade ::
              && OpenedAt(inp, m, t) && ClosedTicket(c) == TicketOf(t)
              && (SaneSignals(inp.w) ==> FirstTargetIsSane(t, inp.w.pair(t.symbol)))
              && (FirstTargetIsSane(t, inp.w.pair(t.symbol)) ==>
                    c.gross >= -(After(inp, m + 1).book.balance * (RISK_PCT / 100.0)))
  {
    hide After, CloseAll, Logged, Unit, FirstTargetIsSane, Pays, SaneSignals;
    var n := |inp.events|;
    EveryTradeIsTraced(inp, n);
    OpenIsClosable(inp, n);
    ClosingAllTraced(inp, n, After(inp, n).book, After(inp, n).open);
    assert Settles(inp, n, c);
    var m: nat, t :| m < n && Begun(inp, m, t)
                     && Pays(t, c, inp.w.pair(t.symbol)) && ClosedTicket(c) == TicketOf(t);
    if FirstTargetIsSane(t, inp.w.pair(t.symbol)) {
      SanePays(t, c, inp.w.pair(t.symbol));
    }
  }
}
