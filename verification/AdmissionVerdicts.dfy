/**
 * Who is turned away in live admission, and who is not: the verdicts of news and compliance, the open positions, the
 * directions and the cap, candidate by candidate and over whole runs. The conditions are written out here.
 */
module AdmissionVerdicts {
  import opened AdmissionRuns
  import opened Common
  import opened DailyTracker
  import opened HouseMoney
  import opened LiveEngine

  /** This reason is true of the candidate at this moment. */
  predicate IsTrue(why: Rejection, st: State, s: Signal, w: World) {
    match why
    case NewsBlackout => w.news(s.symbol)
    case OpenPositionExists => exists i :: 0 <= i < |st.open| && st.open[i] == s.symbol
    case DirectionAlreadyTraded => s.dir in st.traded
    case DailyCapReached => st.daily.tradeCount >= 2
    case Compliance(reason) => w.comply(s) == Some(reason)
    case TotalDrawdown => false
  }

  /** The reasons in the order they are looked for; compliance last, with its own words. */
  function Reasons(s: Signal, w: World): seq<Rejection> {
    [NewsBlackout, OpenPositionExists, DirectionAlreadyTraded, DailyCapReached]
    + match w.comply(s) case Some(reason) => [Compliance(reason)] case None => []
  }

  /** The first reason that is true, if any is. */
  ghost predicate IsFirstTrue(why: Option<Rejection>, st: State, s: Signal, w: World) {
    match why
    case None => forall r :: r in Reasons(s, w) ==> !IsTrue(r, st, s, w)
    case Some(r) =>
      exists k :: 0 <= k < |Reasons(s, w)| && Reasons(s, w)[k] == r && IsTrue(r, st, s, w)
        && forall j :: 0 <= j < k ==> !IsTrue(Reasons(s, w)[j], st, s, w)
  }

  /** No verdict stands against the candidate. */
  ghost predicate Cleared(st: State, s: Signal, w: World) {
    && !w.news(s.symbol) && w.comply(s).None?
    && s.symbol !in st.open && s.dir !in st.traded && st.daily.tradeCount < 2
  }

  /** The order of a cleared candidate, at the risk the sizing gives it. */
  ghost predicate OrderFor(o: Order, cfg: Config, st: State, s: Signal, now: int, acct: Account) {
    var risk := CalcTradeRisk(cfg, s.grade, acct.equity, acct.dailyPnl, st.daily.tradeCount + 1);
    o.signal == s && o.day == IstDay(now) && risk.Ok? && o.riskPct == risk.value.finalPct
  }

  /**
   * What becomes of one candidate: turned away with a reason, which changes nothing else; or placed, which adds its
   * order, its direction and, at market, its position; or the cycle ends in an error.
   */
  ghost predicate Fate(cfg: Config, p: Progress, q: Progress, s: Signal, now: int, acct: Account, w: World) {
    if exists why :: IsTrue(why, p.st, s, w) then
      exists why :: IsFirstTrue(Some(why), p.st, s, w) && q.st == p.st && q.raised == p.raised
                    && q.report.rejections == p.report.rejections + [(s.symbol, why)]
    else
      && Cleared(p.st, s, w) && q.report.rejections == p.report.rejections
      && (if q.raised == NotRaised then
            exists o :: OrderFor(o, cfg, p.st, s, now, acct) && q.st.orders == p.st.orders + [o]
                        && q.st.traded == p.st.traded + {s.dir}
                        && q.st.open == p.st.open + (if EntersAtMarket(s) then [s.symbol] else [])
          else q.st == p.st)
  }

  lemma AdmitIsFate(cfg: Config, p: Progress, s: Signal, now: int, acct: Account, w: World)
    requires p.raised == NotRaised
    ensures Fate(cfg, p, Admit(cfg, p, s, now, acct, w), s, now, acct, w)
  {
    hide CalcTradeRisk, EntersAtMarket, Updated;
    var q := Admit(cfg, p, s, now, acct, w);
    var gate := Gate(p.st, s, w);
    GateIsFirstTrue(p.st, s, w);
    if gate.Some? {
      assert IsFirstTrue(Some(gate.value), p.st, s, w);
    } else {
      NothingIsTrue(p.st, s, w);
      if q.raised == NotRaised { assert OrderFor(Last(q.st.orders), cfg, p.st, s, now, acct); }
    }
  }

  lemma GateIsFirstTrue(st: State, s: Signal, w: World)
    ensures IsFirstTrue(Gate(st, s, w), st, s, w)
  {
    var gate, rs := Gate(st, s, w), Reasons(s, w);
    if gate.Some? {
      var k := match gate.value
        case NewsBlackout => 0
        case OpenPositionExists => 1
        case DirectionAlreadyTraded => 2
        case DailyCapReached => 3
        case _ => 4;
      assert rs[k] == gate.value;
    }
  }

  lemma VerdictIsReason(s: Signal, w: World)
    ensures w.comply(s).Some? ==> Compliance(w.comply(s).value) in Reasons(s, w)
  {
    assert w.comply(s).Some? ==> Reasons(s, w)[4] == Compliance(w.comply(s).value);
  }

  lemma NothingIsTrue(st: State, s: Signal, w: World)
    requires IsFirstTrue(None, st, s, w)
    ensures Cleared(st, s, w) && forall why :: !IsTrue(why, st, s, w)
  {
    var rs := Reasons(s, w);
    assert rs[0] == NewsBlackout && rs[1] == OpenPositionExists && rs[2] == DirectionAlreadyTraded;
    assert rs[3] == DailyCapReached;
    assert forall k :: 0 <= k < |rs| ==> rs[k] in rs;
    VerdictIsReason(s, w);
  }

  // ------------------------------------------------------------------ one cycle

  /** How far a cycle has come when it has seen its first `k` candidates. */
  function SoFar(cfg: Config, st: State, e: Event, k: nat): Progress
    requires e.Scan? && k <= |BestPerSymbol(e.signals)|
  {
    var start := Progress(Opened(st, e.now, e.acct), Report(|e.signals|, 0, 0, []), NotRaised);
    AdmitAll(cfg, start, BestPerSymbol(e.signals)[..k], e.now, e.acct, e.w)
  }

  /** Every candidate of a cycle that is not halted meets its fate at its moment, until an error ends the cycle. */
  lemma EveryCandidateHasItsFate(cfg: Config, st: State, e: Event, k: nat)
    requires e.Scan? && k < |BestPerSymbol(e.signals)| && SoFar(cfg, st, e, k).raised == NotRaised
    ensures Fate(cfg, SoFar(cfg, st, e, k), SoFar(cfg, st, e, k + 1), BestPerSymbol(e.signals)[k], e.now, e.acct, e.w)
  {
    hide Fate, Admit, BestPerSymbol;
    var cs := BestPerSymbol(e.signals);
    assert Front(cs[..k + 1]) == cs[..k];
    AdmitIsFate(cfg, SoFar(cfg, st, e, k), cs[k], e.now, e.acct, e.w);
  }

  /** The kill switch is not on: the equity is less than 8% below the highest any cycle of the run has seen. */
  ghost predicate InDrawdownLimit(events: seq<Event>, e: Event)
    requires e.Scan?
  {
    forall x :: x in Equities(events + [e]) ==> (x - e.acct.equity) * 100.0 < 8.0 * x
  }

  /** Then the cycle ends where its last candidate leaves it. */
  lemma CycleIsSoFar(cfg: Config, daily: DailyState, events: seq<Event>, e: Event)
    requires Proper(events + [e]) && e.Scan? && InDrawdownLimit(events, e)
    ensures var st := After(cfg, daily, events);
      Cycle(cfg, st, e.signals, e.now, e.acct, e.w) == SoFar(cfg, st, e, |BestPerSymbol(e.signals)|)
  {
    hide AdmitAll, RejectAll, BestPerSymbol;
    assert Front(events + [e]) == events;
    EveryRunIsSafe(cfg, daily, events);
    var st, cs := After(cfg, daily, events), BestPerSymbol(e.signals);
    OpeningKeepsSafety(st, events, e);
    assert cs[..|cs|] == cs;
    var top := Opened(st, e.now, e.acct).hwm.value;
    assert top in Equities(events + [e]);
    if top > 0.0 { SmallFall(top, e.acct.equity); }
  }

  lemma SignOfFactor(x: real, y: real)
    requires y > 0.0 && x * y < 0.0
    ensures x < 0.0
  {
  }

  lemma SmallFall(top: real, equity: real)
    requires top > 0.0 && (top - equity) * 100.0 < 8.0 * top
    ensures (top - equity) / top * 100.0 < 8.0
  {
    var x := (top - equity) / top;
    assert x * top == top - equity;
    assert (x * 100.0 - 8.0) * top < 0.0;
    SignOfFactor(x * 100.0 - 8.0, top);
  }

  /** An entry of the report names a candidate and the first reason true of it at its moment. */
  ghost predicate Explained(cfg: Config, st: State, e: Event, entry: (string, Rejection), n: nat)
    requires e.Scan? && n <= |BestPerSymbol(e.signals)|
  {
    exists k :: 0 <= k < n && BestPerSymbol(e.signals)[k].symbol == entry.0
      && IsFirstTrue(Some(entry.1), SoFar(cfg, st, e, k).st, BestPerSymbol(e.signals)[k], e.w)
  }

  lemma {:induction false} RejectionsAreTrue(cfg: Config, st: State, e: Event, n: nat)
    requires e.Scan? && n <= |BestPerSymbol(e.signals)|
    ensures forall x :: x in SoFar(cfg, st, e, n).report.rejections ==> Explained(cfg, st, e, x, n)
  {
    hide BestPerSymbol, IsFirstTrue, IsTrue, Cleared, OrderFor, EntersAtMarket, Opened;
    var cs := BestPerSymbol(e.signals);
    if n == 0 {
      NothingYet(cfg, st, e);
    } else {
      RejectionsAreTrue(cfg, st, e, n - 1);
      var p, q := SoFar(cfg, st, e, n - 1), SoFar(cfg, st, e, n);
      if p.raised == NotRaised {
        EveryCandidateHasItsFate(cfg, st, e, n - 1);
      } else {
        assert Front(cs[..n]) == cs[..n - 1];
      }
      forall x | x in q.report.rejections ensures Explained(cfg, st, e, x, n) {
        if x in p.report.rejections { assert Explained(cfg, st, e, x, n - 1); }
      }
    }
  }

  lemma NothingYet(cfg: Config, st: State, e: Event)
    requires e.Scan?
    ensures SoFar(cfg, st, e, 0) == Progress(Opened(st, e.now, e.acct), Report(|e.signals|, 0, 0, []), NotRaised)
  {
  }

  // ------------------------------------------------------------------ whole runs

  /** The event is a cycle in which neither news nor compliance stood against the order's signal. */
  ghost predicate Allows(e: Event, o: Order) {
    && e.Scan? && o.signal in e.signals && o.signal.grade != C && o.day == IstDay(e.now)
    && !e.w.news(o.signal.symbol) && e.w.comply(o.signal).None? && e.w.place(o.signal)
  }

  lemma {:induction false} NewOrdersAreAllowed(cfg: Config, p: Progress, cs: seq<Signal>, e: Event)
    requires e.Scan? && forall c :: c in cs ==> c in e.signals && c.grade != C
    ensures forall o :: o in AdmitAll(cfg, p, cs, e.now, e.acct, e.w).st.orders ==> o in p.st.orders || Allows(e, o)
  {
    hide CalcTradeRisk, EntersAtMarket, Updated;
    if cs != [] {
      assert cs == Front(cs) + [Last(cs)];
      NewOrdersAreAllowed(cfg, p, Front(cs), e);
    }
  }

  lemma CycleOrdersAreAllowed(cfg: Config, st: State, e: Event)
    requires e.Scan?
    ensures forall o :: o in Cycle(cfg, st, e.signals, e.now, e.acct, e.w).st.orders ==> o in st.orders || Allows(e, o)
  {
    hide AdmitAll, RejectAll, BestPerSymbol, Halted, Allows;
    var start := Progress(Opened(st, e.now, e.acct), Report(|e.signals|, 0, 0, []), NotRaised);
    BestPerSymbolIsBest(e.signals);
    NewOrdersAreAllowed(cfg, start, BestPerSymbol(e.signals), e);
    RejectingChangesNoState(start, BestPerSymbol(e.signals), TotalDrawdown);
  }

  /** Every order of every run belongs to a cycle that saw its signal, with no news and no veto against it. */
  lemma {:induction false} EveryOrderIsAllowed(cfg: Config, daily: DailyState, events: seq<Event>, o: Order)
    requires o in After(cfg, daily, events).orders
    ensures exists e :: e in events && Allows(e, o)
  {
    hide Cycle, Updated, Allows;
    var before, e := Front(events), Last(events);
    assert events == before + [e];
    if o in After(cfg, daily, before).orders {
      EveryOrderIsAllowed(cfg, daily, before, o);
      var x :| x in before && Allows(x, o);
      assert x in events;
    } else {
      CycleOrdersAreAllowed(cfg, After(cfg, daily, before), e);
      assert e in events;
    }
  }
}
