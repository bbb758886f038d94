/** The per-day ledger that rolls at midnight India time (monitoring/daily_tracker.py). */
module DailyTracker {
  import opened Clock
  import opened Common

  const IST_OFFSET_MS := 19_800_000

  /** The India-time calendar day of a UTC timestamp, as a day number. */
  function IstDay(now: int): int {
    (now + IST_OFFSET_MS) / DAY_MS
  }

  lemma IstDayIsMonotone(a: int, b: int)
    requires a <= b
    ensures IstDay(a) <= IstDay(b)
  {
  }

  datatype DailyState = DailyState(
    tradeDay: int, peakEquity: real, closedPnl: real, floatingPnl: real, tradeCount: nat, maxDd: real, lastUpdate: int)

  function Empty(day: int, equity: real, now: int): DailyState {
    DailyState(day, equity, 0.0, 0.0, 0, 0.0, now)
  }

  /** A new day starts from the last equity estimate; every counter restarts. */
  function Rolled(s: DailyState, now: int): DailyState {
    if IstDay(now) == s.tradeDay then s
    else Empty(IstDay(now), s.peakEquity - s.maxDd + s.closedPnl + s.floatingPnl, now)
  }

  datatype Update = Equity(equity: real) | TradeOpened | TradeClosed(pnl: real) | Floating(floating: real)

  function Updated(s: DailyState, u: Update, now: int): DailyState {
    var r := Rolled(s, now);
    match u
    case Equity(e) =>
      var peak := Max(r.peakEquity, e);
      r.(peakEquity := peak, maxDd := Max(r.maxDd, Max(0.0, peak - e)), lastUpdate := now)
    case TradeOpened => r.(tradeCount := r.tradeCount + 1, lastUpdate := now)
    case TradeClosed(pnl) => r.(closedPnl := r.closedPnl + pnl, lastUpdate := now)
    case Floating(f) => r.(floatingPnl := f, lastUpdate := now)
  }

  class Tracker {
    var state: DailyState

    constructor (startingEquity: real, now: int)
      ensures state == Empty(IstDay(now), startingEquity, now)
    {
      state := Empty(IstDay(now), startingEquity, now);
    }

    method RollIfNewDay(now: int)
      modifies this
      ensures state == Rolled(old(state), now)
    {
      var today := IstDay(now);
      if today == state.tradeDay { return; }
      var priorPeak := state.peakEquity - state.maxDd + state.closedPnl + state.floatingPnl;
      state := Empty(today, priorPeak, now);
    }

    method UpdateEquity(equity: real, now: int)
      modifies this
      ensures state == Updated(old(state), Equity(equity), now)
    {
      RollIfNewDay(now);
      var newPeak := Max(state.peakEquity, equity);
      var dd := Max(0.0, newPeak - equity);
      state := state.(peakEquity := newPeak, maxDd := Max(state.maxDd, dd), lastUpdate := now);
    }

    method RecordTradeOpen(now: int)
      modifies this
      ensures state == Updated(old(state), TradeOpened, now)
    {
      RollIfNewDay(now);
      state := state.(tradeCount := state.tradeCount + 1, lastUpdate := now);
    }

    method RecordTradeClosed(pnl: real, now: int)
      modifies this
      ensures state == Updated(old(state), TradeClosed(pnl), now)
    {
      RollIfNewDay(now);
      state := state.(closedPnl := state.closedPnl + pnl, lastUpdate := now);
    }

    method SetFloatingPnl(floating: real, now: int)
      modifies this
      ensures state == Updated(old(state), Floating(floating), now)
    {
      RollIfNewDay(now);
      state := state.(floatingPnl := floating, lastUpdate := now);
    }
  }

  // ------------------------------------------------------------------ a day of equity observations

  function AfterUpdates(s: DailyState, updates: seq<(Update, int)>): DailyState {
    if updates == [] then s
    else Updated(AfterUpdates(s, Front(updates)), Last(updates).0, Last(updates).1)
  }

  /** The equities observed in a run of updates. */
  function Observed(updates: seq<(Update, int)>): seq<real> {
    if updates == [] then []
    else Observed(Front(updates)) + if Last(updates).0.Equity? then [Last(updates).0.equity] else []
  }

  /** `dd` is the largest fall from an earlier (or the starting) equity to a later one. */
  ghost predicate IsMaxDrawdown(start: real, xs: seq<real>, dd: real) {
    var all := [start] + xs;
    && (forall i, j :: 0 <= i <= j < |all| ==> all[i] - all[j] <= dd)
    && exists i, j :: 0 <= i <= j < |all| && all[i] - all[j] == dd
  }

  ghost predicate IsPeak(start: real, xs: seq<real>, peak: real) {
    var all := [start] + xs;
    && (forall i :: 0 <= i < |all| ==> all[i] <= peak)
    && exists i :: 0 <= i < |all| && all[i] == peak
  }

  lemma ObserveOne(start: real, xs: seq<real>, peak: real, dd: real, e: real)
    requires IsPeak(start, xs, peak) && IsMaxDrawdown(start, xs, dd)
    ensures IsPeak(start, xs + [e], Max(peak, e))
    ensures IsMaxDrawdown(start, xs + [e], Max(dd, Max(0.0, Max(peak, e) - e)))
  {
    ObservePeak(start, xs, peak, e);
    ObserveFall(start, xs, peak, dd, e);
  }

  lemma ObservePeak(start: real, xs: seq<real>, peak: real, e: real)
    requires IsPeak(start, xs, peak)
    ensures IsPeak(start, xs + [e], Max(peak, e))
  {
    var all, more := [start] + xs, [start] + (xs + [e]);
    assert more == all + [e];
    var p :| 0 <= p < |all| && all[p] == peak;
    assert more[p] == peak && more[|all|] == e;
  }

  lemma ObserveFall(start: real, xs: seq<real>, peak: real, dd: real, e: real)
    requires IsPeak(start, xs, peak) && IsMaxDrawdown(start, xs, dd)
    ensures IsMaxDrawdown(start, xs + [e], Max(dd, Max(0.0, Max(peak, e) - e)))
  {
    var all, more := [start] + xs, [start] + (xs + [e]);
    assert more == all + [e];
    var n := |all|;
    var i, j :| 0 <= i <= j < n && all[i] - all[j] == dd;
    assert more[i] - more[j] == dd;
    assert dd >= 0.0 by { assert all[0] - all[0] <= dd; }
    forall a, b | 0 <= a <= b < |more|
      ensures more[a] - more[b] <= Max(dd, Max(0.0, Max(peak, e) - e))
    {
      if b < n { assert more[a] == all[a] && more[b] == all[b]; } else if a < n { assert more[a] == all[a]; }
    }
    if Max(peak, e) - e > dd {
      var p :| 0 <= p < n && all[p] == peak;
      assert more[p] - more[n] == Max(peak, e) - e;
    }
  }

  /** Within one day the peak and drawdown fields are the peak and maximum drawdown of the equities observed. */
  lemma {:induction false} DayIsSummarised(s: DailyState, updates: seq<(Update, int)>)
    requires s.closedPnl == 0.0 && s.floatingPnl == 0.0 && s.tradeCount == 0 && s.maxDd == 0.0
    requires forall i :: 0 <= i < |updates| ==> IstDay(updates[i].1) == s.tradeDay
    ensures var r := AfterUpdates(s, updates);
      && r.tradeDay == s.tradeDay
      && IsPeak(s.peakEquity, Observed(updates), r.peakEquity)
      && IsMaxDrawdown(s.peakEquity, Observed(updates), r.maxDd)
  {
    if updates == [] {
      assert ([s.peakEquity] + [])[0] == s.peakEquity;
    } else {
      DayIsSummarised(s, Front(updates));
      var r := AfterUpdates(s, Front(updates));
      match Last(updates).0 {
        case Equity(e) => ObserveOne(s.peakEquity, Observed(Front(updates)), r.peakEquity, r.maxDd, e);
        case TradeOpened => assert Observed(updates) == Observed(Front(updates));
        case TradeClosed(_) => assert Observed(updates) == Observed(Front(updates));
        case Floating(_) => assert Observed(updates) == Observed(Front(updates));
      }
    }
  }

  // ------------------------------------------------------------------ every day

  /** The India-time day, five and a half hours ahead of UTC. */
  function IndiaDay(now: int): int {
    (now + 330 * 60_000) / 86_400_000
  }

  function OpenedIn(updates: seq<(Update, int)>): nat {
    if updates == [] then 0 else OpenedIn(Front(updates)) + if Last(updates).0.TradeOpened? then 1 else 0
  }

  function ClosedIn(updates: seq<(Update, int)>): real {
    if updates == [] then 0.0
    else ClosedIn(Front(updates)) + if Last(updates).0.TradeClosed? then Last(updates).0.pnl else 0.0
  }

  /** The floating P&L set last, or nothing. */
  function FloatingIn(updates: seq<(Update, int)>): real {
    if updates == [] then 0.0
    else if Last(updates).0.Floating? then Last(updates).0.floating
    else FloatingIn(Front(updates))
  }

  /** The day before an update that comes after these. */
  function DayBefore(s: DailyState, updates: seq<(Update, int)>): int {
    if updates == [] then s.tradeDay else IndiaDay(Last(updates).1)
  }

  /** Which of the updates is the first of the last day. */
  function DayBegins(s: DailyState, updates: seq<(Update, int)>): (b: nat)
    ensures b <= |updates|
  {
    if updates == [] then 0
    else if IndiaDay(Last(updates).1) == DayBefore(s, Front(updates)) then DayBegins(s, Front(updates))
    else |updates| - 1
  }

  /** The equity the last day started from: the first day's own, or the estimate the day before ended with. */
  function StartOfDay(s: DailyState, updates: seq<(Update, int)>): real {
    if updates == [] then s.peakEquity
    else if IndiaDay(Last(updates).1) == DayBefore(s, Front(updates)) then StartOfDay(s, Front(updates))
    else
      var r := AfterUpdates(s, Front(updates));
      r.peakEquity - r.maxDd + r.closedPnl + r.floatingPnl
  }

  /** What a state says of the updates of its day. */
  ghost predicate Summarises(r: DailyState, start: real, today: seq<(Update, int)>) {
    && r.tradeCount == OpenedIn(today) && r.closedPnl == ClosedIn(today) && r.floatingPnl == FloatingIn(today)
    && IsPeak(start, Observed(today), r.peakEquity) && IsMaxDrawdown(start, Observed(today), r.maxDd)
  }

  lemma NothingSummarised(day: int, start: real, now: int)
    ensures Summarises(Empty(day, start, now), start, [])
  {
    assert ([start] + [])[0] == start;
  }

  lemma OneMoreSummarised(r: DailyState, start: real, today: seq<(Update, int)>, u: (Update, int))
    requires Summarises(r, start, today) && IstDay(u.1) == r.tradeDay
    ensures Summarises(Updated(r, u.0, u.1), start, today + [u])
  {
    hide IsPeak, IsMaxDrawdown;
    assert Front(today + [u]) == today;
    match u.0 {
      case Equity(e) => ObserveOne(start, Observed(today), r.peakEquity, r.maxDd, e);
      case TradeOpened => assert Observed(today + [u]) == Observed(today);
      case TradeClosed(_) => assert Observed(today + [u]) == Observed(today);
      case Floating(_) => assert Observed(today + [u]) == Observed(today);
    }
  }

  lemma RolledFirst(s: DailyState, u: Update, now: int)
    ensures Updated(s, u, now) == Updated(Rolled(s, now), u, now)
  {
  }

  /**
   * After any updates the tracker tells of the last India-time day: its trades, its closed and floating P&L, and the
   * peak and largest fall of its equities, from the equity the day before ended with.
   */
  lemma {:induction false} EveryDayIsSummarised(day: int, equity: real, now: int, updates: seq<(Update, int)>)
    ensures var s := Empty(day, equity, now);
      var r, b := AfterUpdates(s, updates), DayBegins(s, updates);
      r.tradeDay == DayBefore(s, updates) && Summarises(r, StartOfDay(s, updates), updates[b..])
  {
    hide Summarises, Updated;
    var s := Empty(day, equity, now);
    if updates == [] {
      NothingSummarised(day, equity, now);
    } else {
      var front, u := Front(updates), Last(updates);
      EveryDayIsSummarised(day, equity, now, front);
      var r, b := AfterUpdates(s, front), DayBegins(s, updates);
      assert IstDay(u.1) == IndiaDay(u.1);
      RolledFirst(r, u.0, u.1);
      if IndiaDay(u.1) == DayBefore(s, front) {
        OneMoreSummarised(r, StartOfDay(s, updates), front[b..], u);
        assert updates[b..] == front[b..] + [u];
      } else {
        NothingSummarised(IstDay(u.1), StartOfDay(s, updates), u.1);
        OneMoreSummarised(Rolled(r, u.1), StartOfDay(s, updates), [], u);
        assert updates[b..] == [] + [u];
      }
      UpdateKeepsDay(r, u.0, u.1);
    }
  }

  lemma UpdateKeepsDay(s: DailyState, u: Update, now: int)
    ensures Updated(s, u, now).tradeDay == IstDay(now)
  {
  }
}
