/**
 * What the event-driven backtest may know: the detectors see the hourly bars that opened before the event and the
 * 15-minute bars up to it, and two runs that have seen the same are in the same state.
 */
module MultiSetupCausality {
  import opened Clock
  import opened Common
  import opened Market
  import opened MultiSetupBacktest
  import opened MultiSetupLedger
  import opened MultiSetupLimits
  import opened MultiSetupTrade
  import opened RejectionCandle

  // ------------------------------------------------------------------ what is visible

  /** The leading bars that open before this time. */
  function OpenedBefore(bars: seq<Bar>, time: int): seq<Bar> {
    if bars == [] || bars[0].time >= time then [] else [bars[0]] + OpenedBefore(bars[1..], time)
  }

  function LastBars(bars: seq<Bar>, n: nat): seq<Bar> {
    if |bars| <= n then bars else bars[|bars| - n..]
  }

  /** On bars in time order those are all bars that open before it. */
  lemma {:induction false} OpenedBeforeIsAll(bars: seq<Bar>, time: int, j: nat)
    requires forall i, k :: 0 <= i < k < |bars| ==> bars[i].time <= bars[k].time
    requires j < |bars|
    ensures |OpenedBefore(bars, time)| <= |bars| && OpenedBefore(bars, time) == bars[..|OpenedBefore(bars, time)|]
    ensures j < |OpenedBefore(bars, time)| <==> bars[j].time < time
  {
    OpenedBeforeIsPrefix(bars, time);
    if bars[0].time < time && j > 0 { OpenedBeforeIsAll(bars[1..], time, j - 1); }
  }

  lemma {:induction false} OpenedBeforeIsPrefix(bars: seq<Bar>, time: int)
    ensures var n := |OpenedBefore(bars, time)|;
      && n <= |bars| && OpenedBefore(bars, time) == bars[..n]
      && (forall j :: 0 <= j < n ==> bars[j].time < time) && (n < |bars| ==> bars[n].time >= time)
  {
    if bars != [] && bars[0].time < time {
      OpenedBeforeIsPrefix(bars[1..], time);
      var n := |OpenedBefore(bars, time)|;
      assert bars[..n] == [bars[0]] + bars[1..][..n - 1];
      forall j | 0 <= j < n ensures bars[j].time < time {
        if j > 0 { assert bars[j] == bars[1..][j - 1]; }
      }
    }
  }

  /** The cursor stands on the last of them. */
  lemma CursorIsLastVisible(htf: seq<Bar>, time: int)
    ensures Advanced(htf, -1, time) + 1 == |OpenedBefore(htf, time)| <= |htf|
    ensures OpenedBefore(htf, time) == htf[..|OpenedBefore(htf, time)|]
  {
    hide OpenedBefore;
    AdvancedIsLongestPrefix(htf, -1, time);
    OpenedBeforeIsPrefix(htf, time);
  }

  /** What the detectors answer to the bars that are visible at the event. */
  function Answer(inp: Input, e: Event): Option<Signal>
    requires e.symbol in inp.ltf && e.k < |inp.ltf[e.symbol]| && e.symbol in inp.htf
  {
    inp.w.best(e.symbol, e.time, LastBars(OpenedBefore(inp.htf[e.symbol], e.time), 260),
               LastBars(inp.ltf[e.symbol][..e.k + 1], 80))
  }

  lemma CandidateIsAnswer(inp: Input, e: Event, cursor: int)
    requires e.symbol in inp.ltf && e.k < |inp.ltf[e.symbol]| && e.symbol in inp.htf
    requires 0 <= cursor == Advanced(inp.htf[e.symbol], -1, e.time)
    ensures cursor < |inp.htf[e.symbol]| && Candidate(inp, e, cursor) == Answer(inp, e)
  {
    hide OpenedBefore, Advanced;
    var htf, ltf := inp.htf[e.symbol], inp.ltf[e.symbol];
    CursorIsLastVisible(htf, e.time);
    assert htf[MaxInt(0, cursor - HTF_WINDOW + 1)..cursor + 1] == LastBars(OpenedBefore(htf, e.time), HTF_WINDOW);
    assert ltf[MaxInt(0, e.k - LTF_WINDOW + 1)..e.k + 1] == LastBars(ltf[..e.k + 1], LTF_WINDOW);
  }

  // ------------------------------------------------------------------ when a trade opens

  /** No halt, no cap and no blackout stands in the way, and the bar is a rejection candle. */
  predicate MayOpen(inp: Input, s: State, e: Event)
    requires e.symbol in inp.ltf && e.k < |inp.ltf[e.symbol]|
  {
    var day := DateKey(e.time);
    && !s.halted && |s.open| < 2 && day in s.dayStart && (day in s.dayCount ==> s.dayCount[day] < 2)
    && s.dayStart[day] != 0.0 && (s.dayStart[day] - s.book.balance) / s.dayStart[day] * 100.0 < 5.0
    && s.book.peak != 0.0 && (s.book.peak - s.book.balance) / s.book.peak * 100.0 < 10.0
    && IsCandidate(inp.ltf[e.symbol], e.k) && !inp.w.blackout(e.symbol, e.time)
  }

  /** The trade the detectors' answer makes, given more than a quarter of the hourly window and a spread in the cap. */
  function Offered(inp: Input, s: State, e: Event): Option<Trade>
    requires e.symbol in inp.ltf && e.k < |inp.ltf[e.symbol]| && e.symbol in inp.htf
  {
    var pair, bar, answer := inp.w.pair(e.symbol), inp.ltf[e.symbol][e.k], Answer(inp, e);
    if |OpenedBefore(inp.htf[e.symbol], e.time)| <= 65 || answer.None? || bar.spread / 10.0 > pair.maxSpread then None
    else Opened(answer.value, e.symbol, e.k, e.time, pair, s.book.balance, inp.w.pipValue(e.symbol, s.prices))
  }

  lemma NewTradeIsOffered(inp: Input, s: State, e: Event)
    requires e.symbol in inp.ltf && e.k < |inp.ltf[e.symbol]| && e.symbol in inp.htf
    ensures var cursor := Advanced(inp.htf[e.symbol], -1, e.time);
      NewTrade(inp, s.book.balance, s.prices, e, cursor) == Offered(inp, s, e)
  {
    hide OpenedBefore, Advanced, Opened, Candidate, Answer;
    CursorIsLastVisible(inp.htf[e.symbol], e.time);
    var cursor := Advanced(inp.htf[e.symbol], -1, e.time);
    if cursor >= 0 { CandidateIsAnswer(inp, e, cursor); }
  }

  lemma EntryIsOffered(inp: Input, s: State, e: Event)
    requires e.symbol in inp.ltf && e.k < |inp.ltf[e.symbol]|
    requires e.symbol in inp.htf && -1 <= CursorOf(s, e.symbol) < |inp.htf[e.symbol]|
    requires Advanced(inp.htf[e.symbol], CursorOf(s, e.symbol), e.time) == Advanced(inp.htf[e.symbol], -1, e.time)
    ensures var r, offer := Entered(inp, s, e), Offered(inp, s, e);
      if offer.Some? then r.open == s.open + [offer.value] && r.tickets == s.tickets + [TicketOf(offer.value)]
      else r.open == s.open && r.tickets == s.tickets
  {
    hide NewTrade, Advanced, DateKey, Offered;
    NewTradeIsOffered(inp, s, e);
  }

  lemma DecisionOpens(inp: Input, s: State, e: Event)
    requires e.symbol in inp.ltf && e.k < |inp.ltf[e.symbol]| && DateKey(e.time) in s.dayStart
    requires e.symbol in inp.htf && -1 <= CursorOf(s, e.symbol) < |inp.htf[e.symbol]|
    requires Advanced(inp.htf[e.symbol], CursorOf(s, e.symbol), e.time) == Advanced(inp.htf[e.symbol], -1, e.time)
    ensures var r, offer := Decided(inp, s, e), Offered(inp, s, e);
      if MayOpen(inp, s, e) && offer.Some? then r.open == s.open + [offer.value]
      else r.open == s.open && r.tickets == s.tickets
  {
    hide Entered, Advanced, DateKey, Offered, Logged, IsCandidate, CursorOf;
    EntryIsOffered(inp, s, e);
  }

  /**
   * An event opens a trade exactly when nothing stands in the way and the detectors answer to what is visible: the last
   * bars of the hourly series that opened before the event, and the last 15-minute bars up to it. It opens that trade.
   */
  lemma OpensExactly(inp: Input, n: nat)
    requires Proper(inp) && n < |inp.events| && !After(inp, n).failed
    ensures var e := inp.events[n]; e.symbol in inp.ltf && e.k < |inp.ltf[e.symbol]| && e.symbol in inp.htf
    ensures var e := inp.events[n];
      var s, r := Ready(inp, After(inp, n), e), After(inp, n + 1);
      var offer := Offered(inp, s, e);
      if MayOpen(inp, s, e) && offer.Some? then r.open == s.open + [offer.value]
      else r.open == s.open && r.tickets == s.tickets
  {
    hide Decided, Advanced, Offered, MayOpen, Walked, DayOpened, CursorsFit;
    var st, e := After(inp, n), inp.events[n];
    assert e in inp.events;
    LazyCursorIsExact(inp, n);
    var s := Ready(inp, st, e);
    ReadyShape(inp, st, e);
    DecisionOpens(inp, s, e);
    StepDecides(inp, st, e);
  }

  lemma StepDecides(inp: Input, st: State, e: Event)
    requires e.symbol in inp.ltf && e.k < |inp.ltf[e.symbol]| && e.symbol in inp.htf && CursorsFit(inp, st)
    requires !st.failed
    ensures var s := Ready(inp, st, e);
      && DateKey(e.time) in s.dayStart && -1 <= CursorOf(s, e.symbol) < |inp.htf[e.symbol]|
      && Step(inp, st, e) == Decided(inp, s, e)
  {
    hide Decided, Walked, DateKey;
    StepKeepsCursorsFit(inp, st, e);
    ReadyShape(inp, st, e);
  }

  // ------------------------------------------------------------------ two runs

  /**
   * The same bars have been seen: the pair's own up to that of the event, and the hourly ones that opened before it.
   */
  ghost predicate SameBars(inp: Input, other: Input, e: Event) {
    && e.symbol in inp.ltf && e.symbol in other.ltf
    && e.k < |inp.ltf[e.symbol]| && e.k < |other.ltf[e.symbol]|
    && other.ltf[e.symbol][..e.k + 1] == inp.ltf[e.symbol][..e.k + 1]
    && e.symbol in inp.htf && e.symbol in other.htf
    && OpenedBefore(other.htf[e.symbol], e.time) == OpenedBefore(inp.htf[e.symbol], e.time)
  }

  /** The other run has seen the same when it has had `h` events. */
  ghost predicate SharesFirst(inp: Input, other: Input, h: nat) {
    && other.w == inp.w
    && h <= |inp.events| && h <= |other.events| && other.events[..h] == inp.events[..h]
    && forall i :: 0 <= i < h ==> SameBars(inp, other, inp.events[i])
  }

  /** What a step asks of the data. */
  lemma SameView(inp: Input, other: Input, e: Event)
    requires other.w == inp.w && SameBars(inp, other, e)
    ensures e.symbol in inp.ltf && e.symbol in other.ltf && e.symbol in inp.htf && e.symbol in other.htf
    ensures e.k < |inp.ltf[e.symbol]| && e.k < |other.ltf[e.symbol]|
    ensures other.ltf[e.symbol][e.k] == inp.ltf[e.symbol][e.k]
    ensures IsCandidate(other.ltf[e.symbol], e.k) == IsCandidate(inp.ltf[e.symbol], e.k)
    ensures Advanced(other.htf[e.symbol], -1, e.time) == Advanced(inp.htf[e.symbol], -1, e.time)
    ensures Answer(other, e) == Answer(inp, e)
  {
    hide IsCandidate, OpenedBefore, Advanced;
    var bars, more := inp.ltf[e.symbol], other.ltf[e.symbol];
    CandidateLooksBack(bars, more, e.k);
    assert more[e.k] == more[..e.k + 1][e.k] && bars[e.k] == bars[..e.k + 1][e.k];
    CursorIsLastVisible(inp.htf[e.symbol], e.time);
    CursorIsLastVisible(other.htf[e.symbol], e.time);
  }

  /** The cursor stands where a search from the start would put it, in both series. */
  ghost predicate CursorsExact(inp: Input, other: Input, s: State, e: Event)
    requires e.symbol in inp.htf && e.symbol in other.htf
  {
    && -1 <= CursorOf(s, e.symbol) < |inp.htf[e.symbol]| && CursorOf(s, e.symbol) < |other.htf[e.symbol]|
    && Advanced(inp.htf[e.symbol], CursorOf(s, e.symbol), e.time) == Advanced(inp.htf[e.symbol], -1, e.time)
    && Advanced(other.htf[e.symbol], CursorOf(s, e.symbol), e.time) == Advanced(other.htf[e.symbol], -1, e.time)
  }

  lemma SameEntry(inp: Input, other: Input, s: State, e: Event)
    requires other.w == inp.w && SameBars(inp, other, e) && CursorsExact(inp, other, s, e)
    ensures Entered(other, s, e) == Entered(inp, s, e)
  {
    hide Opened, Advanced, DateKey, NewTrade, Answer, OpenedBefore, IsCandidate, CursorOf;
    SameView(inp, other, e);
    NewTradeIsOffered(inp, s, e);
    NewTradeIsOffered(other, s, e);
    assert Offered(other, s, e) == Offered(inp, s, e);
  }

  lemma SameDecision(inp: Input, other: Input, s: State, e: Event)
    requires other.w == inp.w && SameBars(inp, other, e) && CursorsExact(inp, other, s, e)
    requires DateKey(e.time) in s.dayStart
    ensures Decided(other, s, e) == Decided(inp, s, e)
  {
    hide Entered, Advanced, DateKey, Answer, OpenedBefore, IsCandidate, CursorOf, LossPct, Logged;
    SameView(inp, other, e);
    SameEntry(inp, other, s, e);
  }

  lemma SameStep(inp: Input, other: Input, st: State, e: Event)
    requires other.w == inp.w && SameBars(inp, other, e) && CursorsExact(inp, other, st, e) && !st.failed
    requires CursorsFit(inp, st) && CursorsFit(other, st)
    ensures Step(other, st, e) == Step(inp, st, e)
  {
    hide Decided, WalkAll, DateKey, Answer, OpenedBefore, IsCandidate, CursorsFit, Advanced;
    SameView(inp, other, e);
    StepDecides(inp, st, e);
    StepDecides(other, st, e);
    var s := Ready(inp, st, e);
    ReadyShape(inp, st, e);
    assert Ready(other, st, e) == s;
    SameDecision(inp, other, s, e);
  }

  /**
   * The run is causal: two runs that have had the same events, and seen the same bars at them, are in the same state,
   * whatever 15-minute and hourly bars their data hold beyond that.
   */
  lemma {:induction false} SameBeginning(inp: Input, other: Input, h: nat, n: nat)
    requires Proper(inp) && Proper(other) && SharesFirst(inp, other, h) && 0 < h && n <= h
    ensures After(other, n) == After(inp, n)
  {
    hide Step, CursorsFit, SameBars;
    assert inp.events[0] == inp.events[..h][0] && other.events[0] == other.events[..h][0];
    if n > 0 {
      SameBeginning(inp, other, h, n - 1);
      var e := inp.events[n - 1];
      assert e == inp.events[..h][n - 1] == other.events[..h][n - 1] == other.events[n - 1];
      assert e in inp.events && e in other.events;
      if After(inp, n - 1).failed {
        FailureIsFinal(inp, n - 1, n);
        FailureIsFinal(other, n - 1, n);
      } else {
        LazyCursorIsExact(inp, n - 1);
        LazyCursorIsExact(other, n - 1);
        SameStep(inp, other, After(inp, n - 1), e);
      }
    }
  }
}
