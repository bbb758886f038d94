/**
 * Fractal swings: the batch finder `find_swings` (strategy/patterns/_multi_setup_common.py) and the streaming
 * `SwingTracker` (strategy/swing_tracker.py) that keeps only three bars per pair.
 */
module SwingTracker {
  import opened Common
  import opened Market

  datatype Kind = High | Low

  datatype Swing = Swing(index: nat, time: int, price: real, kind: Kind)

  function PriceOf(kind: Kind, b: Bar): real {
    if kind.High? then b.high else b.low
  }

  /** `b` is strictly more extreme than `c`. */
  predicate Beats(kind: Kind, b: Bar, c: Bar) {
    if kind.High? then b.high > c.high else b.low < c.low
  }

  /** Bar `i` strictly beats the bars `k` places to its left and right. */
  predicate BeatsAt(bars: seq<Bar>, i: nat, k: nat, kind: Kind)
    requires k <= i && i + k < |bars|
  {
    Beats(kind, bars[i], bars[i - k]) && Beats(kind, bars[i], bars[i + k])
  }

  /** Bar `i` strictly beats its `l` neighbours on each side, all of which exist. */
  predicate IsSwing(bars: seq<Bar>, i: nat, l: nat, kind: Kind) {
    && l <= i < |bars| - l
    && forall k :: 1 <= k <= l ==> BeatsAt(bars, i, k, kind)
  }

  function SwingAt(bars: seq<Bar>, i: nat, l: nat, kind: Kind): seq<Swing>
    requires i < |bars|
  {
    if IsSwing(bars, i, l, kind) then [Swing(i, bars[i].time, PriceOf(kind, bars[i]), kind)] else []
  }

  /** All swings at the first `n` bars, by index, a high before a low. */
  function SwingsBefore(bars: seq<Bar>, l: nat, n: nat): seq<Swing>
    requires n <= |bars|
  {
    if n == 0 then []
    else SwingsBefore(bars, l, n - 1) + SwingAt(bars, n - 1, l, High) + SwingAt(bars, n - 1, l, Low)
  }

  function Swings(bars: seq<Bar>, l: nat): seq<Swing> {
    SwingsBefore(bars, l, |bars|)
  }

  /** The order `find_swings` sorts by. */
  predicate InOrder(a: Swing, b: Swing) {
    a.index < b.index || (a.index == b.index && a.kind.High? && b.kind.Low?)
  }

  /** The finder reports exactly the fractals, both directions. */
  lemma {:induction false} SwingsAreExactlyTheFractals(bars: seq<Bar>, l: nat, n: nat)
    requires n <= |bars|
    ensures forall s :: s in SwingsBefore(bars, l, n) <==>
      s.index < n && IsSwing(bars, s.index, l, s.kind)
      && s == Swing(s.index, bars[s.index].time, PriceOf(s.kind, bars[s.index]), s.kind)
  {
    if n > 0 { SwingsAreExactlyTheFractals(bars, l, n - 1); }
  }

  /** It reports them in strictly increasing order. */
  lemma {:induction false} SwingsAreInOrder(bars: seq<Bar>, l: nat, n: nat, i: nat, j: nat)
    requires n <= |bars| && i < j < |SwingsBefore(bars, l, n)|
    ensures InOrder(SwingsBefore(bars, l, n)[i], SwingsBefore(bars, l, n)[j])
  {
    var before := SwingsBefore(bars, l, n - 1);
    var h, low := SwingAt(bars, n - 1, l, High), SwingAt(bars, n - 1, l, Low);
    var out := before + h + low;
    if j < |before| {
      SwingsAreInOrder(bars, l, n - 1, i, j);
    } else if i < |before| {
      assert out[i] in before;
      SwingsAreExactlyTheFractals(bars, l, n - 1);
      assert out[j] == if j - |before| < |h| then h[j - |before|] else low[j - |before| - |h|];
    } else {
      assert out[i] == h[0] && out[j] == low[0];
    }
  }

  lemma {:induction false} NoSwingsAtTheEdges(bars: seq<Bar>, l: nat, n: nat, m: nat)
    requires n <= m <= |bars|
    requires m <= l || |bars| - l <= n || |bars| <= 2 * l
    ensures SwingsBefore(bars, l, m) == SwingsBefore(bars, l, n)
  {
    if n < m { NoSwingsAtTheEdges(bars, l, n, m - 1); }
  }

  /** The inner loop of the batch finder: both tests at once, leaving early when both have failed. */
  method CheckSides(bars: seq<Bar>, i: nat, lSwing: nat) returns (isHigh: bool, isLow: bool)
    requires 1 <= lSwing <= i < |bars| - lSwing
    ensures isHigh <==> IsSwing(bars, i, lSwing, High)
    ensures isLow <==> IsSwing(bars, i, lSwing, Low)
  {
    var b := bars[i];
    isHigh, isLow := true, true;
    for k := 1 to lSwing + 1
      invariant isHigh <==> forall j :: 1 <= j < k ==> BeatsAt(bars, i, j, High)
      invariant isLow <==> forall j :: 1 <= j < k ==> BeatsAt(bars, i, j, Low)
    {
      assert BeatsAt(bars, i, k, High) <==> b.high > bars[i - k].high && b.high > bars[i + k].high;
      assert BeatsAt(bars, i, k, Low) <==> b.low < bars[i - k].low && b.low < bars[i + k].low;
      if !(b.high > bars[i - k].high && b.high > bars[i + k].high) { isHigh := false; }
      if !(b.low < bars[i - k].low && b.low < bars[i + k].low) { isLow := false; }
      if !isHigh && !isLow { return; }
    }
  }

  /**
   * The batch finder. Its final sort leaves the list as it is: by SwingsAreInOrder the swings are already
   * in strictly increasing order.
   * The result is an error for a lookback below one, as in the original.
   */
  method FindSwings(bars: seq<Bar>, lSwing: int) returns (r: Result<seq<Swing>, string>)
    ensures r.Err? <==> lSwing < 1
    ensures r.Ok? ==> r.value == Swings(bars, lSwing)
  {
    if lSwing < 1 { return Err("l_swing must be >= 1"); }
    var n := |bars|;
    var out := [];
    var i := lSwing;
    if i <= n { NoSwingsAtTheEdges(bars, lSwing, 0, i); }
    while i < n - lSwing
      invariant lSwing <= i
      invariant lSwing < n - lSwing ==> i <= n - lSwing && out == SwingsBefore(bars, lSwing, i)
      invariant !(lSwing < n - lSwing) ==> out == []
    {
      var b := bars[i];
      var isHigh, isLow := CheckSides(bars, i, lSwing);
      if isHigh { out := out + [Swing(i, b.time, b.high, High)]; }
      if isLow { out := out + [Swing(i, b.time, b.low, Low)]; }
      i := i + 1;
    }
    if lSwing < n - lSwing {
      NoSwingsAtTheEdges(bars, lSwing, n - lSwing, n);
    } else {
      NoSwingsAtTheEdges(bars, lSwing, 0, n);
    }
    r := Ok(out);
  }

  // ------------------------------------------------------------------ the streaming tracker

  function Prices(swings: seq<Swing>, kind: Kind): seq<real> {
    if swings == [] then []
    else Prices(Front(swings), kind) + if Last(swings).kind == kind then [Last(swings).price] else []
  }

  lemma {:induction false} PricesConcat(a: seq<Swing>, b: seq<Swing>, kind: Kind)
    ensures Prices(a + b, kind) == Prices(a, kind) + Prices(b, kind)
  {
    if b == [] {
      assert a + b == a;
    } else {
      assert Front(a + b) == a + Front(b);
      PricesConcat(a, Front(b), kind);
    }
  }

  /** What the tracker keeps for one pair: the last three bars and the confirmed swing prices. */
  datatype PairState = PairState(bars: seq<Bar>, highs: seq<real>, lows: seq<real>)

  const NO_BARS := PairState([], [], [])

  /** What it reports about one bar. */
  datatype Event = Event(newHigh: Option<real>, newLow: Option<real>, brokeHigh: bool, brokeLow: bool)

  /** The last three bars. */
  function Window(bars: seq<Bar>): seq<Bar> {
    if |bars| <= 3 then bars else bars[|bars| - 3..]
  }

  /** What the state must be for the bars fed so far: a window and the batch finder's answer. */
  function StateOf(bars: seq<Bar>): PairState {
    PairState(Window(bars), Prices(Swings(bars, 1), High), Prices(Swings(bars, 1), Low))
  }

  function LastPrice(prices: seq<real>): Option<real> {
    if prices == [] then None else Some(Last(prices))
  }

  function Slid(window: seq<Bar>, bar: Bar): seq<Bar> {
    if |window| < 3 then window + [bar] else window[|window| - 2..] + [bar]
  }

  /** The swing the middle of a full window confirms, if any. */
  function Confirmed(window: seq<Bar>, kind: Kind): Option<real> {
    if |window| == 3 && Beats(kind, window[1], window[0]) && Beats(kind, window[1], window[2]) then
      Some(PriceOf(kind, window[1]))
    else None
  }

  function Push(prices: seq<real>, p: Option<real>): seq<real> {
    if p.Some? then prices + [p.value] else prices
  }

  function Fed(st: PairState, bar: Bar): PairState {
    var w := Slid(st.bars, bar);
    PairState(w, Push(st.highs, Confirmed(w, High)), Push(st.lows, Confirmed(w, Low)))
  }

  type Tracker = map<string, PairState>

  function StateIn(m: Tracker, pair: string): PairState {
    if pair in m then m[pair] else NO_BARS
  }

  function Feed(m: Tracker, pair: string, bar: Bar): Tracker {
    m[pair := Fed(StateIn(m, pair), bar)]
  }

  function FeedAll(m: Tracker, feed: seq<(string, Bar)>): Tracker {
    if feed == [] then m else Feed(FeedAll(m, Front(feed)), Last(feed).0, Last(feed).1)
  }

  class TrackerState {
    var state: Tracker

    constructor ()
      ensures state == map[]
    {
      state := map[];
    }

    method Update(pair: string, bar: Bar) returns (e: Event)
      modifies this
      ensures state == Feed(old(state), pair, bar)
      ensures var before, after := StateIn(old(state), pair), StateIn(state, pair);
        && e.newHigh == Confirmed(after.bars, High)
        && e.newLow == Confirmed(after.bars, Low)
        && (e.brokeHigh <==> before.highs != [] && bar.high > Last(before.highs))
        && (e.brokeLow <==> before.lows != [] && bar.low < Last(before.lows))
    {
      if pair !in state { state := state[pair := NO_BARS]; }
      var st := state[pair];
      var brokeHigh := st.highs != [] && bar.high > st.highs[|st.highs| - 1];
      var brokeLow := st.lows != [] && bar.low < st.lows[|st.lows| - 1];
      var newHigh, newLow;
      st, newHigh, newLow := SlideIn(st, bar);
      state := state[pair := st];
      e := Event(newHigh, newLow, brokeHigh, brokeLow);
    }

    /** Slide the bar into the three-deep window and test the middle of a full window. */
    static method SlideIn(before: PairState, bar: Bar)
      returns (st: PairState, newHigh: Option<real>, newLow: Option<real>)
      ensures st == Fed(before, bar)
      ensures newHigh == Confirmed(st.bars, High) && newLow == Confirmed(st.bars, Low)
    {
      var bars := before.bars + [bar];
      if |bars| > 3 { bars := bars[|bars| - 3..]; }
      assert bars == Slid(before.bars, bar);
      st := before.(bars := bars);
      newHigh, newLow := None, None;
      if |bars| == 3 {
        var left, mid, right := bars[0], bars[1], bars[2];
        if mid.high > left.high && mid.high > right.high {
          st := st.(highs := st.highs + [mid.high]);
          newHigh := Some(mid.high);
        }
        if mid.low < left.low && mid.low < right.low {
          st := st.(lows := st.lows + [mid.low]);
          newLow := Some(mid.low);
        }
      }
    }

    method GetLastSwing(pair: string, kind: Kind) returns (p: Option<real>)
      ensures p == LastSwing(state, pair, kind)
    {
      if pair !in state { return None; }
      var prices := if kind == High then state[pair].highs else state[pair].lows;
      if prices == [] { return None; }
      p := Some(prices[|prices| - 1]);
    }
  }

  function LastSwing(m: Tracker, pair: string, kind: Kind): Option<real> {
    LastPrice(if kind.High? then StateIn(m, pair).highs else StateIn(m, pair).lows)
  }

  // ------------------------------------------------------------------ streaming refines batch

  lemma FractalByNeighbours(bars: seq<Bar>, i: nat)
    requires i < |bars|
    ensures forall kind: Kind ::
      IsSwing(bars, i, 1, kind) <==>
        1 <= i < |bars| - 1 && Beats(kind, bars[i], bars[i - 1]) && Beats(kind, bars[i], bars[i + 1])
  {
    forall kind: Kind
      ensures IsSwing(bars, i, 1, kind) <==>
        1 <= i < |bars| - 1 && Beats(kind, bars[i], bars[i - 1]) && Beats(kind, bars[i], bars[i + 1])
    {
      if 1 <= i < |bars| - 1 { var _ := BeatsAt(bars, i, 1, kind); }
    }
  }

  lemma {:induction false} SwingsIgnoreLaterBars(bars: seq<Bar>, b: Bar, n: nat)
    requires n < |bars|
    ensures SwingsBefore(bars + [b], 1, n) == SwingsBefore(bars, 1, n)
  {
    if n > 0 {
      SwingsIgnoreLaterBars(bars, b, n - 1);
      FractalByNeighbours(bars + [b], n - 1);
      FractalByNeighbours(bars, n - 1);
    }
  }

  /** One more bar adds exactly the swings its arrival confirms at the bar before it. */
  lemma SwingsGrow(bars: seq<Bar>, b: Bar)
    requires bars != []
    ensures var all, n := bars + [b], |bars|;
      Swings(all, 1) == Swings(bars, 1) + (SwingAt(all, n - 1, 1, High) + SwingAt(all, n - 1, 1, Low))
  {
    var all, n := bars + [b], |bars|;
    SwingsIgnoreLaterBars(bars, b, n - 1);
    NoSwingsAtTheEdges(all, 1, n, n + 1);
    NoSwingsAtTheEdges(bars, 1, n - 1, n);
    assert Swings(all, 1) == SwingsBefore(all, 1, n);
  }

  /** The prices confirmed at the bar before the last are what the tracker reads off its window. */
  lemma WindowConfirms(all: seq<Bar>, kind: Kind)
    requires |all| >= 2
    ensures var n := |all| - 1;
      var found := SwingAt(all, n - 1, 1, High) + SwingAt(all, n - 1, 1, Low);
      Prices(found, kind) == Push([], Confirmed(Window(all), kind))
  {
    var n := |all| - 1;
    PricesConcat(SwingAt(all, n - 1, 1, High), SwingAt(all, n - 1, 1, Low), kind);
    ConfirmedIsSwing(all, kind);
  }

  lemma ConfirmedIsSwing(all: seq<Bar>, kind: Kind)
    requires |all| >= 2
    ensures Confirmed(Window(all), kind)
         == if IsSwing(all, |all| - 2, 1, kind) then Some(PriceOf(kind, all[|all| - 2])) else None
  {
    FractalByNeighbours(all, |all| - 2);
  }

  lemma PushIsAppend(xs: seq<real>, p: Option<real>)
    ensures xs + Push([], p) == Push(xs, p)
  {
    assert xs + [] == xs;
  }

  lemma PricesOfNothing(b: Bar, kind: Kind)
    ensures Prices(Swings([b], 1), kind) == [] && Prices(Swings([], 1), kind) == []
  {
    NoSwingsAtTheEdges([b], 1, 0, 1);
  }

  lemma PricesGrow(bars: seq<Bar>, b: Bar, kind: Kind)
    ensures Prices(Swings(bars + [b], 1), kind)
         == Push(Prices(Swings(bars, 1), kind), Confirmed(Window(bars + [b]), kind))
  {
    var all := bars + [b];
    if bars == [] {
      assert all == [b];
      PricesOfNothing(b, kind);
    } else {
      var earlier := Swings(bars, 1);
      var found := SwingAt(all, |bars| - 1, 1, High) + SwingAt(all, |bars| - 1, 1, Low);
      calc {
        Prices(Swings(all, 1), kind);
        { SwingsGrow(bars, b); }
        Prices(earlier + found, kind);
        { PricesConcat(earlier, found, kind); }
        Prices(earlier, kind) + Prices(found, kind);
        { WindowConfirms(all, kind); }
        Prices(earlier, kind) + Push([], Confirmed(Window(all), kind));
        { PushIsAppend(Prices(earlier, kind), Confirmed(Window(all), kind)); }
        Push(Prices(earlier, kind), Confirmed(Window(all), kind));
      }
    }
  }

  lemma FedIsStateOf(bars: seq<Bar>, b: Bar)
    ensures Fed(StateOf(bars), b) == StateOf(bars + [b])
  {
    assert Slid(Window(bars), b) == Window(bars + [b]);
    PricesGrow(bars, b, High);
    PricesGrow(bars, b, Low);
  }

  /** The bars of one pair, in order, in an interleaved feed. */
  function BarsOf(feed: seq<(string, Bar)>, pair: string): seq<Bar> {
    if feed == [] then []
    else BarsOf(Front(feed), pair) + if Last(feed).0 == pair then [Last(feed).1] else []
  }

  /**
   * However the pairs are interleaved, the three-bar tracker holds for each pair exactly the swing highs and lows that
   * the batch finder with a lookback of one finds on that pair's own bars, in order.
   */
  lemma {:induction false} StreamingMatchesBatch(feed: seq<(string, Bar)>, pair: string)
    ensures StateIn(FeedAll(map[], feed), pair) == StateOf(BarsOf(feed, pair))
  {
    if feed == [] {
      assert StateOf([]) == NO_BARS;
    } else {
      StreamingMatchesBatch(Front(feed), pair);
      var before := FeedAll(map[], Front(feed));
      assert FeedAll(map[], feed) == Feed(before, Last(feed).0, Last(feed).1);
      if Last(feed).0 == pair {
        FedIsStateOf(BarsOf(Front(feed), pair), Last(feed).1);
      } else {
        assert BarsOf(feed, pair) == BarsOf(Front(feed), pair);
      }
    }
  }
}
