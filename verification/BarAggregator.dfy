/** Ticks to bars, and the integrity scan over stored bars (data/bar_aggregator.py). */
module BarAggregator {
  import opened Clock
  import opened Common
  import opened Market
  import opened TickCollector

  /** A bar length in minutes; the constructor refuses others. */
  type Minutes = m: int | m > 0 witness 1

  function Period(tf: Minutes): int {
    tf * MINUTE_MS
  }

  /** The start of the bar a time falls in. */
  function Floor(time: int, tf: Minutes): int {
    time / Period(tf) * Period(tf)
  }

  function Mid(t: Tick): real {
    (t.bid + t.ask) * 0.5
  }

  function Spread(t: Tick): real {
    t.ask - t.bid
  }

  /** The bar in progress, if any. */
  datatype Progress =
    | NoBar
    | InBar(time: int, open: real, high: real, low: real, close: real, count: nat, spreadSum: real)

  function Opening(t: Tick, tf: Minutes): Progress {
    InBar(Floor(t.time, tf), Mid(t), Mid(t), Mid(t), Mid(t), 1, Spread(t))
  }

  function Extended(p: Progress, t: Tick): Progress
    requires p.InBar?
  {
    p.(high := Max(p.high, Mid(t)), low := Min(p.low, Mid(t)), close := Mid(t),
       count := p.count + 1, spreadSum := p.spreadSum + Spread(t))
  }

  function ToBar(symbol: string, p: Progress): Bar
    requires p.InBar?
  {
    Bar(symbol, p.time, p.open, p.high, p.low, p.close, p.count,
        if p.count > 0 then p.spreadSum / p.count as real else 0.0)
  }

  function Next(p: Progress, t: Tick, tf: Minutes): Progress {
    if p.InBar? && p.time == Floor(t.time, tf) then Extended(p, t) else Opening(t, tf)
  }

  /** The bar this tick closes, if it crosses into another window. */
  function Closes(symbol: string, p: Progress, t: Tick, tf: Minutes): seq<Bar> {
    if p.InBar? && p.time != Floor(t.time, tf) then [ToBar(symbol, p)] else []
  }

  function Flushed(symbol: string, p: Progress): seq<Bar> {
    if p.InBar? then [ToBar(symbol, p)] else []
  }

  function ProgressAfter(ticks: seq<Tick>, tf: Minutes): Progress {
    if ticks == [] then NoBar else Next(ProgressAfter(Front(ticks), tf), Last(ticks), tf)
  }

  /** The bars emitted while these ticks were fed, oldest first. */
  function Emitted(symbol: string, ticks: seq<Tick>, tf: Minutes): seq<Bar> {
    if ticks == [] then []
    else Emitted(symbol, Front(ticks), tf) + Closes(symbol, ProgressAfter(Front(ticks), tf), Last(ticks), tf)
  }

  class BarAggregator {
    const symbol: string
    const tf: Minutes
    var barOpen: Option<int>
    var open: real
    var high: real
    var low: real
    var close: real
    var tickCount: nat
    var spreadSum: real

    function View(): Progress
      reads this
    {
      if barOpen.None? then NoBar else InBar(barOpen.value, open, high, low, close, tickCount, spreadSum)
    }

    constructor (symbol: string, tf: Minutes)
      ensures this.symbol == symbol && this.tf == tf && View() == NoBar
    {
      this.symbol, this.tf, barOpen, tickCount, spreadSum := symbol, tf, None, 0, 0.0;
      open, high, low, close := 0.0, 0.0, 0.0, 0.0;
    }

    method OnTick(t: Tick) returns (closed: Option<Bar>)
      modifies this
      ensures View() == Next(old(View()), t, tf)
      ensures (if closed.Some? then [closed.value] else []) == Closes(symbol, old(View()), t, tf)
    {
      var bucket, mid, spread := Floor(t.time, tf), (t.bid + t.ask) * 0.5, t.ask - t.bid;
      if barOpen.None? {
        OpenNewBar(bucket, mid, spread);
        return None;
      }
      if bucket == barOpen.value {
        if mid > high { high := mid; }
        if mid < low { low := mid; }
        close := mid;
        tickCount := tickCount + 1;
        spreadSum := spreadSum + spread;
        return None;
      }
      var bar := BuildClosedBar();
      OpenNewBar(bucket, mid, spread);
      return Some(bar);
    }

    method Flush() returns (bar: Option<Bar>)
      modifies this
      ensures View() == NoBar && (if bar.Some? then [bar.value] else []) == Flushed(symbol, old(View()))
    {
      if barOpen.None? { return None; }
      var b := BuildClosedBar();
      barOpen, tickCount, spreadSum := None, 0, 0.0;
      return Some(b);
    }

    method OpenNewBar(bucket: int, mid: real, spread: real)
      modifies this
      ensures View() == InBar(bucket, mid, mid, mid, mid, 1, spread)
    {
      barOpen, open, high, low, close, tickCount, spreadSum := Some(bucket), mid, mid, mid, mid, 1, spread;
    }

    method BuildClosedBar() returns (b: Bar)
      requires barOpen.Some?
      ensures b == ToBar(symbol, View())
    {
      var mean := if tickCount > 0 then spreadSum / tickCount as real else 0.0;
      b := Bar(symbol, barOpen.value, open, high, low, close, tickCount, mean);
    }
  }

  // ------------------------------------------------------------------ the batch definition

  /** Maximal runs of neighbouring ticks that fall in the same window. */
  function Runs(ticks: seq<Tick>, tf: Minutes): seq<seq<Tick>> {
    if ticks == [] then []
    else
      var runs := Runs(Front(ticks), tf);
      var t := Last(ticks);
      if runs != [] && Last(runs) != [] && Floor(Last(Last(runs)).time, tf) == Floor(t.time, tf) then
        Front(runs) + [Last(runs) + [t]]
      else runs + [[t]]
  }

  function Spreads(ticks: seq<Tick>): seq<real> {
    if ticks == [] then [] else Spreads(Front(ticks)) + [Spread(Last(ticks))]
  }

  /** `b` is the bar of exactly these ticks. */
  ghost predicate IsBarOf(b: Bar, symbol: string, run: seq<Tick>, tf: Minutes) {
    && run != [] && b.symbol == symbol
    && (forall t :: t in run ==> Floor(t.time, tf) == b.time)
    && b.open == Mid(run[0]) && b.close == Mid(Last(run))
    && (forall t :: t in run ==> b.low <= Mid(t) <= b.high)
    && (exists t :: t in run && Mid(t) == b.high) && (exists t :: t in run && Mid(t) == b.low)
    && b.volume == |run| && b.spread == Sum(Spreads(run)) / |run| as real
  }

  /** What the aggregator holds is the bar of the run so far. */
  ghost predicate Holds(p: Progress, run: seq<Tick>, tf: Minutes) {
    && p.InBar? && run != []
    && (forall t :: t in run ==> Floor(t.time, tf) == p.time)
    && p.open == Mid(run[0]) && p.close == Mid(Last(run))
    && (forall t :: t in run ==> p.low <= Mid(t) <= p.high)
    && (exists t :: t in run && Mid(t) == p.high) && (exists t :: t in run && Mid(t) == p.low)
    && p.count == |run| && p.spreadSum == Sum(Spreads(run))
  }

  lemma OpeningHolds(t: Tick, tf: Minutes)
    ensures Holds(Opening(t, tf), [t], tf)
  {
    hide Floor, Mid, Spread;
    assert t in [t] && Front([t]) == [];
    assert Spreads([t]) == [] + [Spread(t)];
    SumOfAppend([], Spread(t));
  }

  lemma ExtendingHolds(p: Progress, run: seq<Tick>, t: Tick, tf: Minutes)
    requires Holds(p, run, tf) && p.time == Floor(t.time, tf)
    ensures Holds(Extended(p, t), run + [t], tf)
  {
    hide Floor, Mid, Spread;
    var longer, q := run + [t], Extended(p, t);
    assert Front(longer) == run && t in longer;
    SumOfAppend(Spreads(run), Spread(t));
    var h :| h in run && Mid(h) == p.high;
    var l :| l in run && Mid(l) == p.low;
    assert h in longer && l in longer;
  }

  /** The `i`-th bar belongs to the `i`-th run. */
  ghost predicate Match(bars: seq<Bar>, symbol: string, runs: seq<seq<Tick>>, tf: Minutes) {
    |bars| == |runs| && forall i :: 0 <= i < |runs| ==> IsBarOf(bars[i], symbol, runs[i], tf)
  }

  lemma HeldBarIsBarOf(symbol: string, p: Progress, run: seq<Tick>, tf: Minutes)
    requires Holds(p, run, tf)
    ensures IsBarOf(ToBar(symbol, p), symbol, run, tf)
  {
  }

  lemma {:induction false} EmittedMatchesFinishedRuns(symbol: string, ticks: seq<Tick>, tf: Minutes)
    requires ticks != []
    ensures var runs := Runs(ticks, tf);
      && runs != [] && Last(runs) != [] && Last(Last(runs)) == Last(ticks)
      && Holds(ProgressAfter(ticks, tf), Last(runs), tf)
      && Match(Emitted(symbol, ticks, tf), symbol, Front(runs), tf)
  {
    hide Holds, IsBarOf, Floor, ToBar, Opening, Extended;
    var t, before := Last(ticks), Front(ticks);
    if before == [] {
      assert ticks == [t];
      OpeningHolds(t, tf);
      assert Runs(before, tf) == [] && Runs(ticks, tf) == [[t]];
    } else {
      EmittedMatchesFinishedRuns(symbol, before, tf);
      var runs, p := Runs(before, tf), ProgressAfter(before, tf);
      HeldTime(p, Last(runs), tf);
      if Floor(Last(before).time, tf) == Floor(t.time, tf) {
        ExtendingHolds(p, Last(runs), t, tf);
        assert Front(Runs(ticks, tf)) == Front(runs);
      } else {
        OpeningHolds(t, tf);
        HeldBarIsBarOf(symbol, p, Last(runs), tf);
        assert Front(Runs(ticks, tf)) == runs == Front(runs) + [Last(runs)];
      }
    }
  }

  lemma HeldTime(p: Progress, run: seq<Tick>, tf: Minutes)
    requires Holds(p, run, tf)
    ensures p.InBar? && p.time == Floor(Last(run).time, tf)
  {
    assert Last(run) in run;
  }

  /** Streaming and batch agree: emitted bars plus the flush are the bars of the runs, for any ticks at all. */
  lemma StreamingMatchesGrouping(symbol: string, ticks: seq<Tick>, tf: Minutes)
    ensures Match(Emitted(symbol, ticks, tf) + Flushed(symbol, ProgressAfter(ticks, tf)), symbol, Runs(ticks, tf), tf)
  {
    hide Holds, IsBarOf, Next, Closes, ToBar;
    if ticks != [] {
      EmittedMatchesFinishedRuns(symbol, ticks, tf);
      var runs := Runs(ticks, tf);
      HeldTime(ProgressAfter(ticks, tf), Last(runs), tf);
      HeldBarIsBarOf(symbol, ProgressAfter(ticks, tf), Last(runs), tf);
      assert runs == Front(runs) + [Last(runs)];
    }
  }

  function Concat(runs: seq<seq<Tick>>): seq<Tick> {
    if runs == [] then [] else Concat(Front(runs)) + Last(runs)
  }

  /** The runs cut the stream without losing, repeating or moving a tick. */
  lemma {:induction false} RunsPartition(ticks: seq<Tick>, tf: Minutes)
    ensures Concat(Runs(ticks, tf)) == ticks
  {
    hide Floor;
    if ticks != [] {
      RunsPartition(Front(ticks), tf);
      var runs, t := Runs(Front(ticks), tf), Last(ticks);
      assert Front(runs + [[t]]) == runs;
      if runs != [] {
        assert Front(Front(runs) + [Last(runs) + [t]]) == Front(runs);
        assert Concat(Front(runs)) + (Last(runs) + [t]) == (Concat(Front(runs)) + Last(runs)) + [t];
      }
      assert ticks == Front(ticks) + [t];
    }
  }

  function Volume(bars: seq<Bar>): int {
    if bars == [] then 0 else Volume(Front(bars)) + Last(bars).volume
  }

  lemma {:induction false} VolumesAddUp(bars: seq<Bar>, symbol: string, runs: seq<seq<Tick>>, tf: Minutes)
    requires Match(bars, symbol, runs, tf)
    ensures Volume(bars) == |Concat(runs)|
  {
    hide IsBarOf;
    if runs != [] {
      VolumesAddUp(Front(bars), symbol, Front(runs), tf);
      assert IsBarOf(bars[|bars| - 1], symbol, runs[|runs| - 1], tf);
      BarVolume(Last(bars), symbol, Last(runs), tf);
    }
  }

  lemma BarVolume(b: Bar, symbol: string, run: seq<Tick>, tf: Minutes)
    requires IsBarOf(b, symbol, run, tf)
    ensures b.volume == |run|
  {
  }

  /** Every tick is counted in exactly one bar. */
  lemma VolumeIsTickCount(symbol: string, ticks: seq<Tick>, tf: Minutes)
    ensures Volume(Emitted(symbol, ticks, tf) + Flushed(symbol, ProgressAfter(ticks, tf))) == |ticks|
  {
    hide Emitted, Flushed, ProgressAfter, IsBarOf;
    StreamingMatchesGrouping(symbol, ticks, tf);
    RunsPartition(ticks, tf);
    VolumesAddUp(Emitted(symbol, ticks, tf) + Flushed(symbol, ProgressAfter(ticks, tf)), symbol, Runs(ticks, tf), tf);
  }

  // ------------------------------------------------------------------ the integrity scan

  datatype Integrity = Integrity(rows: nat, monotonic: bool, aligned: bool, missing: int, ohlcConsistent: bool)

  predicate Rising(bars: seq<Bar>) {
    forall i :: 0 <= i < |bars| - 1 ==> bars[i].time < bars[i + 1].time
  }

  predicate Consistent(b: Bar) {
    b.low <= Min(b.open, b.close) + 0.000000001 && b.high >= Max(b.open, b.close) - 0.000000001
  }

  function CheckBarIntegrity(bars: seq<Bar>, tf: Minutes): Integrity {
    if bars == [] then Integrity(0, true, true, 0, true)
    else Integrity(
        |bars|, Rising(bars),
        forall i :: 0 <= i < |bars| ==> bars[i].time % Period(tf) == 0,
        (Last(bars).time - bars[0].time) / Period(tf) + 1 - |bars|,
        forall i :: 0 <= i < |bars| ==> Consistent(bars[i]))
  }

  /** Windows never step back from one tick to the next. */
  ghost predicate WindowsInOrder(ticks: seq<Tick>, tf: Minutes) {
    forall i :: 0 <= i < |ticks| - 1 ==> Floor(ticks[i].time, tf) <= Floor(ticks[i + 1].time, tf)
  }

  /** Ticks in time order have windows in order. */
  lemma TimeOrderGivesWindowOrder(ticks: seq<Tick>, tf: Minutes)
    requires InTimeOrder(ticks)
    ensures WindowsInOrder(ticks, tf)
  {
    hide Floor;
    forall i | 0 <= i < |ticks| - 1 ensures Floor(ticks[i].time, tf) <= Floor(ticks[i + 1].time, tf) {
      FloorIsMonotone(ticks[i].time, ticks[i + 1].time, tf);
    }
  }

  lemma FloorIsMonotone(a: int, b: int, tf: Minutes)
    requires a <= b
    ensures Floor(a, tf) <= Floor(b, tf)
  {
    var p := Period(tf);
    DivisionLaw(a, p);
    DivisionLaw(b, p);
    Factored(a / p, b / p, p);
    ScaledSign(a / p - b / p, p);
    ScaledSign(b / p - a / p, p);
  }

  /** Every run has a window of its own, different from its neighbours'. */
  ghost predicate RunsRise(runs: seq<seq<Tick>>, tf: Minutes)
    requires forall i :: 0 <= i < |runs| ==> runs[i] != []
  {
    forall i :: 0 <= i < |runs| - 1 ==> Floor(Last(runs[i]).time, tf) < Floor(Last(runs[i + 1]).time, tf)
  }

  lemma {:induction false} RunsRiseExactly(ticks: seq<Tick>, tf: Minutes)
    ensures var runs := Runs(ticks, tf);
      && (forall i :: 0 <= i < |runs| ==> runs[i] != [])
      && (ticks != [] ==> runs != [] && Last(Last(runs)) == Last(ticks))
      && (RunsRise(runs, tf) <==> WindowsInOrder(ticks, tf))
  {
    hide Floor, RunsRise, WindowsInOrder;
    if ticks == [] {
      NothingRises(tf);
    } else {
      var before, t := Front(ticks), Last(ticks);
      RunsRiseExactly(before, tf);
      var was := Runs(before, tf);
      assert ticks == before + [t];
      WindowsOfAppend(before, t, tf);
      if before == [] {
        NothingRises(tf);
        OneRunRises([t], tf);
        assert Runs(ticks, tf) == [[t]];
      }
      if before != [] {
        if Floor(Last(before).time, tf) == Floor(t.time, tf) {
          RiseOfGrown(was, t, tf);
        } else {
          RiseOfAppend(was, t, tf);
        }
      }
    }
  }

  lemma NothingRises(tf: Minutes)
    ensures RunsRise([], tf) && WindowsInOrder([], tf)
  {
  }

  lemma OneRunRises(run: seq<Tick>, tf: Minutes)
    requires run != []
    ensures RunsRise([run], tf)
  {
  }

  lemma WindowsOfAppend(ticks: seq<Tick>, t: Tick, tf: Minutes)
    ensures WindowsInOrder(ticks + [t], tf) <==>
            WindowsInOrder(ticks, tf) && (ticks == [] || Floor(Last(ticks).time, tf) <= Floor(t.time, tf))
  {
    hide Floor;
    var all, n := ticks + [t], |ticks| - 1;
    if WindowsInOrder(all, tf) && ticks != [] {
      assert Floor(all[n].time, tf) <= Floor(all[n + 1].time, tf);
      forall i | 0 <= i < n ensures Floor(ticks[i].time, tf) <= Floor(ticks[i + 1].time, tf) {
        assert all[i] == ticks[i] && all[i + 1] == ticks[i + 1];
      }
    }
  }

  lemma RiseOfGrown(runs: seq<seq<Tick>>, t: Tick, tf: Minutes)
    requires runs != [] && (forall i :: 0 <= i < |runs| ==> runs[i] != [])
    requires Floor(Last(Last(runs)).time, tf) == Floor(t.time, tf)
    ensures RunsRise(Front(runs) + [Last(runs) + [t]], tf) <==> RunsRise(runs, tf)
  {
    hide Floor;
    var grown := Front(runs) + [Last(runs) + [t]];
    assert forall i :: 0 <= i < |runs| ==> Floor(Last(grown[i]).time, tf) == Floor(Last(runs[i]).time, tf);
  }

  lemma RiseOfAppend(runs: seq<seq<Tick>>, t: Tick, tf: Minutes)
    requires runs != [] && (forall i :: 0 <= i < |runs| ==> runs[i] != [])
    requires Floor(Last(Last(runs)).time, tf) != Floor(t.time, tf)
    ensures RunsRise(runs + [[t]], tf) <==> RunsRise(runs, tf) && Floor(Last(Last(runs)).time, tf) <= Floor(t.time, tf)
  {
    hide Floor;
    var all, n := runs + [[t]], |runs| - 1;
    if RunsRise(all, tf) {
      assert Floor(Last(all[n]).time, tf) < Floor(Last(all[n + 1]).time, tf);
      forall i | 0 <= i < n ensures Floor(Last(runs[i]).time, tf) < Floor(Last(runs[i + 1]).time, tf) {
        assert all[i] == runs[i] && all[i + 1] == runs[i + 1];
      }
    }
  }

  lemma BarsRiseLikeRuns(bars: seq<Bar>, symbol: string, runs: seq<seq<Tick>>, tf: Minutes)
    requires Match(bars, symbol, runs, tf) && (forall i :: 0 <= i < |runs| ==> runs[i] != [])
    ensures Rising(bars) <==> RunsRise(runs, tf)
  {
    hide Floor, IsBarOf;
    forall i | 0 <= i < |bars| ensures bars[i].time == Floor(Last(runs[i]).time, tf) {
      BarTime(bars[i], symbol, runs[i], tf);
    }
  }

  lemma BarTime(b: Bar, symbol: string, run: seq<Tick>, tf: Minutes)
    requires IsBarOf(b, symbol, run, tf)
    ensures run != [] && b.time == Floor(Last(run).time, tf) && b.time % Period(tf) == 0
    ensures Consistent(b) && b.low <= b.open <= b.high && b.low <= b.close <= b.high
  {
    assert run[0] in run && Last(run) in run;
    MultipleOfPeriod(Last(run).time / Period(tf), Period(tf));
  }

  lemma MultipleOfPeriod(k: int, period: int)
    requires period > 0
    ensures k * period % period == 0 && k * period / period == k
  {
    UniqueDivision(k * period, period, k, 0);
  }

  lemma ScaledSign(k: int, d: int)
    requires d > 0
    ensures k >= 1 ==> k * d >= d
    ensures k <= 0 ==> k * d <= 0
  {
  }

  lemma UniqueDivision(x: int, d: int, q: int, r: int)
    requires d > 0 && 0 <= r < d && x == q * d + r
    ensures x / d == q && x % d == r
  {
    var q2, r2 := x / d, x % d;
    DivisionLaw(x, d);
    Factored(q, q2, d);
    ScaledSign(q - q2, d);
    ScaledSign(q2 - q, d);
  }

  lemma DivisionLaw(x: int, d: int)
    requires d > 0
    ensures x == x / d * d + x % d && 0 <= x % d < d
  {
  }

  lemma Factored(q: int, p: int, d: int)
    ensures (q - p) * d == q * d - p * d && (p - q) * d == p * d - q * d
  {
  }

  /**
   * The bars of a stream pass the scan: aligned and OHLC-consistent always, strictly increasing exactly when the
   * windows of the ticks never step back.
   */
  lemma StreamPassesScan(symbol: string, ticks: seq<Tick>, tf: Minutes)
    requires ticks != []
    ensures var r := CheckBarIntegrity(Emitted(symbol, ticks, tf) + Flushed(symbol, ProgressAfter(ticks, tf)), tf);
      && r.aligned && r.ohlcConsistent && r.rows == |Runs(ticks, tf)|
      && (r.monotonic <==> WindowsInOrder(ticks, tf))
  {
    hide Emitted, Flushed, ProgressAfter, IsBarOf, WindowsInOrder, Floor, Consistent, Rising;
    var bars := Emitted(symbol, ticks, tf) + Flushed(symbol, ProgressAfter(ticks, tf));
    StreamingMatchesGrouping(symbol, ticks, tf);
    RunsRiseExactly(ticks, tf);
    BarsRiseLikeRuns(bars, symbol, Runs(ticks, tf), tf);
    forall i | 0 <= i < |bars| ensures bars[i].time % Period(tf) == 0 && Consistent(bars[i]) {
      BarTime(bars[i], symbol, Runs(ticks, tf)[i], tf);
    }
  }

  /** Windows without a bar between neighbouring bars. */
  function Skipped(bars: seq<Bar>, tf: Minutes): int {
    if |bars| <= 1 then 0
    else Skipped(Front(bars), tf) + ((Last(bars).time - Last(Front(bars)).time) / Period(tf) - 1)
  }

  lemma SpanInPeriods(a: int, b: int, period: int)
    requires period > 0 && a % period == 0 && b % period == 0
    ensures (b - a) / period == b / period - a / period
    ensures a < b ==> (b - a) / period >= 1
  {
    var x, y := a / period, b / period;
    DivisionLaw(a, period);
    DivisionLaw(b, period);
    Factored(y, x, period);
    MultipleOfPeriod(y - x, period);
    ScaledSign(y - x, period);
  }

  /** On aligned, increasing bars the missing count is the number of windows that were skipped. */
  lemma {:induction false} MissingCountsSkipped(bars: seq<Bar>, tf: Minutes)
    requires bars != [] && CheckBarIntegrity(bars, tf).aligned
    ensures CheckBarIntegrity(bars, tf).missing == Skipped(bars, tf)
    ensures Rising(bars) ==> Skipped(bars, tf) >= 0
  {
    if |bars| == 1 {
      assert (bars[0].time - bars[0].time) / Period(tf) == 0;
    } else {
      MissingCountsSkipped(Front(bars), tf);
      var n := |bars| - 1;
      assert bars[0].time % Period(tf) == 0 && bars[n - 1].time % Period(tf) == 0 && bars[n].time % Period(tf) == 0;
      SpanInPeriods(bars[0].time, bars[n - 1].time, Period(tf));
      SpanInPeriods(bars[0].time, bars[n].time, Period(tf));
      SpanInPeriods(bars[n - 1].time, bars[n].time, Period(tf));
      if Rising(bars) { assert bars[n - 1].time < bars[n - 1 + 1].time; }
    }
  }

  // ------------------------------------------------------------------ what a bar tells

  function Widths(ticks: seq<Tick>): real {
    if ticks == [] then 0.0 else Widths(Front(ticks)) + (Last(ticks).ask - Last(ticks).bid)
  }

  /** Twice the mid price of a tick. */
  function Quotes(t: Tick): real {
    t.bid + t.ask
  }

  /**
   * Opened at a multiple of its length, the bar holds the ticks up to the next one: the first and last mid price, the
   * highest and lowest, how many, and the mean spread.
   */
  ghost predicate Tells(b: Bar, run: seq<Tick>, tf: Minutes) {
    && run != [] && b.time % (tf * 60_000) == 0
    && (forall t :: t in run ==> b.time <= t.time < b.time + tf * 60_000)
    && b.open * 2.0 == Quotes(run[0]) && b.close * 2.0 == Quotes(Last(run))
    && (forall t :: t in run ==> b.low * 2.0 <= Quotes(t) <= b.high * 2.0)
    && (exists t :: t in run && Quotes(t) == b.high * 2.0) && (exists t :: t in run && Quotes(t) == b.low * 2.0)
    && b.volume == |run| && b.spread * |run| as real == Widths(run)
  }

  lemma {:induction false} SpreadsAreWidths(ticks: seq<Tick>)
    ensures Sum(Spreads(ticks)) == Widths(ticks)
  {
    if ticks != [] {
      SpreadsAreWidths(Front(ticks));
      SumOfAppend(Spreads(Front(ticks)), Spread(Last(ticks)));
    }
  }

  lemma FloorIsWindow(time: int, tf: Minutes)
    ensures var start := Floor(time, tf); start % (tf * 60_000) == 0 && start <= time < start + tf * 60_000
  {
    DivisionLaw(time, Period(tf));
    MultipleOfPeriod(time / Period(tf), Period(tf));
  }

  lemma MeanTimesCount(sum: real, n: real)
    requires n > 0.0
    ensures sum / n * n == sum
  {
  }

  lemma BarOfTells(b: Bar, symbol: string, run: seq<Tick>, tf: Minutes)
    requires IsBarOf(b, symbol, run, tf)
    ensures Tells(b, run, tf)
  {
    hide Floor, Spreads, Widths;
    forall t | t in run ensures b.time % (tf * 60_000) == 0 && b.time <= t.time < b.time + tf * 60_000 {
      FloorIsWindow(t.time, tf);
    }
    assert run[0] in run;
    SpreadsAreWidths(run);
    MeanTimesCount(Widths(run), |run| as real);
    var h :| h in run && Mid(h) == b.high;
    var l :| l in run && Mid(l) == b.low;
    assert Quotes(h) == b.high * 2.0 && Quotes(l) == b.low * 2.0;
  }

  /** The bars of a stream cut it into pieces, and each tells of its own. */
  lemma BarsTellOfTheStream(symbol: string, ticks: seq<Tick>, tf: Minutes)
    ensures exists runs: seq<seq<Tick>> ::
      && Concat(runs) == ticks
      && var bars := Emitted(symbol, ticks, tf) + Flushed(symbol, ProgressAfter(ticks, tf));
         |bars| == |runs| && forall i :: 0 <= i < |runs| ==> bars[i].symbol == symbol && Tells(bars[i], runs[i], tf)
  {
    hide Emitted, Flushed, ProgressAfter, IsBarOf, Tells;
    StreamingMatchesGrouping(symbol, ticks, tf);
    RunsPartition(ticks, tf);
    var bars, runs := Emitted(symbol, ticks, tf) + Flushed(symbol, ProgressAfter(ticks, tf)), Runs(ticks, tf);
    forall i | 0 <= i < |runs| ensures bars[i].symbol == symbol && Tells(bars[i], runs[i], tf) {
      BarOfTells(bars[i], symbol, runs[i], tf);
      BarSymbol(bars[i], symbol, runs[i], tf);
    }
  }

  lemma BarSymbol(b: Bar, symbol: string, run: seq<Tick>, tf: Minutes)
    requires IsBarOf(b, symbol, run, tf)
    ensures b.symbol == symbol
  {
  }

  /** What the scan reports of stored bars: how many, and which of its questions every bar answers with yes. */
  lemma ScanIs(bars: seq<Bar>, tf: Minutes)
    ensures var r := CheckBarIntegrity(bars, tf);
      && r.rows == |bars|
      && (r.monotonic <==> forall i, j :: 0 <= i < j < |bars| ==> bars[i].time < bars[j].time)
      && (r.aligned <==> forall b :: b in bars ==> b.time % (tf * 60_000) == 0)
      && (r.ohlcConsistent <==> forall b :: b in bars ==>
            && b.low <= b.open + 0.000000001 && b.low <= b.close + 0.000000001
            && b.high >= b.open - 0.000000001 && b.high >= b.close - 0.000000001)
  {
    forall i, j | Rising(bars) && 0 <= i < j < |bars| ensures bars[i].time < bars[j].time { RisesFrom(bars, i, j); }
  }

  lemma {:induction false} RisesFrom(bars: seq<Bar>, i: nat, j: nat)
    requires Rising(bars) && i < j < |bars|
    ensures bars[i].time < bars[j].time
  {
    if i < j - 1 {
      RisesFrom(bars, i, j - 1);
      var k := j - 1;
      assert bars[k].time < bars[k + 1].time;
    }
  }
}
