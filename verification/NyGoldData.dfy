/** The look-ahead-safe data layer of the NY Gold backtest (strategy/ny_gold_data.py). */
module NyGoldData {
  import opened Clock
  import opened Common

  /** One bar by its open time; `spread` is absent where the recorded mean spread is not a number. */
  datatype GoldBar = GoldBar(time: int, open: real, high: real, low: real, close: real, spread: Option<real>)

  /** One timeframe. A bar closes `barMs` after it opens. */
  datatype Frame = Frame(barMs: int, bars: seq<GoldBar>)

  datatype Data = Data(oneM: Frame, fiveM: Frame, fifteenM: Frame)

  function CloseTime(f: Frame, i: nat): int
    requires i < |f.bars|
  {
    f.bars[i].time + f.barMs
  }

  /** The loader sorts every frame by open time. */
  ghost predicate Sorted(f: Frame) {
    forall i, j :: 0 <= i < j < |f.bars| ==> f.bars[i].time <= f.bars[j].time
  }

  ghost predicate SortedData(d: Data) {
    Sorted(d.oneM) && Sorted(d.fiveM) && Sorted(d.fifteenM)
  }

  /** Bisection for the insertion point to the right of `t` among the close times. */
  function BisectRight(f: Frame, t: int, lo: nat, hi: nat): (r: nat)
    requires lo <= hi <= |f.bars|
    ensures lo <= r <= hi
    ensures lo < r ==> CloseTime(f, r - 1) <= t
    ensures r < hi ==> t < CloseTime(f, r)
    decreases hi - lo
  {
    if lo == hi then lo
    else
      var mid := (lo + hi) / 2;
      if t < CloseTime(f, mid) then BisectRight(f, t, lo, mid) else BisectRight(f, t, mid + 1, hi)
  }

  function VisibleCount(f: Frame, t: int): (n: nat)
    ensures n <= |f.bars|
    ensures 0 < n ==> CloseTime(f, n - 1) <= t
    ensures n < |f.bars| ==> t < CloseTime(f, n)
  {
    BisectRight(f, t, 0, |f.bars|)
  }

  /** The bars a decision at `t` may look at. */
  function Slice(f: Frame, t: int): Frame {
    f.(bars := f.bars[..VisibleCount(f, t)])
  }

  /** The guard of the main loop: it looks at the last bar of each slice only. */
  predicate NoLookahead(t: int, f: Frame) {
    f.bars != [] ==> CloseTime(f, |f.bars| - 1) <= t
  }

  method AssertNoLookahead(t: int, frames: seq<Frame>) returns (r: Result<(), string>)
    ensures r.Ok? <==> forall i :: 0 <= i < |frames| ==> NoLookahead(t, frames[i])
  {
    for i := 0 to |frames|
      invariant forall j :: 0 <= j < i ==> NoLookahead(t, frames[j])
    {
      if |frames[i].bars| == 0 { continue; }
      if CloseTime(frames[i], |frames[i].bars| - 1) > t { return Err("slice contains a future bar"); }
    }
    r := Ok(());
  }

  /** The guard never fires, sorted data or not, and on sorted data the slice is exactly the closed bars. */
  lemma SliceIsClosedBars(f: Frame, t: int)
    ensures NoLookahead(t, Slice(f, t))
    ensures Sorted(f) ==> forall i :: 0 <= i < |f.bars| ==> (i < |Slice(f, t).bars| <==> CloseTime(f, i) <= t)
  {
    var n := VisibleCount(f, t);
    if Sorted(f) {
      forall i | 0 <= i < |f.bars|
        ensures i < n <==> CloseTime(f, i) <= t
      {
        if i < n { assert f.bars[i].time <= f.bars[n - 1].time; } else { assert f.bars[n].time <= f.bars[i].time; }
      }
    }
  }

  /** Two frames hold the same bars as far as a decision at `t` can see. */
  ghost predicate Agree(f: Frame, g: Frame, t: int) {
    Slice(f, t) == Slice(g, t)
  }

  ghost predicate AgreeData(d: Data, e: Data, t: int) {
    Agree(d.oneM, e.oneM, t) && Agree(d.fiveM, e.fiveM, t) && Agree(d.fifteenM, e.fifteenM, t)
  }

  /** Cutting at `t` after cutting at a later time changes nothing. */
  lemma SliceOfSlice(f: Frame, t: int, later: int)
    requires Sorted(f) && t <= later
    ensures Slice(Slice(f, later), t) == Slice(f, t) && Sorted(Slice(f, later))
  {
    hide BisectRight;
    var n := VisibleCount(f, t);
    SliceIsClosedBars(f, later);
    var g := Slice(f, later);
    if 0 < n {
      assert CloseTime(f, n - 1) <= later;
      assert g.bars[n - 1] == f.bars[n - 1];
    }
  }

  /** Data that agree on what is visible at a time agree on what was visible at every earlier time. */
  lemma AgreeEarlier(f: Frame, g: Frame, t: int, later: int)
    requires Sorted(f) && Sorted(g) && t <= later && Agree(f, g, later)
    ensures Agree(f, g, t)
  {
    SliceOfSlice(f, t, later);
    SliceOfSlice(g, t, later);
  }

  /** Truncated data agree with the full data up to the cut. */
  lemma TruncationAgrees(d: Data, t: int)
    requires SortedData(d)
    ensures var e := Data(Slice(d.oneM, t), Slice(d.fiveM, t), Slice(d.fifteenM, t));
      SortedData(e) && AgreeData(d, e, t)
  {
    SliceOfSlice(d.oneM, t, t);
    SliceOfSlice(d.fiveM, t, t);
    SliceOfSlice(d.fifteenM, t, t);
  }

  // ------------------------------------------------------------------ UTC arithmetic

  function Hour(time: int): int {
    time / HOUR_MS % 24
  }

  function Minute(time: int): int {
    time / MINUTE_MS % 60
  }

  function Second(time: int): int {
    time / 1000 % 60
  }

  /** The open time falls in `[startHour, endHour)`, both on the full hour. */
  predicate InSession(time: int, startHour: int, endHour: int) {
    var cur := Hour(time) * 3600 + Minute(time) * 60 + Second(time);
    startHour * 3600 <= cur < endHour * 3600
  }
}
