/**
 * The support and resistance finder (`find_sr_levels`, `htf_index_at_or_before` in
 * strategy/patterns/_multi_setup_common.py). Tolerance and ATR arrive as numbers of price units.
 */
module SrLevels {
  import opened Common
  import opened Market
  import opened Sorting

  const LEVEL_NEARBY_TOL_MULT := 3.0
  const LEVEL_CLUSTER_TOLERANCE_FLOOR := 3.0
  const LEVEL_CLUSTER_TOLERANCE_ATR_MULT := 0.20
  const LONG_AGO := -1_000_000_000

  /** One wick end; `high` tells which. */
  datatype Touch = Touch(price: real, idx: nat, high: bool)

  datatype Level = Level(price: real, touches: nat, isSupport: bool, isResistance: bool, lastIdx: nat, lastTime: int)

  function PriceKey(t: Touch): real { t.price }

  function IndexKey(t: Touch): real { t.idx as real }

  /** Newest first. */
  function RecencyKey(l: Level): real { -(l.lastIdx as real) }

  function ValueKey(x: real): real { x }

  // ------------------------------------------------------------------ the stages as functions

  function Touches(bars: seq<Bar>, start: nat, n: nat): seq<Touch>
    requires start <= n <= |bars|
  {
    if n == start then []
    else Touches(bars, start, n - 1) + [Touch(bars[n - 1].high, n - 1, true), Touch(bars[n - 1].low, n - 1, false)]
  }

  /** Greedy clusters of price-sorted touches: a touch joins the last cluster while within `width` of its anchor. */
  function Clusters(ts: seq<Touch>, width: real): (c: seq<seq<Touch>>)
    ensures forall i :: 0 <= i < |c| ==> c[i] != []
    ensures ts != [] ==> c != [] && Last(Last(c)) == Last(ts)
  {
    if ts == [] then []
    else
      var c := Clusters(Front(ts), width);
      var t := Last(ts);
      if c != [] && Abs(t.price - Last(c)[0].price) <= width then Front(c) + [Last(c) + [t]] else c + [[t]]
  }

  /** Touches that come `gap` bars or more after the last one kept. */
  function Kept(ts: seq<Touch>, gap: int): seq<Touch> {
    if ts == [] then []
    else
      var kept := Kept(Front(ts), gap);
      if Last(ts).idx - LastIndex(kept) >= gap then kept + [Last(ts)] else kept
  }

  function LastIndex(kept: seq<Touch>): int {
    if kept == [] then LONG_AGO else Last(kept).idx
  }

  function Median(xs: seq<real>): real {
    var s := SortBy(xs, ValueKey);
    var mid := |s| / 2;
    if |s| == 0 then 0.0 else if |s| % 2 == 1 then s[mid] else 0.5 * (s[mid - 1] + s[mid])
  }

  function Prices(ts: seq<Touch>): seq<real> {
    if ts == [] then [] else Prices(Front(ts)) + [Last(ts).price]
  }

  predicate Supports(t: Touch, bars: seq<Bar>, centre: real)
    requires t.idx < |bars|
  {
    !t.high && bars[t.idx].close > centre
  }

  predicate Resists(t: Touch, bars: seq<Bar>, centre: real)
    requires t.idx < |bars|
  {
    t.high && bars[t.idx].close < centre
  }

  /** Every touch lies on an existing bar. */
  ghost predicate OnBars(ts: seq<Touch>, bars: seq<Bar>) {
    forall t :: t in ts ==> t.idx < |bars|
  }

  function CountSupport(ts: seq<Touch>, bars: seq<Bar>, centre: real): nat
    requires OnBars(ts, bars)
  {
    if ts == [] then 0
    else
      assert Last(ts) in ts;
      CountSupport(Front(ts), bars, centre) + if Supports(Last(ts), bars, centre) then 1 else 0
  }

  function CountResistance(ts: seq<Touch>, bars: seq<Bar>, centre: real): nat
    requires OnBars(ts, bars)
  {
    if ts == [] then 0
    else
      assert Last(ts) in ts;
      CountResistance(Front(ts), bars, centre) + if Resists(Last(ts), bars, centre) then 1 else 0
  }

  /** The level of one cluster, if it has enough spaced touches and a side. */
  function LevelOf(cluster: seq<Touch>, bars: seq<Bar>, minTouches: int, gap: int): Option<Level>
    requires OnBars(cluster, bars)
  {
    var centre := Median(Prices(cluster));
    var kept := Kept(SortBy(cluster, IndexKey), gap);
    KeptFromCluster(cluster, gap);
    var support, resistance := CountSupport(kept, bars, centre) >= 2, CountResistance(kept, bars, centre) >= 2;
    if |kept| < minTouches || !(support || resistance) then None
    else
      SomeCounted(kept, bars, centre);
      assert Last(kept) in kept;
      Some(Level(centre, |kept|, support, resistance, Last(kept).idx, bars[Last(kept).idx].time))
  }

  lemma SomeCounted(kept: seq<Touch>, bars: seq<Bar>, centre: real)
    requires OnBars(kept, bars) && (CountSupport(kept, bars, centre) >= 2 || CountResistance(kept, bars, centre) >= 2)
    ensures kept != []
  {
  }

  lemma {:induction false} KeptAreMembers(ts: seq<Touch>, gap: int)
    ensures forall t :: t in Kept(ts, gap) ==> t in ts
  {
    if ts != [] {
      KeptAreMembers(Front(ts), gap);
      assert ts == Front(ts) + [Last(ts)];
    }
  }

  lemma KeptFromCluster(cluster: seq<Touch>, gap: int)
    ensures forall t :: t in Kept(SortBy(cluster, IndexKey), gap) ==> t in cluster
  {
    SortBySorts(cluster, IndexKey);
    SameMembers(SortBy(cluster, IndexKey), cluster);
    KeptAreMembers(SortBy(cluster, IndexKey), gap);
  }

  ghost predicate AllOnBars(clusters: seq<seq<Touch>>, bars: seq<Bar>) {
    forall i :: 0 <= i < |clusters| ==> OnBars(clusters[i], bars)
  }

  function LevelsOf(clusters: seq<seq<Touch>>, bars: seq<Bar>, minTouches: int, gap: int): seq<Level>
    requires AllOnBars(clusters, bars)
  {
    if clusters == [] then []
    else
      var l := LevelOf(Last(clusters), bars, minTouches, gap);
      LevelsOf(Front(clusters), bars, minTouches, gap) + if l.Some? then [l.value] else []
  }

  /** Another level lies within the band. */
  predicate Crowded(levels: seq<Level>, i: nat, band: real)
    requires i < |levels|
  {
    exists j :: 0 <= j < |levels| && j != i && Abs(levels[i].price - levels[j].price) <= band
  }

  /** The uncrowded ones among the first `n`. */
  function Clean(levels: seq<Level>, band: real, n: nat): seq<Level>
    requires n <= |levels|
  {
    if n == 0 then []
    else Clean(levels, band, n - 1) + if Crowded(levels, n - 1, band) then [] else [levels[n - 1]]
  }

  function Tolerance(atrPips: Option<real>, pip: real): real {
    var pips := if atrPips.None? then LEVEL_CLUSTER_TOLERANCE_FLOOR
                else Max(LEVEL_CLUSTER_TOLERANCE_FLOOR, LEVEL_CLUSTER_TOLERANCE_ATR_MULT * atrPips.value);
    pips * pip
  }

  /** Where the window begins; a negative lookback leaves nothing. */
  function Start(bars: seq<Bar>, lookback: int): (s: nat)
    ensures s <= |bars|
  {
    if lookback < 0 then |bars| else MaxInt(0, |bars| - lookback)
  }

  /** The clusters of the lookback window. */
  function WindowClusters(bars: seq<Bar>, tol: real, lookback: int): seq<seq<Touch>>
  {
    Clusters(SortBy(Touches(bars, Start(bars, lookback), |bars|), PriceKey), tol * 2.0)
  }

  function FoundLevels(bars: seq<Bar>, tol: real, lookback: int, minTouches: int, gap: int): seq<Level>
  {
    WindowClustersOnBars(bars, tol, lookback);
    if bars == [] || tol <= 0.0 then []
    else
      var all := LevelsOf(WindowClusters(bars, tol, lookback), bars, minTouches, gap);
      SortBy(Clean(all, tol * LEVEL_NEARBY_TOL_MULT, |all|), RecencyKey)
  }

  // ------------------------------------------------------------------ clustering

  function Concat(cs: seq<seq<Touch>>): seq<Touch> {
    if cs == [] then [] else Concat(Front(cs)) + Last(cs)
  }

  /** The clusters cut the sorted touches into consecutive pieces. */
  lemma {:induction false} ClustersPartition(ts: seq<Touch>, width: real)
    ensures Concat(Clusters(ts, width)) == ts
  {
    if ts != [] {
      ClustersPartition(Front(ts), width);
      var c, t := Clusters(Front(ts), width), Last(ts);
      assert Front(c + [[t]]) == c;
      if c != [] {
        assert Front(Front(c) + [Last(c) + [t]]) == Front(c);
        assert Concat(Front(c)) + (Last(c) + [t]) == (Concat(Front(c)) + Last(c)) + [t];
      }
      assert ts == Front(ts) + [t];
    }
  }

  /** Within a cluster all prices lie between the anchor and the anchor plus the width. */
  ghost predicate Narrow(cluster: seq<Touch>, width: real) {
    cluster != [] && forall i :: 0 <= i < |cluster| ==> cluster[0].price <= cluster[i].price <= cluster[0].price + width
  }

  /** The anchor of cluster `i` is out of reach of the cluster before. */
  predicate Beyond(c: seq<seq<Touch>>, i: nat, width: real)
    requires 1 <= i < |c| && c[i] != [] && c[i - 1] != []
  {
    c[i][0].price > c[i - 1][0].price + width
  }

  lemma {:induction false} ClustersAreNarrow(ts: seq<Touch>, width: real)
    requires SortedBy(ts, PriceKey) && width > 0.0
    ensures var c := Clusters(ts, width);
      && (forall i :: 0 <= i < |c| ==> Narrow(c[i], width))
      && (forall i :: 1 <= i < |c| ==> Beyond(c, i, width))
      && (ts != [] ==> Last(c)[0].price <= Last(ts).price)
  {
    if ts != [] {
      var before, t := Front(ts), Last(ts);
      ClustersAreNarrow(before, width);
      var c: seq<seq<Touch>> := Clusters(before, width);
      if before != [] {
        assert PriceKey(ts[|ts| - 2]) <= PriceKey(ts[|ts| - 1]);
        assert c[|c| - 1][0].price <= before[|before| - 1].price <= t.price;
        JoiningStaysNarrow(c, t, width);
      }
    }
  }

  lemma JoiningStaysNarrow(c: seq<seq<Touch>>, t: Touch, width: real)
    requires c != [] && width > 0.0 && (forall i :: 0 <= i < |c| ==> c[i] != [])
    requires (forall i :: 0 <= i < |c| ==> Narrow(c[i], width)) && (forall i :: 1 <= i < |c| ==> Beyond(c, i, width))
    requires Last(c) != [] && Last(c)[0].price <= t.price
    ensures var d := if Abs(t.price - Last(c)[0].price) <= width then Front(c) + [Last(c) + [t]] else c + [[t]];
      && (forall i :: 0 <= i < |d| ==> d[i] != [] && Narrow(d[i], width))
      && (forall i :: 1 <= i < |d| ==> Beyond(d, i, width))
      && d[|d| - 1][0].price <= t.price
  {
    var d: seq<seq<Touch>> :=
        if Abs(t.price - Last(c)[0].price) <= width then Front(c) + [Last(c) + [t]] else c + [[t]];
    forall i | 1 <= i < |d| ensures Beyond(d, i, width) {
      if i < |c| { assert Beyond(c, i, width) && d[i][0] == c[i][0] && d[i - 1][0] == c[i - 1][0]; }
    }
  }

  /** Range `k` of a cover, `width` wide, contains the price. */
  predicate Covers(covers: seq<real>, k: nat, price: real, width: real) {
    k < |covers| && covers[k] <= price <= covers[k] + width
  }

  lemma {:induction false} AnchorsFarApart(c: seq<seq<Touch>>, width: real, i: nat, j: nat)
    requires i < j < |c| && width > 0.0 && (forall k :: 0 <= k < |c| ==> c[k] != [])
    requires forall k :: 1 <= k < |c| ==> Beyond(c, k, width)
    ensures c[j][0].price > c[i][0].price + width
  {
    assert Beyond(c, j, width);
    if i < j - 1 { AnchorsFarApart(c, width, i, j - 1); }
  }

  /** Some range of the cover contains the price. */
  ghost predicate IsCovered(covers: seq<real>, price: real, width: real) {
    exists k :: Covers(covers, k, price, width)
  }

  /** Pairwise different numbers below `m` are at most `m` many. */
  lemma {:induction false} Pigeonhole(ranges: seq<nat>, m: nat)
    requires forall i :: 0 <= i < |ranges| ==> ranges[i] < m
    requires forall i, j :: 0 <= i < j < |ranges| ==> ranges[i] != ranges[j]
    ensures |ranges| <= m
    decreases m
  {
    if ranges == [] {
    } else if forall i :: 0 <= i < |ranges| ==> ranges[i] != m - 1 {
      assert ranges[0] < m;
      Pigeonhole(ranges, m - 1);
    } else {
      var k :| 0 <= k < |ranges| && ranges[k] == m - 1;
      Pigeonhole(ranges[..k] + ranges[k + 1..], m - 1);
    }
  }

  /** No cover of the touches by ranges of this width gets by with fewer ranges than there are clusters. */
  lemma ClusterCountIsMinimal(ts: seq<Touch>, width: real, covers: seq<real>)
    requires SortedBy(ts, PriceKey) && width > 0.0 && forall t :: t in ts ==> IsCovered(covers, t.price, width)
    ensures |Clusters(ts, width)| <= |covers|
  {
    var c := Clusters(ts, width);
    ClustersAreNarrow(ts, width);
    ClustersPartition(ts, width);
    var ranges := RangesOf(c, width, covers, ts);
    forall i, j | 0 <= i < j < |ranges| ensures ranges[i] != ranges[j] {
      AnchorsFarApart(c, width, i, j);
      assert Covers(covers, ranges[i], c[i][0].price, width) && Covers(covers, ranges[j], c[j][0].price, width);
    }
    Pigeonhole(ranges, |covers|);
  }

  /** A range of the cover for the anchor of every cluster. */
  ghost function RangesOf(c: seq<seq<Touch>>, width: real, covers: seq<real>, ts: seq<Touch>): (r: seq<nat>)
    requires forall t :: t in ts ==> IsCovered(covers, t.price, width)
    requires forall i :: 0 <= i < |c| ==> c[i] != []
    requires forall t :: t in Concat(c) ==> t in ts
    ensures |r| == |c| && forall i :: 0 <= i < |r| ==> r[i] < |covers| && Covers(covers, r[i], c[i][0].price, width)
  {
    if c == [] then []
    else
      MembersOfConcat(c, |c| - 1);
      assert IsCovered(covers, Last(c)[0].price, width);
      var k: nat :| Covers(covers, k, Last(c)[0].price, width);
      RangesOf(Front(c), width, covers, ts) + [k]
  }

  lemma {:induction false} TouchesOnBars(bars: seq<Bar>, start: nat, n: nat)
    requires start <= n <= |bars|
    ensures OnBars(Touches(bars, start, n), bars)
    ensures forall t :: t in Touches(bars, start, n) ==>
        start <= t.idx < n && t.price == if t.high then bars[t.idx].high else bars[t.idx].low
  {
    if start < n { TouchesOnBars(bars, start, n - 1); }
  }

  lemma {:induction false} MembersOfConcat(cs: seq<seq<Touch>>, i: nat)
    requires i < |cs|
    ensures forall t :: t in cs[i] ==> t in Concat(cs)
  {
    if i < |cs| - 1 { MembersOfConcat(Front(cs), i); }
  }

  lemma WindowClustersOnBars(bars: seq<Bar>, tol: real, lookback: int)
    ensures AllOnBars(WindowClusters(bars, tol, lookback), bars)
  {
    hide Clusters, Touches;
    var ts := Touches(bars, Start(bars, lookback), |bars|);
    var sorted, cs := SortBy(ts, PriceKey), WindowClusters(bars, tol, lookback);
    TouchesOnBars(bars, Start(bars, lookback), |bars|);
    SortBySorts(ts, PriceKey);
    SameMembers(sorted, ts);
    ClustersPartition(sorted, tol * 2.0);
    forall i | 0 <= i < |cs| ensures OnBars(cs[i], bars) { MembersOfConcat(cs, i); }
  }

  // ------------------------------------------------------------------ spacing

  /** Positions of touches, in order, whose bars are at least `gap` apart. */
  ghost predicate Spaced(ts: seq<Touch>, pick: seq<nat>, gap: int) {
    && (forall k :: 0 <= k < |pick| ==> pick[k] < |ts|)
    && forall k :: 1 <= k < |pick| ==> SpacedAt(ts, pick, gap, k)
  }

  predicate SpacedAt(ts: seq<Touch>, pick: seq<nat>, gap: int, k: nat)
    requires 1 <= k < |pick| && pick[k] < |ts| && pick[k - 1] < |ts|
  {
    pick[k - 1] < pick[k] && ts[pick[k]].idx - ts[pick[k - 1]].idx >= gap
  }

  /**
   * Greedy spacing is optimal: no choice of touches that far apart is larger, and among the largest none ends
   * earlier than the greedy one.
   */
  lemma {:induction false} GreedySpacingIsOptimal(ts: seq<Touch>, gap: int, pick: seq<nat>)
    requires SortedBy(ts, IndexKey) && gap <= -LONG_AGO && Spaced(ts, pick, gap)
    ensures |pick| <= |Kept(ts, gap)|
    ensures pick != [] && |pick| == |Kept(ts, gap)| ==> ts[Last(pick)].idx >= Last(Kept(ts, gap)).idx
  {
    if pick != [] {
      assert pick[0] < |ts|;
      var before, n := Front(ts), |ts| - 1;
      if Last(pick) == n {
        var p := Front(pick);
        SpacedFront(ts, pick, gap);
        GreedySpacingIsOptimal(before, gap, p);
        if p != [] {
          var k := |pick| - 1;
          assert SpacedAt(ts, pick, gap, k) && Last(p) == pick[k - 1] && before[Last(p)] == ts[pick[k - 1]];
        }
      } else {
        SpacedWithin(ts, pick, gap);
        GreedySpacingIsOptimal(before, gap, pick);
      }
      LastKeptIsEarlier(ts, gap);
    }
  }

  lemma {:induction false} PickIncreases(ts: seq<Touch>, pick: seq<nat>, gap: int, k: nat)
    requires Spaced(ts, pick, gap) && k < |pick|
    ensures pick[k] <= Last(pick) && (k < |pick| - 1 ==> pick[k] < Last(pick))
    decreases |pick| - k
  {
    if k < |pick| - 1 {
      assert SpacedAt(ts, pick, gap, k + 1);
      PickIncreases(ts, pick, gap, k + 1);
    }
  }

  lemma SpacedFront(ts: seq<Touch>, pick: seq<nat>, gap: int)
    requires ts != [] && pick != [] && Last(pick) == |ts| - 1 && Spaced(ts, pick, gap)
    ensures Spaced(Front(ts), Front(pick), gap)
  {
    forall k | 0 <= k < |pick| - 1 ensures pick[k] < |ts| - 1 { PickIncreases(ts, pick, gap, k); }
    forall k | 1 <= k < |pick| - 1
      ensures SpacedAt(Front(ts), Front(pick), gap, k)
    {
      assert SpacedAt(ts, pick, gap, k);
    }
  }

  lemma SpacedWithin(ts: seq<Touch>, pick: seq<nat>, gap: int)
    requires ts != [] && pick != [] && Last(pick) != |ts| - 1 && Spaced(ts, pick, gap)
    ensures Spaced(Front(ts), pick, gap)
  {
    assert pick[|pick| - 1] < |ts|;
    forall k | 0 <= k < |pick| ensures pick[k] < |ts| - 1 { PickIncreases(ts, pick, gap, k); }
    forall k | 1 <= k < |pick| ensures SpacedAt(Front(ts), pick, gap, k) { assert SpacedAt(ts, pick, gap, k); }
  }

  lemma LastKeptIsEarlier(ts: seq<Touch>, gap: int)
    requires ts != [] && SortedBy(ts, IndexKey)
    ensures Kept(ts, gap) != [] ==> Last(Kept(ts, gap)).idx <= Last(ts).idx
  {
    if Kept(ts, gap) != [] {
      KeptAreMembers(ts, gap);
      var t := Last(Kept(ts, gap));
      assert t in Kept(ts, gap);
      var i :| 0 <= i < |ts| && ts[i] == t;
      if i < |ts| - 1 { assert IndexKey(ts[i]) <= IndexKey(ts[|ts| - 1]); }
    }
  }

  ghost predicate FarApart(kept: seq<Touch>, gap: int) {
    forall k :: 1 <= k < |kept| ==> kept[k].idx - kept[k - 1].idx >= gap
  }

  /** The greedy choice is itself spaced. */
  lemma {:induction false} KeptIsSpaced(ts: seq<Touch>, gap: int)
    ensures FarApart(Kept(ts, gap), gap)
  {
    if ts != [] { KeptIsSpaced(Front(ts), gap); }
  }

  // ------------------------------------------------------------------ the median and the levels

  lemma {:induction false} PricesAt(ts: seq<Touch>, i: nat)
    requires i < |ts|
    ensures |Prices(ts)| == |ts| && Prices(ts)[i] == ts[i].price
  {
    if |ts| > 1 && i < |ts| - 1 {
      PricesAt(Front(ts), i);
    } else if |ts| > 1 {
      PricesAt(Front(ts), 0);
    }
  }

  /** The middle of some numbers lies within any bounds they all keep. */
  lemma MedianWithin(xs: seq<real>, low: real, high: real)
    requires xs != [] && forall i :: 0 <= i < |xs| ==> low <= xs[i] <= high
    ensures low <= Median(xs) <= high
  {
    var s := SortBy(xs, ValueKey);
    SortBySorts(xs, ValueKey);
    SameMembers(s, xs);
    forall i | 0 <= i < |s| ensures low <= s[i] <= high { assert s[i] in xs; }
  }

  /** A level is the median of a narrow cluster, so every touch of the cluster is within its width. */
  lemma LevelIsNearItsTouches(cluster: seq<Touch>, bars: seq<Bar>, minTouches: int, gap: int, width: real)
    requires OnBars(cluster, bars) && Narrow(cluster, width) && LevelOf(cluster, bars, minTouches, gap).Some?
    ensures var l := LevelOf(cluster, bars, minTouches, gap).value;
      && cluster[0].price <= l.price <= cluster[0].price + width
      && (forall t :: t in cluster ==> Abs(t.price - l.price) <= width)
      && l.touches >= minTouches && l.touches == |Kept(SortBy(cluster, IndexKey), gap)|
      && (l.isSupport || l.isResistance)
  {
    hide Kept, CountSupport, CountResistance, Median;
    var prices := Prices(cluster);
    forall i | 0 <= i < |cluster|
      ensures |prices| == |cluster| && prices[i] == cluster[i].price
    {
      PricesAt(cluster, i);
    }
    assert |prices| == |cluster| by { PricesAt(cluster, 0); }
    MedianWithin(prices, cluster[0].price, cluster[0].price + width);
  }

  lemma {:induction false} CleanIsUncrowded(levels: seq<Level>, band: real, n: nat)
    requires n <= |levels|
    ensures forall l :: l in Clean(levels, band, n) <==> IsUncrowded(levels, band, n, l)
  {
    if n > 0 {
      CleanIsUncrowded(levels, band, n - 1);
      forall l ensures l in Clean(levels, band, n) <==> IsUncrowded(levels, band, n, l) {
        if l == levels[n - 1] && !Crowded(levels, n - 1, band) { assert IsUncrowded(levels, band, n, l); }
        if IsUncrowded(levels, band, n - 1, l) { assert IsUncrowded(levels, band, n, l); }
      }
    }
  }

  /** The level is one of the first `n` and stands alone in its band. */
  ghost predicate IsUncrowded(levels: seq<Level>, band: real, n: nat, l: Level)
    requires n <= |levels|
  {
    exists i :: 0 <= i < n && levels[i] == l && !Crowded(levels, i, band)
  }

  /** Any two levels that survive are further apart than the band. */
  ghost predicate Apart(levels: seq<Level>, band: real) {
    forall i, j :: 0 <= i < j < |levels| ==> Abs(levels[i].price - levels[j].price) > band
  }

  lemma {:induction false} CleanIsApart(levels: seq<Level>, band: real, n: nat)
    requires n <= |levels|
    ensures Apart(Clean(levels, band, n), band)
  {
    if n > 0 {
      CleanIsApart(levels, band, n - 1);
      var before := Clean(levels, band, n - 1);
      CleanIsUncrowded(levels, band, n - 1);
      if !Crowded(levels, n - 1, band) {
        forall i | 0 <= i < |before| ensures Abs(before[i].price - levels[n - 1].price) > band {
          assert before[i] in before && IsUncrowded(levels, band, n - 1, before[i]);
          var k :| 0 <= k < n - 1 && levels[k] == before[i] && !Crowded(levels, k, band);
        }
      }
    }
  }

  /** Being apart does not depend on the order. */
  lemma ApartInAnyOrder(xs: seq<Level>, ys: seq<Level>, band: real)
    requires Apart(xs, band) && band >= 0.0 && multiset(xs) == multiset(ys)
    ensures Apart(ys, band)
  {
    SameMembers(xs, ys);
    forall i, j | 0 <= i < j < |ys| ensures Abs(ys[i].price - ys[j].price) > band {
      assert ys[i] in xs && ys[j] in xs;
      var a :| 0 <= a < |xs| && xs[a] == ys[i];
      var b :| 0 <= b < |xs| && xs[b] == ys[j];
      if a == b { RepeatedIsTwice(ys, i, j); OnceOnly(xs, a, band); }
    }
  }

  lemma RepeatedIsTwice(ys: seq<Level>, i: nat, j: nat)
    requires i < j < |ys| && ys[i] == ys[j]
    ensures multiset(ys)[ys[i]] >= 2
  {
    assert ys == ys[..j] + [ys[j]] + ys[j + 1..];
    assert ys[i] == ys[..j][i];
  }

  lemma {:induction false} OnceOnly(xs: seq<Level>, a: nat, band: real)
    requires Apart(xs, band) && band >= 0.0 && a < |xs|
    ensures multiset(xs)[xs[a]] == 1
  {
    assert xs == xs[..a] + [xs[a]] + xs[a + 1..];
    forall k | 0 <= k < |xs| && k != a ensures xs[k] != xs[a] {
      if k < a { assert Abs(xs[k].price - xs[a].price) > band; } else { assert Abs(xs[a].price - xs[k].price) > band; }
    }
    assert xs[a] !in xs[..a] && xs[a] !in xs[a + 1..];
  }

  /**
   * The finder's promise: the levels are pairwise further apart than the nearby band, newest first, and each is the
   * level of one of the narrow clusters the touches of the window are cut into.
   */
  lemma LevelsKeepPromise(bars: seq<Bar>, tol: real, lookback: int, minTouches: int, gap: int)
    requires tol > 0.0
    ensures var r := FoundLevels(bars, tol, lookback, minTouches, gap);
      && Apart(r, tol * LEVEL_NEARBY_TOL_MULT) && SortedBy(r, RecencyKey)
      && forall l :: l in r ==> FromSome(l, WindowClusters(bars, tol, lookback), bars, minTouches, gap, tol * 2.0)
  {
    hide WindowClusters, Clean, LevelOf, FromSome, Apart, SortedBy, SortBy, LevelsOf, Crowded, AllOnBars, Narrow;
    if bars != [] {
      var clusters := WindowClusters(bars, tol, lookback);
      WindowClustersOnBars(bars, tol, lookback);
      WindowClustersAreNarrow(bars, tol, lookback);
      var all := LevelsOf(clusters, bars, minTouches, gap);
      var band := tol * LEVEL_NEARBY_TOL_MULT;
      var clean := Clean(all, band, |all|);
      CleanIsApart(all, band, |all|);
      CleanIsUncrowded(all, band, |all|);
      forall l | l in clean ensures l in all { assert IsUncrowded(all, band, |all|, l); }
      SortBySorts(clean, RecencyKey);
      ApartInAnyOrder(clean, SortBy(clean, RecencyKey), band);
      SameMembers(clean, SortBy(clean, RecencyKey));
      LevelsComeFromClusters(clusters, bars, minTouches, gap, tol * 2.0);
    } else {
      assert Apart([], tol * LEVEL_NEARBY_TOL_MULT) && SortedBy<Level>([], RecencyKey) by {
        NothingIsApart(tol * LEVEL_NEARBY_TOL_MULT);
      }
    }
  }

  lemma NothingIsApart(band: real)
    ensures Apart([], band) && SortedBy<Level>([], RecencyKey)
  {
  }

  /** And nothing else is dropped: the finder returns exactly the cluster levels that stand alone in their band. */
  lemma OnlyCrowdedLevelsAreDropped(bars: seq<Bar>, tol: real, lookback: int, minTouches: int, gap: int)
    requires tol > 0.0 && bars != []
    ensures AllOnBars(WindowClusters(bars, tol, lookback), bars)
    ensures var all := LevelsOf(WindowClusters(bars, tol, lookback), bars, minTouches, gap);
      forall l :: l in FoundLevels(bars, tol, lookback, minTouches, gap)
                  <==> IsUncrowded(all, tol * LEVEL_NEARBY_TOL_MULT, |all|, l)
  {
    hide WindowClusters, LevelOf, IsUncrowded, LevelsOf, Crowded, AllOnBars;
    WindowClustersOnBars(bars, tol, lookback);
    var all := LevelsOf(WindowClusters(bars, tol, lookback), bars, minTouches, gap);
    var band := tol * LEVEL_NEARBY_TOL_MULT;
    CleanIsUncrowded(all, band, |all|);
    SortBySorts(Clean(all, band, |all|), RecencyKey);
    SameMembers(Clean(all, band, |all|), SortBy(Clean(all, band, |all|), RecencyKey));
  }

  /** The level is that of the cluster, which is on the bars and narrow. */
  ghost predicate FromCluster(l: Level, cluster: seq<Touch>, bars: seq<Bar>, minTouches: int, gap: int, width: real) {
    OnBars(cluster, bars) && Narrow(cluster, width) && LevelOf(cluster, bars, minTouches, gap) == Some(l)
  }

  ghost predicate FromSome(l: Level, clusters: seq<seq<Touch>>, bars: seq<Bar>, minTouches: int, gap: int,
                           width: real)
  {
    exists i :: 0 <= i < |clusters| && FromCluster(l, clusters[i], bars, minTouches, gap, width)
  }

  lemma WindowClustersAreNarrow(bars: seq<Bar>, tol: real, lookback: int)
    requires tol > 0.0
    ensures forall i :: 0 <= i < |WindowClusters(bars, tol, lookback)| ==>
        Narrow(WindowClusters(bars, tol, lookback)[i], tol * 2.0)
  {
    hide Clusters, Touches, Narrow;
    var ts := Touches(bars, Start(bars, lookback), |bars|);
    SortBySorts(ts, PriceKey);
    ClustersAreNarrow(SortBy(ts, PriceKey), tol * 2.0);
    assert WindowClusters(bars, tol, lookback) == Clusters(SortBy(ts, PriceKey), tol * 2.0);
  }

  lemma {:induction false} LevelsComeFromClusters(clusters: seq<seq<Touch>>, bars: seq<Bar>, minTouches: int,
                                                  gap: int, width: real)
    requires AllOnBars(clusters, bars) && forall i :: 0 <= i < |clusters| ==> Narrow(clusters[i], width)
    ensures forall l :: l in LevelsOf(clusters, bars, minTouches, gap) ==>
        FromSome(l, clusters, bars, minTouches, gap, width)
  {
    hide LevelOf, Narrow;
    if clusters != [] {
      var before := Front(clusters);
      LevelsComeFromClusters(before, bars, minTouches, gap, width);
      forall l | l in LevelsOf(clusters, bars, minTouches, gap)
        ensures FromSome(l, clusters, bars, minTouches, gap, width)
      {
        if l in LevelsOf(before, bars, minTouches, gap) {
          assert FromSome(l, before, bars, minTouches, gap, width);
          var i :| 0 <= i < |before| && FromCluster(l, before[i], bars, minTouches, gap, width);
          assert clusters[i] == before[i];
        } else {
          assert FromCluster(l, clusters[|clusters| - 1], bars, minTouches, gap, width);
        }
      }
    }
  }

  // ------------------------------------------------------------------ the loops

  method CollectTouches(bars: seq<Bar>, start: nat) returns (ts: seq<Touch>)
    requires start <= |bars|
    ensures ts == Touches(bars, start, |bars|)
  {
    ts := [];
    for j := start to |bars|
      invariant ts == Touches(bars, start, j)
    {
      ts := ts + [Touch(bars[j].high, j, true)];
      ts := ts + [Touch(bars[j].low, j, false)];
      assert ts == Touches(bars, start, j) + [Touch(bars[j].high, j, true), Touch(bars[j].low, j, false)];
    }
  }

  method ClusterTouches(ts: seq<Touch>, width: real) returns (clusters: seq<seq<Touch>>)
    ensures clusters == Clusters(ts, width)
  {
    clusters := [];
    assert ts[..0] == [];
    for i := 0 to |ts|
      invariant clusters == Clusters(ts[..i], width)
    {
      assert Front(ts[..i + 1]) == ts[..i] && Last(ts[..i + 1]) == ts[i];
      var k := |clusters| - 1;
      if clusters != [] && Abs(ts[i].price - clusters[k][0].price) <= width {
        clusters := clusters[k := clusters[k] + [ts[i]]];
        assert clusters == Front(Clusters(ts[..i], width)) + [Last(Clusters(ts[..i], width)) + [ts[i]]];
      } else {
        clusters := clusters + [[ts[i]]];
      }
    }
    assert ts[..|ts|] == ts;
  }

  method KeepSpaced(ts: seq<Touch>, gap: int) returns (kept: seq<Touch>)
    ensures kept == Kept(ts, gap)
  {
    kept := [];
    var lastIdx := LONG_AGO;
    assert ts[..0] == [];
    for i := 0 to |ts|
      invariant kept == Kept(ts[..i], gap) && lastIdx == LastIndex(kept)
    {
      assert Front(ts[..i + 1]) == ts[..i];
      if ts[i].idx - lastIdx >= gap {
        kept := kept + [ts[i]];
        lastIdx := ts[i].idx;
      }
    }
    assert ts[..|ts|] == ts;
  }

  method CountSides(kept: seq<Touch>, bars: seq<Bar>, centre: real) returns (support: nat, resistance: nat)
    requires OnBars(kept, bars)
    ensures support == CountSupport(kept, bars, centre) && resistance == CountResistance(kept, bars, centre)
  {
    support, resistance := 0, 0;
    assert kept[..0] == [];
    for i := 0 to |kept|
      invariant OnBars(kept[..i], bars)
      invariant support == CountSupport(kept[..i], bars, centre)
          && resistance == CountResistance(kept[..i], bars, centre)
    {
      assert Front(kept[..i + 1]) == kept[..i] && Last(kept[..i + 1]) == kept[i] && kept[i] in kept;
      var bar := bars[kept[i].idx];
      if !kept[i].high && bar.close > centre {
        support := support + 1;
      } else if kept[i].high && bar.close < centre {
        resistance := resistance + 1;
      }
    }
    assert kept[..|kept|] == kept;
  }

  method MakeLevel(cluster: seq<Touch>, bars: seq<Bar>, minTouches: int, gap: int) returns (l: Option<Level>)
    requires OnBars(cluster, bars)
    ensures l == LevelOf(cluster, bars, minTouches, gap)
  {
    hide Median, Kept, CountSupport, CountResistance;
    var centre := Median(Prices(cluster));
    var kept := KeepSpaced(SortBy(cluster, IndexKey), gap);
    KeptFromCluster(cluster, gap);
    if |kept| < minTouches { return None; }
    var support, resistance := CountSides(kept, bars, centre);
    if !(support >= 2 || resistance >= 2) { return None; }
    SomeCounted(kept, bars, centre);
    assert Last(kept) in kept;
    l := Some(Level(centre, |kept|, support >= 2, resistance >= 2, Last(kept).idx, bars[Last(kept).idx].time));
  }

  method DropCrowded(levels: seq<Level>, band: real) returns (clean: seq<Level>)
    ensures clean == Clean(levels, band, |levels|)
  {
    clean := [];
    for i := 0 to |levels|
      invariant clean == Clean(levels, band, i)
    {
      var crowded := false;
      var j := 0;
      while j < |levels|
        invariant 0 <= j <= |levels|
        invariant crowded <==> exists k :: 0 <= k < j && k != i && Abs(levels[i].price - levels[k].price) <= band
      {
        if j != i && Abs(levels[i].price - levels[j].price) <= band { crowded := true; }
        j := j + 1;
      }
      if !crowded { clean := clean + [levels[i]]; }
    }
  }

  method FindSrLevels(bars: seq<Bar>, pip: real, atrPips: Option<real>, lookback: int, minTouches: int, gap: int)
    returns (levels: seq<Level>)
    ensures levels == FoundLevels(bars, Tolerance(atrPips, pip), lookback, minTouches, gap)
  {
    hide Clusters, Touches, LevelOf, Clean;
    var tol := Tolerance(atrPips, pip);
    if |bars| == 0 || tol <= 0.0 { return []; }
    var touches := CollectTouches(bars, Start(bars, lookback));
    var clusters := ClusterTouches(SortBy(touches, PriceKey), tol * 2.0);
    WindowClustersOnBars(bars, tol, lookback);
    var all := LevelsFrom(clusters, bars, minTouches, gap);
    var clean := DropCrowded(all, tol * LEVEL_NEARBY_TOL_MULT);
    levels := SortBy(clean, RecencyKey);
  }

  method LevelsFrom(clusters: seq<seq<Touch>>, bars: seq<Bar>, minTouches: int, gap: int) returns (all: seq<Level>)
    requires AllOnBars(clusters, bars)
    ensures all == LevelsOf(clusters, bars, minTouches, gap)
  {
    hide LevelOf;
    all := [];
    assert clusters[..0] == [];
    for i := 0 to |clusters|
      invariant AllOnBars(clusters[..i], bars) && all == LevelsOf(clusters[..i], bars, minTouches, gap)
    {
      assert Front(clusters[..i + 1]) == clusters[..i];
      var l := MakeLevel(clusters[i], bars, minTouches, gap);
      if l.Some? { all := all + [l.value]; }
    }
    assert clusters[..|clusters|] == clusters;
  }

  // ------------------------------------------------------------------ the bar at a time

  /** The largest index whose bar opens at or before the time, or -1. */
  method HtfIndexAtOrBefore(bars: seq<Bar>, time: int) returns (ans: int)
    requires forall i, j :: 0 <= i < j < |bars| ==> bars[i].time <= bars[j].time
    ensures -1 <= ans < |bars|
    ensures forall i :: 0 <= i < |bars| ==> (bars[i].time <= time <==> i <= ans)
  {
    var lo, hi := 0, |bars| - 1;
    ans := -1;
    while lo <= hi
      invariant 0 <= lo && hi < |bars| && ans == lo - 1 && hi >= lo - 1
      invariant forall i :: 0 <= i < lo ==> bars[i].time <= time
      invariant forall i :: hi < i < |bars| ==> bars[i].time > time
      decreases hi - lo
    {
      var mid := (lo + hi) / 2;
      if bars[mid].time <= time {
        ans := mid;
        lo := mid + 1;
      } else {
        hi := mid - 1;
      }
    }
  }
}
