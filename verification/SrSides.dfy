/** What a level of the finder means, in terms of the wicks and closes of the bars in its window. */
module SrSides {
  import opened Common
  import opened Market
  import opened Sorting
  import opened SrLevels

  // ------------------------------------------------------------------ the median

  function Below(xs: seq<real>, m: real): nat {
    if xs == [] then 0 else Below(Front(xs), m) + if Last(xs) < m then 1 else 0
  }

  function Above(xs: seq<real>, m: real): nat {
    if xs == [] then 0 else Above(Front(xs), m) + if Last(xs) > m then 1 else 0
  }

  lemma {:induction false} InsertCounts(xs: seq<real>, x: real, m: real)
    ensures Below(Insert(xs, x, ValueKey), m) == Below(xs, m) + if x < m then 1 else 0
    ensures Above(Insert(xs, x, ValueKey), m) == Above(xs, m) + if x > m then 1 else 0
  {
    if xs != [] && ValueKey(Last(xs)) > ValueKey(x) {
      InsertCounts(Front(xs), x, m);
      assert Front(Insert(Front(xs), x, ValueKey) + [Last(xs)]) == Insert(Front(xs), x, ValueKey);
    } else {
      assert Front(xs + [x]) == xs;
    }
  }

  lemma {:induction false} SortingCounts(xs: seq<real>, m: real)
    ensures Below(SortBy(xs, ValueKey), m) == Below(xs, m) && Above(SortBy(xs, ValueKey), m) == Above(xs, m)
  {
    if xs != [] {
      SortingCounts(Front(xs), m);
      InsertCounts(SortBy(Front(xs), ValueKey), Last(xs), m);
    }
  }

  lemma {:induction false} FewBelow(s: seq<real>, m: real, k: nat)
    requires k <= |s| && forall i :: k <= i < |s| ==> s[i] >= m
    ensures Below(s, m) <= k
  {
    if |s| > k { FewBelow(Front(s), m, k); } else if s != [] { FewBelow(Front(s), m, |s| - 1); }
  }

  lemma {:induction false} FewAbove(s: seq<real>, m: real, k: nat)
    requires k <= |s| && forall i :: 0 <= i < k ==> s[i] <= m
    ensures Above(s, m) <= |s| - k
  {
    if |s| > k { FewAbove(Front(s), m, k); } else if s != [] { FewAbove(Front(s), m, |s| - 1); }
  }

  /** Sorted values around a number between the middle ones. */
  lemma SortedSplits(s: seq<real>, m: real)
    requires s != [] && forall i, j :: 0 <= i <= j < |s| ==> s[i] <= s[j]
    requires s[(|s| - 1) / 2] <= m <= s[|s| / 2]
    ensures 2 * Below(s, m) <= |s| && 2 * Above(s, m) <= |s|
  {
    hide Below, Above;
    var low, mid := (|s| - 1) / 2, |s| / 2;
    forall i | mid <= i < |s| ensures s[i] >= m { assert s[mid] <= s[i]; }
    forall i | 0 <= i < low + 1 ensures s[i] <= m { assert s[i] <= s[low]; }
    FewBelow(s, m, mid);
    FewAbove(s, m, low + 1);
  }

  lemma SortedValues(xs: seq<real>)
    ensures forall i, j :: 0 <= i <= j < |xs| ==> SortBy(xs, ValueKey)[i] <= SortBy(xs, ValueKey)[j]
  {
    SortBySorts(xs, ValueKey);
    var s := SortBy(xs, ValueKey);
    forall i, j | 0 <= i <= j < |xs| ensures s[i] <= s[j] {
      if i < j { assert ValueKey(s[i]) <= ValueKey(s[j]); }
    }
  }

  lemma MedianIsBetween(xs: seq<real>)
    requires xs != []
    ensures var s, m := SortBy(xs, ValueKey), Median(xs);
      |s| == |xs| && s[(|s| - 1) / 2] <= m <= s[|s| / 2]
  {
    hide SortBy;
    SortedValues(xs);
    var s := SortBy(xs, ValueKey);
    assert s[(|s| - 1) / 2] <= s[|s| / 2];
  }

  /** At most half of the values lie below the median, and at most half above. */
  lemma MedianSplits(xs: seq<real>)
    ensures 2 * Below(xs, Median(xs)) <= |xs| && 2 * Above(xs, Median(xs)) <= |xs|
  {
    hide Median, SortBy;
    if xs == [] {
    } else {
      SortedValues(xs);
      MedianIsBetween(xs);
      SortedSplits(SortBy(xs, ValueKey), Median(xs));
    }
    SortingCounts(xs, Median(xs));
  }

  // ------------------------------------------------------------------ the sides

  /** Two of these touches are lows of bars that closed above the price. */
  ghost predicate HeldTwice(ts: seq<Touch>, bars: seq<Bar>, price: real)
    requires OnBars(ts, bars)
  {
    exists i, j :: 0 <= i < j < |ts| && HeldAt(ts, bars, price, i) && HeldAt(ts, bars, price, j)
  }

  predicate HeldAt(ts: seq<Touch>, bars: seq<Bar>, price: real, i: nat)
    requires i < |ts| && OnBars(ts, bars)
  {
    assert ts[i] in ts;
    !ts[i].high && bars[ts[i].idx].close > price
  }

  /** Two of these touches are highs of bars that closed below the price. */
  ghost predicate TurnedTwice(ts: seq<Touch>, bars: seq<Bar>, price: real)
    requires OnBars(ts, bars)
  {
    exists i, j :: 0 <= i < j < |ts| && TurnedAt(ts, bars, price, i) && TurnedAt(ts, bars, price, j)
  }

  predicate TurnedAt(ts: seq<Touch>, bars: seq<Bar>, price: real, i: nat)
    requires i < |ts| && OnBars(ts, bars)
  {
    assert ts[i] in ts;
    ts[i].high && bars[ts[i].idx].close < price
  }

  lemma {:induction false} SupportCounted(ts: seq<Touch>, bars: seq<Bar>, price: real)
    requires OnBars(ts, bars)
    ensures CountSupport(ts, bars, price) >= 1 <==> exists i :: 0 <= i < |ts| && HeldAt(ts, bars, price, i)
    ensures CountSupport(ts, bars, price) >= 2 <==> HeldTwice(ts, bars, price)
  {
    if ts != [] {
      var front, n := Front(ts), |ts| - 1;
      SupportCounted(front, bars, price);
      assert HeldAt(ts, bars, price, n) <==> Supports(Last(ts), bars, price);
      assert forall i :: 0 <= i < n ==> (HeldAt(ts, bars, price, i) <==> HeldAt(front, bars, price, i));
    }
  }

  lemma {:induction false} ResistanceCounted(ts: seq<Touch>, bars: seq<Bar>, price: real)
    requires OnBars(ts, bars)
    ensures CountResistance(ts, bars, price) >= 1 <==> exists i :: 0 <= i < |ts| && TurnedAt(ts, bars, price, i)
    ensures CountResistance(ts, bars, price) >= 2 <==> TurnedTwice(ts, bars, price)
  {
    if ts != [] {
      var front, n := Front(ts), |ts| - 1;
      ResistanceCounted(front, bars, price);
      assert TurnedAt(ts, bars, price, n) <==> Resists(Last(ts), bars, price);
      assert forall i :: 0 <= i < n ==> (TurnedAt(ts, bars, price, i) <==> TurnedAt(front, bars, price, i));
    }
  }

  // ------------------------------------------------------------------ a level

  /** A wick end of a bar of the window. */
  predicate IsWick(t: Touch, bars: seq<Bar>, lookback: int) {
    && |bars| - lookback <= t.idx < |bars|
    && t.price == if t.high then bars[t.idx].high else bars[t.idx].low
  }

  /**
   * What a level says of the cluster it was made of and of the touches kept of that: where they are, that they are
   * wicks of the window, how far apart, how many, which is the last, and what the bars they belong to did.
   */
  ghost predicate Means(l: Level, cluster: seq<Touch>, kept: seq<Touch>, bars: seq<Bar>, tol: real, lookback: int,
                        minTouches: int, gap: int)
    requires OnBars(kept, bars)
  {
    && (forall t :: t in cluster ==> IsWick(t, bars, lookback) && Abs(t.price - l.price) <= 2.0 * tol)
    && 2 * Below(Prices(cluster), l.price) <= |cluster| && 2 * Above(Prices(cluster), l.price) <= |cluster|
    && kept != [] && (forall t :: t in kept ==> t in cluster) && FarApart(kept, gap)
    && l.touches == |kept| >= minTouches && l.lastIdx == Last(kept).idx
    && l.lastIdx < |bars| && l.lastTime == bars[l.lastIdx].time
    && (l.isSupport <==> HeldTwice(kept, bars, l.price)) && (l.isResistance <==> TurnedTwice(kept, bars, l.price))
    && (l.isSupport || l.isResistance)
  }

  lemma WindowTouchesAreWicks(bars: seq<Bar>, tol: real, lookback: int, i: nat)
    requires i < |WindowClusters(bars, tol, lookback)|
    ensures forall t :: t in WindowClusters(bars, tol, lookback)[i] ==> IsWick(t, bars, lookback)
  {
    hide Clusters, Touches;
    var ts := Touches(bars, Start(bars, lookback), |bars|);
    var sorted := SortBy(ts, PriceKey);
    TouchesOnBars(bars, Start(bars, lookback), |bars|);
    SortBySorts(ts, PriceKey);
    SameMembers(sorted, ts);
    ClustersPartition(sorted, tol * 2.0);
    MembersOfConcat(WindowClusters(bars, tol, lookback), i);
  }

  lemma LevelMeans(cluster: seq<Touch>, bars: seq<Bar>, tol: real, lookback: int, minTouches: int, gap: int)
    requires OnBars(cluster, bars) && Narrow(cluster, 2.0 * tol) && LevelOf(cluster, bars, minTouches, gap).Some?
    requires forall t :: t in cluster ==> IsWick(t, bars, lookback)
    ensures exists kept: seq<Touch> ::
      && OnBars(kept, bars)
      && Means(LevelOf(cluster, bars, minTouches, gap).value, cluster, kept, bars, tol, lookback, minTouches, gap)
  {
    hide Kept, CountSupport, CountResistance, Median, IsWick, HeldTwice, TurnedTwice;
    hide SortBy, Below, Above, Narrow, FarApart;
    var l, kept := LevelOf(cluster, bars, minTouches, gap).value, Kept(SortBy(cluster, IndexKey), gap);
    LevelIsNearItsTouches(cluster, bars, minTouches, gap, 2.0 * tol);
    KeptFromCluster(cluster, gap);
    KeptIsSpaced(SortBy(cluster, IndexKey), gap);
    SupportCounted(kept, bars, l.price);
    ResistanceCounted(kept, bars, l.price);
    MedianSplits(Prices(cluster));
    PricesAt(cluster, 0);
    SomeCounted(kept, bars, l.price);
    assert Last(kept) in kept;
    assert OnBars(kept, bars);
  }

  /** A cluster makes a level exactly when enough spaced touches remain and two of them held or turned the price. */
  lemma MakesLevelExactly(cluster: seq<Touch>, bars: seq<Bar>, minTouches: int, gap: int)
    requires OnBars(cluster, bars)
    ensures var kept := Kept(SortBy(cluster, IndexKey), gap);
      && OnBars(kept, bars)
      && (LevelOf(cluster, bars, minTouches, gap).Some? <==>
            && |kept| >= minTouches
            && (HeldTwice(kept, bars, Median(Prices(cluster))) || TurnedTwice(kept, bars, Median(Prices(cluster)))))
  {
    hide Kept, CountSupport, CountResistance, Median, HeldTwice, TurnedTwice;
    var kept, price := Kept(SortBy(cluster, IndexKey), gap), Median(Prices(cluster));
    KeptFromCluster(cluster, gap);
    SupportCounted(kept, bars, price);
    ResistanceCounted(kept, bars, price);
  }

  /** The tolerance is three pips, or a fifth of the average range when that is more. */
  lemma ToleranceIs(atrPips: Option<real>, pip: real)
    requires pip > 0.0
    ensures Tolerance(atrPips, pip) ==
        if atrPips.Some? && 0.2 * atrPips.value > 3.0 then 0.2 * atrPips.value * pip else 3.0 * pip
  {
  }

  /**
   * Every level the finder returns is the middle of a cluster of wicks of its window; its count, its last bar and its
   * sides are those of touches kept of them.
   */
  lemma LevelsMean(bars: seq<Bar>, tol: real, lookback: int, minTouches: int, gap: int, l: Level)
    requires tol > 0.0 && l in FoundLevels(bars, tol, lookback, minTouches, gap)
    ensures exists cluster: seq<Touch>, kept: seq<Touch> ::
      && cluster in WindowClusters(bars, tol, lookback) && OnBars(kept, bars)
      && Means(l, cluster, kept, bars, tol, lookback, minTouches, gap)
  {
    hide WindowClusters, FoundLevels, LevelOf, Narrow, Means, IsWick, Apart, SortedBy;
    LevelsKeepPromise(bars, tol, lookback, minTouches, gap);
    var clusters := WindowClusters(bars, tol, lookback);
    var i :| 0 <= i < |clusters| && FromCluster(l, clusters[i], bars, minTouches, gap, tol * 2.0);
    WindowTouchesAreWicks(bars, tol, lookback, i);
    LevelMeans(clusters[i], bars, tol, lookback, minTouches, gap);
  }

  /** Level `i` of these is further than the band from every other. */
  ghost predicate Alone(levels: seq<Level>, band: real, i: nat)
    requires i < |levels|
  {
    forall j :: 0 <= j < |levels| && j != i ==>
      levels[j].price > levels[i].price + band || levels[j].price < levels[i].price - band
  }

  lemma UncrowdedIsAlone(levels: seq<Level>, band: real, i: nat)
    requires i < |levels|
    ensures Crowded(levels, i, band) <==> !Alone(levels, band, i)
  {
    forall j | 0 <= j < |levels|
      ensures Abs(levels[i].price - levels[j].price) <= band <==>
              !(levels[j].price > levels[i].price + band || levels[j].price < levels[i].price - band)
    {
    }
  }

  // ------------------------------------------------------------------ which clusters, which levels

  /** Where the level of cluster `i` stands among the levels, if it makes one. */
  function Rank(clusters: seq<seq<Touch>>, bars: seq<Bar>, minTouches: int, gap: int, i: nat): nat
    requires AllOnBars(clusters, bars) && i <= |clusters|
  {
    |LevelsOf(clusters[..i], bars, minTouches, gap)|
  }

  predicate MakesLevel(clusters: seq<seq<Touch>>, bars: seq<Bar>, minTouches: int, gap: int, i: nat)
    requires AllOnBars(clusters, bars) && i < |clusters|
  {
    LevelOf(clusters[i], bars, minTouches, gap).Some?
  }

  lemma RankStep(clusters: seq<seq<Touch>>, bars: seq<Bar>, minTouches: int, gap: int, i: nat)
    requires AllOnBars(clusters, bars) && i < |clusters|
    ensures Rank(clusters, bars, minTouches, gap, i + 1)
         == Rank(clusters, bars, minTouches, gap, i) + if MakesLevel(clusters, bars, minTouches, gap, i) then 1 else 0
    ensures LevelsOf(clusters[..i + 1], bars, minTouches, gap) == LevelsOf(clusters[..i], bars, minTouches, gap)
         + if MakesLevel(clusters, bars, minTouches, gap, i)
           then [LevelOf(clusters[i], bars, minTouches, gap).value] else []
  {
    hide LevelOf;
    assert Front(clusters[..i + 1]) == clusters[..i];
  }

  lemma {:induction false} RankRises(clusters: seq<seq<Touch>>, bars: seq<Bar>, minTouches: int, gap: int, i: nat,
                                     j: nat)
    requires AllOnBars(clusters, bars) && i < j <= |clusters| && MakesLevel(clusters, bars, minTouches, gap, i)
    ensures Rank(clusters, bars, minTouches, gap, i) < Rank(clusters, bars, minTouches, gap, j)
    ensures LevelsOf(clusters[..j], bars, minTouches, gap)[Rank(clusters, bars, minTouches, gap, i)]
         == LevelOf(clusters[i], bars, minTouches, gap).value
  {
    hide LevelOf, LevelsOf;
    RankStep(clusters, bars, minTouches, gap, j - 1);
    if i < j - 1 { RankRises(clusters, bars, minTouches, gap, i, j - 1); }
  }

  /** Every level comes from a cluster. */
  lemma {:induction false} RankReaches(clusters: seq<seq<Touch>>, bars: seq<Bar>, minTouches: int, gap: int, n: nat,
                                       p: nat)
    returns (i: nat)
    requires AllOnBars(clusters, bars) && n <= |clusters| && p < Rank(clusters, bars, minTouches, gap, n)
    ensures i < n && MakesLevel(clusters, bars, minTouches, gap, i) && Rank(clusters, bars, minTouches, gap, i) == p
  {
    hide LevelOf;
    if n == 0 {
      assert false;
    } else {
      RankStep(clusters, bars, minTouches, gap, n - 1);
      if p < Rank(clusters, bars, minTouches, gap, n - 1) {
        i := RankReaches(clusters, bars, minTouches, gap, n - 1, p);
      } else {
        i := n - 1;
      }
    }
  }

  /** Cluster `i` makes a level, and the levels of all others are further from it than the band. */
  ghost predicate Lone(clusters: seq<seq<Touch>>, bars: seq<Bar>, minTouches: int, gap: int, band: real, i: nat)
    requires AllOnBars(clusters, bars) && i < |clusters|
  {
    && MakesLevel(clusters, bars, minTouches, gap, i)
    && forall j :: 0 <= j < |clusters| && j != i && MakesLevel(clusters, bars, minTouches, gap, j) ==>
         var l := LevelOf(clusters[i], bars, minTouches, gap).value;
         var o := LevelOf(clusters[j], bars, minTouches, gap).value;
         o.price > l.price + band || o.price < l.price - band
  }

  lemma AloneIsLone(clusters: seq<seq<Touch>>, bars: seq<Bar>, minTouches: int, gap: int, band: real, i: nat)
    requires AllOnBars(clusters, bars) && i < |clusters| && MakesLevel(clusters, bars, minTouches, gap, i)
    ensures var all, p := LevelsOf(clusters, bars, minTouches, gap), Rank(clusters, bars, minTouches, gap, i);
      && p < |all| && all[p] == LevelOf(clusters[i], bars, minTouches, gap).value
      && (Alone(all, band, p) <==> Lone(clusters, bars, minTouches, gap, band, i))
  {
    hide LevelOf, LevelsOf;
    var n, all, p := |clusters|, LevelsOf(clusters, bars, minTouches, gap), Rank(clusters, bars, minTouches, gap, i);
    assert clusters[..n] == clusters;
    RankRises(clusters, bars, minTouches, gap, i, n);
    if Lone(clusters, bars, minTouches, gap, band, i) {
      forall q | 0 <= q < |all| && q != p
        ensures all[q].price > all[p].price + band || all[q].price < all[p].price - band
      {
        var j := RankReaches(clusters, bars, minTouches, gap, n, q);
        RankRises(clusters, bars, minTouches, gap, j, n);
      }
    }
    if Alone(all, band, p) {
      forall j | 0 <= j < n && j != i && MakesLevel(clusters, bars, minTouches, gap, j)
        ensures var o := LevelOf(clusters[j], bars, minTouches, gap).value;
          o.price > all[p].price + band || o.price < all[p].price - band
      {
        RankRises(clusters, bars, minTouches, gap, j, n);
        if i < j {
          RankRises(clusters, bars, minTouches, gap, i, j);
        } else {
          RankRises(clusters, bars, minTouches, gap, j, i);
        }
      }
    }
  }

  lemma {:induction false} TouchesHold(bars: seq<Bar>, start: nat, n: nat, j: nat)
    requires start <= j < n <= |bars|
    ensures Touch(bars[j].high, j, true) in Touches(bars, start, n)
    ensures Touch(bars[j].low, j, false) in Touches(bars, start, n)
  {
    if j < n - 1 { TouchesHold(bars, start, n - 1, j); }
  }

  lemma {:induction false} InSomePiece(cs: seq<seq<Touch>>, t: Touch)
    requires t in Concat(cs)
    ensures exists i :: 0 <= i < |cs| && t in cs[i]
  {
    if t in Last(cs) {
      assert t in cs[|cs| - 1];
    } else {
      InSomePiece(Front(cs), t);
      var i :| 0 <= i < |Front(cs)| && t in Front(cs)[i];
      assert t in cs[i];
    }
  }

  /** Both wick ends of every bar of the window are in some cluster. */
  lemma WindowIsClustered(bars: seq<Bar>, tol: real, lookback: int, j: nat)
    requires j < |bars| && j >= |bars| - lookback
    ensures exists i :: 0 <= i < |WindowClusters(bars, tol, lookback)|
                        && Touch(bars[j].high, j, true) in WindowClusters(bars, tol, lookback)[i]
    ensures exists i :: 0 <= i < |WindowClusters(bars, tol, lookback)|
                        && Touch(bars[j].low, j, false) in WindowClusters(bars, tol, lookback)[i]
  {
    hide Clusters, Touches;
    var ts := Touches(bars, Start(bars, lookback), |bars|);
    TouchesHold(bars, Start(bars, lookback), |bars|, j);
    SortBySorts(ts, PriceKey);
    SameMembers(SortBy(ts, PriceKey), ts);
    ClustersPartition(SortBy(ts, PriceKey), tol * 2.0);
    InSomePiece(WindowClusters(bars, tol, lookback), Touch(bars[j].high, j, true));
    InSomePiece(WindowClusters(bars, tol, lookback), Touch(bars[j].low, j, false));
  }

  /**
   * The finder returns the level of every cluster that no other level comes within three tolerances of, and no more.
   */
  lemma LoneLevelsAreFound(bars: seq<Bar>, tol: real, lookback: int, minTouches: int, gap: int, l: Level)
    requires tol > 0.0 && bars != []
    ensures var cs := WindowClusters(bars, tol, lookback);
      && AllOnBars(cs, bars)
      && (l in FoundLevels(bars, tol, lookback, minTouches, gap) <==>
            exists i :: 0 <= i < |cs| && Lone(cs, bars, minTouches, gap, 3.0 * tol, i)
                        && LevelOf(cs[i], bars, minTouches, gap) == Some(l))
  {
    hide WindowClusters, LevelsOf, FoundLevels, Alone, Crowded, LevelOf, Lone, OnBars;
    OnlyCrowdedLevelsAreDropped(bars, tol, lookback, minTouches, gap);
    var cs, band := WindowClusters(bars, tol, lookback), 3.0 * tol;
    var all := LevelsOf(cs, bars, minTouches, gap);
    assert cs[..|cs|] == cs;
    forall p | 0 <= p < |all| ensures Crowded(all, p, band) <==> !Alone(all, band, p) {
      UncrowdedIsAlone(all, band, p);
    }
    if l in FoundLevels(bars, tol, lookback, minTouches, gap) {
      var p :| 0 <= p < |all| && all[p] == l && !Crowded(all, p, band);
      var i := RankReaches(cs, bars, minTouches, gap, |cs|, p);
      AloneIsLone(cs, bars, minTouches, gap, band, i);
    }
    forall i | 0 <= i < |cs| && Lone(cs, bars, minTouches, gap, band, i)
               && LevelOf(cs[i], bars, minTouches, gap) == Some(l)
      ensures l in FoundLevels(bars, tol, lookback, minTouches, gap)
    {
      AloneIsLone(cs, bars, minTouches, gap, band, i);
      assert IsUncrowded(all, band, |all|, l);
    }
  }
}
