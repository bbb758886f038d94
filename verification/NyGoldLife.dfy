/**
 * The life of an NY Gold level: found at a swing of the 15M bars, burned when a 1M bar has pierced it or price has been
 * near it too long, and signalled only while neither has happened. The comparisons are written out here.
 */
module NyGoldLife {
  import opened Clock
  import opened Common
  import opened NyGoldData
  import opened NyGoldDetector
  import opened NyGoldLevels

  // ------------------------------------------------------------------ the conditions

  /** A low below the lows, or a high above the highs, of the two bars on each side. */
  predicate IsExtreme(bars: seq<GoldBar>, i: nat, dir: Direction) {
    && 2 <= i && i + 2 < |bars|
    && match dir
       case Buy =>
         && bars[i].low < bars[i - 2].low && bars[i].low < bars[i - 1].low
         && bars[i].low < bars[i + 1].low && bars[i].low < bars[i + 2].low
       case Sell =>
         && bars[i].high > bars[i - 2].high && bars[i].high > bars[i - 1].high
         && bars[i].high > bars[i + 1].high && bars[i].high > bars[i + 2].high
  }

  function KeyAt(bars: seq<GoldBar>, i: nat, dir: Direction): Key
    requires i < |bars|
  {
    (if dir.Buy? then bars[i].low else bars[i].high, bars[i].time)
  }

  /** The search looks at the last eighty bars, as far as their swings are confirmed, of the last eight hours. */
  predicate InReach(v15: Frame, i: nat, t: int) {
    2 <= i && i + 2 < |v15.bars| && i + 80 >= |v15.bars| && v15.bars[i].time >= t - 8 * HOUR_MS
  }

  /** A bar that opened between these times lies more than half a pip beyond the price. */
  ghost predicate Pierced(v1: Frame, price: real, dir: Direction, from: int, t: int) {
    exists k :: 0 <= k < |v1.bars| && from <= v1.bars[k].time <= t
      && match dir case Buy => v1.bars[k].low < price - 0.5 case Sell => v1.bars[k].high > price + 0.5
  }

  /** A 1M bar has pierced the swing since the close of the bar that confirmed it. */
  ghost predicate PiercedAt(v1: Frame, v15: Frame, i: nat, dir: Direction, t: int)
    requires i + 2 < |v15.bars|
  {
    Pierced(v1, KeyAt(v15.bars, i, dir).0, dir, v15.bars[i + 2].time + v15.barMs, t)
  }

  /** The last 5M bar has come within a pip and a half of the price. */
  predicate Near(v5: Frame, price: real, dir: Direction) {
    && v5.bars != []
    && match dir case Buy => Last(v5.bars).low <= price + 1.5 case Sell => Last(v5.bars).high >= price - 1.5
  }

  // ------------------------------------------------------------------ the scan

  lemma SwingIsExtreme(bars: seq<GoldBar>, i: nat, dir: Direction)
    requires 2 <= i < |bars| - 2
    ensures IsSwing15(bars, i, dir) <==> IsExtreme(bars, i, dir)
  {
  }

  lemma FreshIsUnpierced(v1: Frame, price: real, dir: Direction, from: int, t: int)
    ensures IsFresh(v1, price, dir, from, t) <==> !Pierced(v1, price, dir, from, t)
  {
  }

  /** One bar of the scan only adds levels and keys of its own. */
  lemma ScanBarAddsOwn(sc: Scan, v1: Frame, v15: Frame, i: nat, t: int)
    requires 2 <= i < |v15.bars| - 2
    ensures var r := ScanBar(sc, v1, v15, i, t);
      && sc.burned <= r.burned && sc.levels <= r.levels
      && (forall k :: k in r.burned - sc.burned ==> k.1 == v15.bars[i].time)
      && (forall l :: l in r.levels ==> l in sc.levels || l.swingTime == v15.bars[i].time)
  {
    hide IsFresh, IsSwing15, CountTouches;
  }

  /** The scan tests the high of a bar unless the bar's low is a swing burned before. */
  predicate Tested(burned: set<Key>, v15: Frame, i: nat, dir: Direction)
    requires i < |v15.bars|
  {
    dir.Buy? || !IsExtreme(v15.bars, i, Buy) || KeyAt(v15.bars, i, Buy) !in burned
  }

  lemma LowAndHighDiffer(v15: Frame, i: nat)
    requires RealBars(v15) && i < |v15.bars|
    ensures IsExtreme(v15.bars, i, Buy) && IsExtreme(v15.bars, i, Sell) ==>
      KeyAt(v15.bars, i, Buy) != KeyAt(v15.bars, i, Sell)
  {
  }

  /** What the scan of its own bar makes of a swing. */
  lemma ScanBarDecides(sc: Scan, v1: Frame, v15: Frame, i: nat, t: int, dir: Direction)
    requires InReach(v15, i, t) && IsExtreme(v15.bars, i, dir) && Tested(sc.burned, v15, i, dir)
    requires KeyAt(v15.bars, i, dir) !in sc.burned && RealBars(v15)
    ensures var r, key := ScanBar(sc, v1, v15, i, t), KeyAt(v15.bars, i, dir);
      if PiercedAt(v1, v15, i, dir, t) then key in r.burned
      else key !in r.burned && LevelAt(v15, i, dir, t) in r.levels
  {
    hide IsFresh, IsSwing15, CountTouches, Pierced, IsExtreme, RealBars;
    LowAndHighDiffer(v15, i);
    var low, high := LevelAt(v15, i, Buy, t), LevelAt(v15, i, Sell, t);
    SwingIsExtreme(v15.bars, i, Buy);
    SwingIsExtreme(v15.bars, i, Sell);
    FreshIsUnpierced(v1, low.price, Buy, low.confirmed, t);
    FreshIsUnpierced(v1, high.price, Sell, high.confirmed, t);
  }

  /** Keys of bars the scan has not come to are as before. */
  lemma {:induction false} ScanLeavesLaterKeys(burned: set<Key>, v1: Frame, v15: Frame, t: int, n: nat, key: Key)
    requires |v15.bars| >= 2 * L_SWING_15M + 1 && SearchStart(v15) <= n <= |v15.bars| - L_SWING_15M
    requires forall j :: 0 <= j < n ==> v15.bars[j].time != key.1
    ensures var sc := ScanTo(burned, v1, v15, t, n);
      (key in sc.burned <==> key in burned) && forall l :: l in sc.levels ==> KeyOf(l) != key
  {
    hide ScanBar, RealBars;
    if n > SearchStart(v15) {
      ScanLeavesLaterKeys(burned, v1, v15, t, n - 1, key);
      ScanBarAddsOwn(ScanTo(burned, v1, v15, t, n - 1), v1, v15, n - 1, t);
    }
  }

  lemma EarlierTimesDiffer(v15: Frame, i: nat)
    requires RealBars(v15) && i < |v15.bars|
    ensures forall j :: 0 <= j < |v15.bars| && j != i ==> v15.bars[j].time != v15.bars[i].time
  {
  }

  /** A swing the scan tests is burned when pierced, and a level, not burned, when not. */
  lemma {:induction false} ScanDecides(burned: set<Key>, v1: Frame, v15: Frame, t: int, n: nat, i: nat, dir: Direction)
    requires RealBars(v15) && InReach(v15, i, t) && IsExtreme(v15.bars, i, dir) && Tested(burned, v15, i, dir)
    requires KeyAt(v15.bars, i, dir) !in burned && i < n <= |v15.bars| - L_SWING_15M
    ensures SearchStart(v15) <= n
    ensures var sc, key := ScanTo(burned, v1, v15, t, n), KeyAt(v15.bars, i, dir);
      if PiercedAt(v1, v15, i, dir, t) then key in sc.burned && forall l :: l in sc.levels ==> KeyOf(l) != key
      else key !in sc.burned && LevelAt(v15, i, dir, t) in sc.levels
  {
    hide ScanBar, RealBars, IsExtreme, CountTouches, Pierced, ScanTo;
    var key := KeyAt(v15.bars, i, dir);
    EarlierTimesDiffer(v15, i);
    var sc := ScanTo(burned, v1, v15, t, n - 1);
    assert ScanTo(burned, v1, v15, t, n) == ScanBar(sc, v1, v15, n - 1, t) by { OneMoreBar(burned, v1, v15, t, n); }
    ScanBarAddsOwn(sc, v1, v15, n - 1, t);
    if n - 1 == i {
      ScanLeavesLaterKeys(burned, v1, v15, t, i, key);
      ScanLeavesLaterKeys(burned, v1, v15, t, i, KeyAt(v15.bars, i, Buy));
      ScanBarDecides(sc, v1, v15, i, t, dir);
      if PiercedAt(v1, v15, i, dir, t) { StaleIsNoLevel(sc, v1, v15, i, t, dir); }
    } else {
      ScanDecides(burned, v1, v15, t, n - 1, i, dir);
    }
  }

  lemma OneMoreBar(burned: set<Key>, v1: Frame, v15: Frame, t: int, n: nat)
    requires |v15.bars| >= 2 * L_SWING_15M + 1 && SearchStart(v15) < n <= |v15.bars| - L_SWING_15M
    ensures ScanTo(burned, v1, v15, t, n) == ScanBar(ScanTo(burned, v1, v15, t, n - 1), v1, v15, n - 1, t)
  {
  }

  lemma StaleIsNoLevel(sc: Scan, v1: Frame, v15: Frame, i: nat, t: int, dir: Direction)
    requires InReach(v15, i, t) && IsExtreme(v15.bars, i, dir) && RealBars(v15) && PiercedAt(v1, v15, i, dir, t)
    requires forall l :: l in sc.levels ==> KeyOf(l) != KeyAt(v15.bars, i, dir)
    ensures forall l :: l in ScanBar(sc, v1, v15, i, t).levels ==> KeyOf(l) != KeyAt(v15.bars, i, dir)
  {
    hide IsFresh, IsSwing15, CountTouches, Pierced, IsExtreme, RealBars;
    LowAndHighDiffer(v15, i);
    SwingIsExtreme(v15.bars, i, Buy);
    SwingIsExtreme(v15.bars, i, Sell);
    var l := LevelAt(v15, i, dir, t);
    FreshIsUnpierced(v1, l.price, dir, l.confirmed, t);
  }

  /** Every level of a scan is an unpierced swing in reach that was not burned. */
  ghost predicate IsUnpiercedSwing(v1: Frame, v15: Frame, t: int, l: Level) {
    exists i :: 0 <= i < |v15.bars| && InReach(v15, i, t) && IsExtreme(v15.bars, i, l.dir)
      && KeyOf(l) == KeyAt(v15.bars, i, l.dir) && l.confirmed == v15.bars[i + 2].time + v15.barMs
      && !PiercedAt(v1, v15, i, l.dir, t)
  }

  lemma {:induction false} LevelsAreUnpiercedSwings(burned: set<Key>, v1: Frame, v15: Frame, t: int, n: nat)
    requires |v15.bars| >= 2 * L_SWING_15M + 1 && SearchStart(v15) <= n <= |v15.bars| - L_SWING_15M
    ensures forall l :: l in ScanTo(burned, v1, v15, t, n).levels ==> IsUnpiercedSwing(v1, v15, t, l)
  {
    hide ScanBar, IsUnpiercedSwing;
    if n > SearchStart(v15) {
      LevelsAreUnpiercedSwings(burned, v1, v15, t, n - 1);
      NewLevelsAreUnpierced(ScanTo(burned, v1, v15, t, n - 1), v1, v15, n - 1, t);
    }
  }

  lemma NewLevelsAreUnpierced(sc: Scan, v1: Frame, v15: Frame, i: nat, t: int)
    requires 2 <= i < |v15.bars| - 2 && SearchStart(v15) <= i
    ensures forall l :: l in ScanBar(sc, v1, v15, i, t).levels ==> l in sc.levels || IsUnpiercedSwing(v1, v15, t, l)
  {
    hide IsFresh, IsSwing15, CountTouches, Pierced, IsExtreme;
    SwingIsExtreme(v15.bars, i, Buy);
    SwingIsExtreme(v15.bars, i, Sell);
    var low, high := LevelAt(v15, i, Buy, t), LevelAt(v15, i, Sell, t);
    FreshIsUnpierced(v1, low.price, Buy, low.confirmed, t);
    FreshIsUnpierced(v1, high.price, Sell, high.confirmed, t);
    forall l | l in ScanBar(sc, v1, v15, i, t).levels && l !in sc.levels ensures IsUnpiercedSwing(v1, v15, t, l) {
      assert l == low || l == high;
    }
  }

  // ------------------------------------------------------------------ the zone

  /** Since when price has been near the level, if it is now. */
  function Since(firstSeen: map<Key, int>, key: Key, t: int): int {
    if key in firstSeen then firstSeen[key] else t
  }

  /** What the zone step makes of one key, depending on the level and on how long price has been near it. */
  ghost predicate ZoneVerdict(z: Zone, r: Zone, l: Level, v5: Frame, t: int) {
    var key := KeyOf(l);
    if !Near(v5, l.price, l.dir) then
      key !in r.firstSeen && (key in r.burned <==> key in z.burned) && forall x :: x in r.active ==> KeyOf(x) != key
    else if t - Since(z.firstSeen, key, t) > 25 * MINUTE_MS then
      key !in r.firstSeen && key in r.burned && forall x :: x in r.active ==> KeyOf(x) != key
    else
      key in r.firstSeen && r.firstSeen[key] == Since(z.firstSeen, key, t) && l in r.active
      && (key in r.burned <==> key in z.burned)
  }

  lemma ZoneStepDecides(z: Zone, l: Level, v5: Frame, t: int)
    requires v5.bars != [] && forall x :: x in z.active ==> KeyOf(x) != KeyOf(l)
    ensures ZoneVerdict(z, ZoneStep(z, l, Last(v5.bars), t), l, v5, t)
  {
  }

  /** A step for another key changes nothing of this one. */
  ghost predicate SameFor(z: Zone, r: Zone, key: Key) {
    && (key in r.burned <==> key in z.burned)
    && (key in r.firstSeen <==> key in z.firstSeen) && (key in z.firstSeen ==> r.firstSeen[key] == z.firstSeen[key])
    && (forall x :: x in z.active ==> x in r.active)
    && (forall x :: x in r.active ==> x in z.active || KeyOf(x) != key)
  }

  lemma OtherStepKeeps(z: Zone, l: Level, last: GoldBar, t: int, key: Key)
    requires KeyOf(l) != key
    ensures SameFor(z, ZoneStep(z, l, last, t), key)
  {
  }

  lemma {:induction false} OtherLevelsKeep(z: Zone, levels: seq<Level>, last: GoldBar, t: int, key: Key)
    requires forall l :: l in levels ==> KeyOf(l) != key
    ensures SameFor(z, ZoneAll(z, levels, last, t), key)
  {
    hide ZoneStep;
    if levels != [] {
      OtherLevelsKeep(z, Front(levels), last, t, key);
      OtherStepKeeps(ZoneAll(z, Front(levels), last, t), Last(levels), last, t, key);
    }
  }

  lemma {:induction false} ZoneDecides(z: Zone, levels: seq<Level>, v5: Frame, t: int, l: Level)
    requires v5.bars != [] && z.active == [] && DistinctKeys(levels) && l in levels
    ensures ZoneVerdict(z, ZoneAll(z, levels, Last(v5.bars), t), l, v5, t)
  {
    hide ZoneStep, Near;
    var before, last := Front(levels), Last(v5.bars);
    var y := ZoneAll(z, before, last, t);
    if l == Last(levels) {
      OthersHaveOtherKeys(levels);
      OtherLevelsKeep(z, before, last, t, KeyOf(l));
      ZoneStepDecides(y, l, v5, t);
    } else {
      assert levels == before + [Last(levels)];
      ZoneDecides(z, before, v5, t, l);
      OthersHaveOtherKeys(levels);
      OtherStepKeeps(y, Last(levels), last, t, KeyOf(l));
    }
  }

  lemma OthersHaveOtherKeys(levels: seq<Level>)
    requires DistinctKeys(levels) && levels != []
    ensures DistinctKeys(Front(levels)) && forall x :: x in Front(levels) ==> KeyOf(x) != KeyOf(Last(levels))
  {
  }

  /** Whatever is active is a level near the price that has not been near for too long. */
  lemma {:induction false} ActiveAreNear(z: Zone, levels: seq<Level>, v5: Frame, t: int)
    requires v5.bars != [] && z.active == []
    ensures forall x :: x in ZoneAll(z, levels, Last(v5.bars), t).active ==> x in levels && Near(v5, x.price, x.dir)
  {
    if levels != [] {
      ActiveAreNear(z, Front(levels), v5, t);
      assert levels == Front(levels) + [Last(levels)];
    }
  }

  // ------------------------------------------------------------------ one call

  /** A round of tries burns, beyond what is burned, only keys of the levels it tries. */
  lemma {:induction false} TriesBurnOwn(mode: TpMode, burned: set<Key>, t: int, cur: nat, v1: Frame, v15: Frame,
                                        levels: seq<Level>, penMax: real, key: Key)
    requires cur < |v1.bars| && forall l :: l in levels ==> KeyOf(l) != key
    ensures var a := TryLevels(mode, burned, t, cur, v1, v15, levels, penMax);
      (key in a.burned <==> key in burned) && (a.signal.Some? ==> SignalKey(a.signal.value) != key)
    decreases |levels|
  {
    hide TriggerFrom;
    if levels != [] {
      TriggerSignal(mode, t, cur, v1, v15, levels[0], penMax, 0);
      var tr := TriggerFrom(mode, t, cur, v1, v15, levels[0], penMax, 0);
      TriesBurnOwn(mode, BurnIf(burned, KeyOf(levels[0]), tr.burned), t, cur, v1, v15, levels[1..], penMax, key);
    }
  }

  /** What the zone leaves alone, a call leaves alone. */
  lemma CallFollowsZone(mode: TpMode, m: Memory, t: int, cur: nat, v1: Frame, v5: Frame, v15: Frame, key: Key)
    requires cur < |v1.bars|
    ensures var d, z := Decide(mode, m, t, cur, v1, v5, v15), CallZone(Rolled(m, t), t, v1, v5, v15);
      && d.memory.firstSeen == z.firstSeen && z.burned <= d.memory.burned
      && ((forall x :: x in z.active ==> KeyOf(x) != key) ==>
            && (key in d.memory.burned <==> key in z.burned)
            && (d.signal.Some? ==> SignalKey(d.signal.value) != key))
  {
    hide CallZone, Rolled, TryLevels, NearestFirst;
    var z := CallZone(Rolled(m, t), t, v1, v5, v15);
    if z.active != [] {
      var price, penMax := v1.bars[cur].close, PenMax(AtrPips(v5));
      var nearest := NearestFirst(price, z.active);
      TriesGrow(mode, z.burned, t, cur, v1, v15, nearest, penMax);
      NearestFirstSorts(price, z.active);
      assert forall l :: l in nearest ==> l in multiset(nearest) && l in multiset(z.active);
      if forall x :: x in z.active ==> KeyOf(x) != key {
        TriesBurnOwn(mode, z.burned, t, cur, v1, v15, nearest, penMax, key);
      }
    }
  }

  /** How one call treats a swing in reach that is not burned yet. */
  ghost predicate LifeGoesOn(m: Memory, d: Detection, v1: Frame, v5: Frame, v15: Frame, i: nat, dir: Direction, t: int)
    requires i + 2 < |v15.bars|
  {
    var key := KeyAt(v15.bars, i, dir);
    var signals := d.signal.Some? && SignalKey(d.signal.value) == key;
    if PiercedAt(v1, v15, i, dir, t) then
      key in d.memory.burned && !signals
    else if v5.bars == [] then
      key !in d.memory.burned && !signals && d.memory.firstSeen == m.firstSeen
    else if !Near(v5, key.0, dir) then
      key !in d.memory.burned && !signals && key !in d.memory.firstSeen
    else if t - Since(m.firstSeen, key, t) > 25 * MINUTE_MS then
      key in d.memory.burned && !signals && key !in d.memory.firstSeen
    else
      key in d.memory.firstSeen && d.memory.firstSeen[key] == Since(m.firstSeen, key, t)
  }

  lemma ZoneOfCall(m: Memory, t: int, v1: Frame, v5: Frame, v15: Frame, i: nat, dir: Direction)
    requires RealBars(v15) && InReach(v15, i, t) && IsExtreme(v15.bars, i, dir)
    requires KeyAt(v15.bars, i, dir) !in m.burned && Tested(m.burned, v15, i, dir)
    ensures var z, key, l := CallZone(m, t, v1, v5, v15), KeyAt(v15.bars, i, dir), LevelAt(v15, i, dir, t);
      if PiercedAt(v1, v15, i, dir, t) then key in z.burned && forall x :: x in z.active ==> KeyOf(x) != key
      else if v5.bars == [] then z.active == [] && key !in z.burned && z.firstSeen == m.firstSeen
      else
        exists b :: key !in b && ZoneVerdict(Zone([], b, m.firstSeen), z, l, v5, t)
  {
    hide ScanTo, ZoneStep, Near, CountTouches, IsExtreme, Pierced, RealBars, DistinctKeys, ZoneVerdict, ZoneAll;
    var n, key := |v15.bars| - L_SWING_15M, KeyAt(v15.bars, i, dir);
    ScanDecides(m.burned, v1, v15, t, n, i, dir);
    ScanIsClean(m.burned, v1, v15, t, n);
    var sc, l := FreshLevels(m.burned, v1, v15, t), LevelAt(v15, i, dir, t);
    var z0 := Zone([], sc.burned, m.firstSeen);
    if PiercedAt(v1, v15, i, dir, t) {
      if sc.levels != [] && v5.bars != [] { OtherLevelsKeep(z0, sc.levels, Last(v5.bars), t, key); }
    } else if v5.bars != [] {
      ZoneDecides(z0, sc.levels, v5, t, l);
    }
  }

  /**
   * The life of a level in one call: a swing in reach that is not burned is burned if a 1M bar has pierced it since its
   * confirmation, or if price has been near it for more than 25 minutes; in both cases, and away from the price, it
   * does not signal. Its clock starts when price comes near, keeps running there and is dropped when price leaves.
   */
  lemma LevelLife(mode: TpMode, m: Memory, t: int, cur: nat, v1: Frame, v5: Frame, v15: Frame, i: nat, dir: Direction)
    requires cur < |v1.bars| && RealBars(v15) && InReach(v15, i, t) && IsExtreme(v15.bars, i, dir)
    requires KeyAt(v15.bars, i, dir) !in Rolled(m, t).burned && Tested(Rolled(m, t).burned, v15, i, dir)
    ensures LifeGoesOn(Rolled(m, t), Decide(mode, m, t, cur, v1, v5, v15), v1, v5, v15, i, dir, t)
  {
    hide CallZone, Rolled, Decide, Near, IsExtreme, Pierced, RealBars, Since;
    ZoneOfCall(Rolled(m, t), t, v1, v5, v15, i, dir);
    CallFollowsZone(mode, m, t, cur, v1, v5, v15, KeyAt(v15.bars, i, dir));
  }

  lemma {:induction false} UntestedIsNoLevel(burned: set<Key>, v1: Frame, v15: Frame, t: int, n: nat, i: nat)
    requires |v15.bars| >= 2 * L_SWING_15M + 1 && SearchStart(v15) <= n <= |v15.bars| - L_SWING_15M
    requires RealBars(v15) && i < |v15.bars| && !Tested(burned, v15, i, Sell) && KeyAt(v15.bars, i, Sell) !in burned
    ensures var sc, key := ScanTo(burned, v1, v15, t, n), KeyAt(v15.bars, i, Sell);
      key !in sc.burned && forall l :: l in sc.levels ==> KeyOf(l) != key
  {
    hide ScanBar, RealBars, IsExtreme, ScanTo;
    var key := KeyAt(v15.bars, i, Sell);
    if n == SearchStart(v15) {
      assert ScanTo(burned, v1, v15, t, n) == Scan([], burned) by { NothingScanned(burned, v1, v15, t); }
    } else {
      var sc := ScanTo(burned, v1, v15, t, n - 1);
      UntestedIsNoLevel(burned, v1, v15, t, n - 1, i);
      OneMoreBar(burned, v1, v15, t, n);
      ScanBarAddsOwn(sc, v1, v15, n - 1, t);
      EarlierTimesDiffer(v15, i);
      if n - 1 == i {
        ScanGrows(burned, v1, v15, t, n - 1);
        BurnedLowHidesHigh(sc, v1, v15, i, t);
      }
    }
  }

  lemma NothingScanned(burned: set<Key>, v1: Frame, v15: Frame, t: int)
    requires |v15.bars| >= 2 * L_SWING_15M + 1
    ensures ScanTo(burned, v1, v15, t, SearchStart(v15)) == Scan([], burned)
  {
  }

  lemma BurnedLowHidesHigh(sc: Scan, v1: Frame, v15: Frame, i: nat, t: int)
    requires 2 <= i < |v15.bars| - 2 && IsExtreme(v15.bars, i, Buy) && KeyAt(v15.bars, i, Buy) in sc.burned
    ensures ScanBar(sc, v1, v15, i, t) == sc
  {
    SwingIsExtreme(v15.bars, i, Buy);
  }

  /**
   * A swing high on a bar whose low is a swing burned before is passed over: whatever price does, the call neither
   * burns nor signals it.
   */
  lemma UntestedIsIgnored(mode: TpMode, m: Memory, t: int, cur: nat, v1: Frame, v5: Frame, v15: Frame, i: nat)
    requires cur < |v1.bars| && RealBars(v15) && i < |v15.bars|
    requires KeyAt(v15.bars, i, Sell) !in Rolled(m, t).burned && !Tested(Rolled(m, t).burned, v15, i, Sell)
    ensures var d, key := Decide(mode, m, t, cur, v1, v5, v15), KeyAt(v15.bars, i, Sell);
      key !in d.memory.burned && (d.signal.Some? ==> SignalKey(d.signal.value) != key)
  {
    hide ScanTo, ZoneAll, Decide, RealBars, IsExtreme, Tested;
    var r, key := Rolled(m, t), KeyAt(v15.bars, i, Sell);
    if |v15.bars| >= 2 * L_SWING_15M + 1 {
      UntestedIsNoLevel(r.burned, v1, v15, t, |v15.bars| - L_SWING_15M, i);
    }
    var sc := FreshLevels(r.burned, v1, v15, t);
    if sc.levels != [] && v5.bars != [] {
      OtherLevelsKeep(Zone([], sc.burned, r.firstSeen), sc.levels, Last(v5.bars), t, key);
    }
    CallFollowsZone(mode, m, t, cur, v1, v5, v15, key);
  }

  /** Where a signal comes from: an unburned, unpierced swing in reach, near the last 5M bar. */
  lemma SignalIsUnpierced(mode: TpMode, m: Memory, t: int, cur: nat, v1: Frame, v5: Frame, v15: Frame)
    returns (i: nat)
    requires cur < |v1.bars| && Decide(mode, m, t, cur, v1, v5, v15).signal.Some?
    ensures var s := Decide(mode, m, t, cur, v1, v5, v15).signal.value;
      && InReach(v15, i, t) && IsExtreme(v15.bars, i, s.dir) && SignalKey(s) == KeyAt(v15.bars, i, s.dir)
      && !PiercedAt(v1, v15, i, s.dir, t) && Near(v5, s.levelPrice, s.dir)
      && SignalKey(s) !in Rolled(m, t).burned
      && s.sIdx < |v1.bars| && v1.bars[s.sIdx].time >= v15.bars[i + 2].time + v15.barMs
  {
    hide ScanTo, ZoneAll, TryLevels, NearestFirst, TriggerFrom, IsExtreme, Pierced, Near;
    CallRespectsBurned(mode, m, t, cur, v1, v5, v15);
    var r := Rolled(m, t);
    var z := CallZone(r, t, v1, v5, v15);
    var price, penMax := v1.bars[cur].close, PenMax(AtrPips(v5));
    var nearest := NearestFirst(price, z.active);
    var k := SignalLevel(mode, z.burned, t, cur, v1, v15, nearest, penMax);
    NearestFirstSorts(price, z.active);
    assert nearest[k] in multiset(nearest);
    TriggerSignal(mode, t, cur, v1, v15, nearest[k], penMax, 0);
    var sc := FreshLevels(r.burned, v1, v15, t);
    ActiveAreNear(Zone([], sc.burned, r.firstSeen), sc.levels, v5, t);
    LevelsAreUnpiercedSwings(r.burned, v1, v15, t, |v15.bars| - L_SWING_15M);
    var l := nearest[k];
    assert IsUnpiercedSwing(v1, v15, t, l);
    i :| 0 <= i < |v15.bars| && InReach(v15, i, t) && IsExtreme(v15.bars, i, l.dir)
      && KeyOf(l) == KeyAt(v15.bars, i, l.dir) && l.confirmed == v15.bars[i + 2].time + v15.barMs
      && !PiercedAt(v1, v15, i, l.dir, t);
  }

  // ------------------------------------------------------------------ the sweep and the reversal of a signal

  /** Bar `s` sweeps below the price by no more than `pen` and closes back, and no bar after it goes deeper. */
  ghost predicate SweptLow(bars: seq<GoldBar>, price: real, pen: real, s: nat, r: nat)
    requires s <= r < |bars|
  {
    && price - pen <= bars[s].low < price - 0.1 && bars[s].close > price - 0.1
    && (forall k :: s < k <= r ==> bars[k].low >= price - pen) && bars[r].close > price
  }

  ghost predicate SweptHigh(bars: seq<GoldBar>, price: real, pen: real, s: nat, r: nat)
    requires s <= r < |bars|
  {
    && price + 0.1 < bars[s].high <= price + pen && bars[s].close < price + 0.1
    && (forall k :: s < k <= r ==> bars[k].high <= price + pen) && bars[r].close < price
  }

  /** The bar engulfs the one before it upwards, or has a long lower wick and closes in its upper third. */
  predicate TurnsUp(bars: seq<GoldBar>, r: nat)
    requires r < |bars|
  {
    var b := bars[r];
    && b.close > b.open
    && ((r >= 1 && b.close - b.open >= 0.2 && bars[r - 1].close < bars[r - 1].open
         && b.close >= bars[r - 1].open && b.open <= bars[r - 1].close)
        || (b.open - b.low >= 2.0 * (b.close - b.open) && b.open - b.low >= 0.3
            && b.high > b.low && b.close >= b.low + (b.high - b.low) * 2.0 / 3.0))
  }

  predicate TurnsDown(bars: seq<GoldBar>, r: nat)
    requires r < |bars|
  {
    var b := bars[r];
    && b.close < b.open
    && ((r >= 1 && b.open - b.close >= 0.2 && bars[r - 1].close > bars[r - 1].open
         && b.close <= bars[r - 1].open && b.open >= bars[r - 1].close)
        || (b.high - b.open >= 2.0 * (b.open - b.close) && b.high - b.open >= 0.3
            && b.high > b.low && b.close <= b.low + (b.high - b.low) / 3.0))
  }

  lemma PairTestIsSweepAndTurn(bars: seq<GoldBar>, l: Level, pen: real, s: nat, r: nat)
    requires s <= r < |bars| && pen > 0.0
    ensures EvalPair(bars, l, pen, s, r).Match? <==>
      match l.dir
      case Buy => SweptLow(bars, l.price, pen, s, r) && TurnsUp(bars, r)
      case Sell => SweptHigh(bars, l.price, pen, s, r) && TurnsDown(bars, r)
  {
    NoDeeperWick(bars, l, pen, s, r);
    assert IsPin(l.dir, bars[r]) || IsEngulf(l.dir, bars, r) <==>
      if l.dir.Buy? then TurnsUp(bars, r) else TurnsDown(bars, r);
  }

  lemma NoDeeperWick(bars: seq<GoldBar>, l: Level, pen: real, s: nat, r: nat)
    requires s <= r < |bars|
    ensures DeepWickBetween(bars, l, pen, s, r) || Beyond(l, Extreme(l.dir, bars[r])) > pen <==>
      Beyond(l, Extreme(l.dir, bars[r])) > pen
      || exists k :: s < k < r && if l.dir.Buy? then bars[k].low < l.price - pen else bars[k].high > l.price + pen
  {
    if DeepWickBetween(bars, l, pen, s, r) {
      var k :| s < k < r && Beyond(l, Extreme(l.dir, bars[k])) > pen;
      assert if l.dir.Buy? then bars[k].low < l.price - pen else bars[k].high > l.price + pen;
    }
    if exists k :: s < k < r && if l.dir.Buy? then bars[k].low < l.price - pen else bars[k].high > l.price + pen {
      var k :| s < k < r && if l.dir.Buy? then bars[k].low < l.price - pen else bars[k].high > l.price + pen;
      assert Beyond(l, Extreme(l.dir, bars[k])) > pen;
    }
  }

  /** The deepest a sweep may go: four fifths of a pip, or two fifths of the average range of the 5M bars. */
  function Deepest(v5: Frame): real {
    if 0.4 * AtrPips(v5) > 0.8 then 0.4 * AtrPips(v5) else 0.8
  }

  /**
   * What a signal has seen: a sweep of its level at most three bars back, no bar deeper than allowed since, a reversal
   * candle on the current bar; its stop lies a fifth of a pip beyond the sweep.
   */
  lemma SignalIsReversal(mode: TpMode, m: Memory, t: int, cur: nat, v1: Frame, v5: Frame, v15: Frame)
    requires cur < |v1.bars| && Decide(mode, m, t, cur, v1, v5, v15).signal.Some?
    ensures var s := Decide(mode, m, t, cur, v1, v5, v15).signal.value;
      && s.rIdx == cur && s.sIdx <= cur <= s.sIdx + 3
      && match s.dir
         case Buy => SweptLow(v1.bars, s.levelPrice, Deepest(v5), s.sIdx, cur) && TurnsUp(v1.bars, cur)
                     && s.sl == v1.bars[s.sIdx].low - 0.2
         case Sell => SweptHigh(v1.bars, s.levelPrice, Deepest(v5), s.sIdx, cur) && TurnsDown(v1.bars, cur)
                      && s.sl == v1.bars[s.sIdx].high + 0.2
  {
    hide CallZone, TryLevels, NearestFirst, TriggerFrom, EvalPair, AtrPips, SweptLow, SweptHigh, TurnsUp, TurnsDown;
    var z := CallZone(Rolled(m, t), t, v1, v5, v15);
    var price, penMax := v1.bars[cur].close, PenMax(AtrPips(v5));
    var nearest := NearestFirst(price, z.active);
    var k := SignalLevel(mode, z.burned, t, cur, v1, v15, nearest, penMax);
    TriggerSignal(mode, t, cur, v1, v15, nearest[k], penMax, 0);
    var s := Decide(mode, m, t, cur, v1, v5, v15).signal;
    var rev :| EvalPair(v1.bars, nearest[k], penMax, s.value.sIdx, cur) == Match(rev)
               && Finalise(mode, t, cur, s.value.sIdx, rev, v1, v15, nearest[k]) == s;
    assert penMax == Deepest(v5);
    PairTestIsSweepAndTurn(v1.bars, nearest[k], penMax, s.value.sIdx, cur);
  }
}
