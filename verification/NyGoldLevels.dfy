/** What the NY Gold detector promises about its levels and signals, call by call and over whole days of calls. */
module NyGoldLevels {
  import opened Clock
  import opened Common
  import opened NyGoldData
  import opened NyGoldDetector
  import opened Sorting

  // ------------------------------------------------------------------ the sort

  /** The candidates are tried nearest first, none lost and none added. */
  lemma NearestFirstSorts(price: real, levels: seq<Level>)
    ensures forall i, j :: 0 <= i < j < |levels|
              ==> Distance(price, NearestFirst(price, levels)[i]) <= Distance(price, NearestFirst(price, levels)[j])
    ensures multiset(NearestFirst(price, levels)) == multiset(levels)
  {
    SortBySorts(levels, DistanceFrom(price));
    var r := NearestFirst(price, levels);
    forall i, j | 0 <= i < j < |levels| ensures Distance(price, r[i]) <= Distance(price, r[j]) {
      assert DistanceFrom(price)(r[i]) <= DistanceFrom(price)(r[j]);
    }
  }

  // ------------------------------------------------------------------ the burned set only grows

  lemma {:induction false} ScanGrows(burned: set<Key>, v1: Frame, v15: Frame, t: int, n: nat)
    requires |v15.bars| >= 2 * L_SWING_15M + 1
    requires SearchStart(v15) <= n <= |v15.bars| - L_SWING_15M
    ensures var sc := ScanTo(burned, v1, v15, t, n);
      burned <= sc.burned && forall l :: l in sc.levels ==> KeyOf(l) !in burned
  {
    if n > SearchStart(v15) { ScanGrows(burned, v1, v15, t, n - 1); }
  }

  lemma {:induction false} ZoneGrows(z: Zone, levels: seq<Level>, last: GoldBar, t: int)
    ensures var r := ZoneAll(z, levels, last, t);
      z.burned <= r.burned && forall l :: l in r.active ==> l in z.active || l in levels
  {
    if levels != [] { ZoneGrows(z, Front(levels), last, t); }
  }

  lemma {:induction false} TriesGrow(mode: TpMode, burned: set<Key>, t: int, cur: nat, v1: Frame, v15: Frame,
                                     levels: seq<Level>, penMax: real)
    requires cur < |v1.bars|
    ensures burned <= TryLevels(mode, burned, t, cur, v1, v15, levels, penMax).burned
    decreases |levels|
  {
    if levels != [] {
      var tr := TriggerFrom(mode, t, cur, v1, v15, levels[0], penMax, 0);
      if tr.signal.None? {
        TriesGrow(mode, BurnIf(burned, KeyOf(levels[0]), tr.burned), t, cur, v1, v15, levels[1..], penMax);
      }
    }
  }

  /** Where the signal of a round of tries comes from. */
  lemma {:induction false} SignalLevel(mode: TpMode, burned: set<Key>, t: int, cur: nat, v1: Frame, v15: Frame,
                                       levels: seq<Level>, penMax: real)
    returns (i: nat)
    requires cur < |v1.bars|
    requires TryLevels(mode, burned, t, cur, v1, v15, levels, penMax).signal.Some?
    ensures i < |levels|
    ensures var a := TryLevels(mode, burned, t, cur, v1, v15, levels, penMax);
      && TriggerFrom(mode, t, cur, v1, v15, levels[i], penMax, 0).signal == a.signal
      && KeyOf(levels[i]) in a.burned
    decreases |levels|
  {
    hide TriggerFrom;
    var tr := TriggerFrom(mode, t, cur, v1, v15, levels[0], penMax, 0);
    if tr.signal.Some? {
      i := 0;
    } else {
      i := SignalLevel(mode, BurnIf(burned, KeyOf(levels[0]), tr.burned), t, cur, v1, v15, levels[1..], penMax);
      i := i + 1;
    }
  }

  lemma CallZoneGrows(m: Memory, t: int, v1: Frame, v5: Frame, v15: Frame)
    ensures var z := CallZone(m, t, v1, v5, v15);
      m.burned <= z.burned && forall l :: l in z.active ==> KeyOf(l) !in m.burned
  {
    var sc := FreshLevels(m.burned, v1, v15, t);
    if |v15.bars| >= 2 * L_SWING_15M + 1 { ScanGrows(m.burned, v1, v15, t, |v15.bars| - L_SWING_15M); }
    if sc.levels != [] && v5.bars != [] {
      ZoneGrows(Zone([], sc.burned, m.firstSeen), sc.levels, Last(v5.bars), t);
    }
  }

  /** A trigger's signal carries the key of its level and the geometry of its bars. */
  lemma {:induction false} TriggerSignal(mode: TpMode, t: int, cur: nat, v1: Frame, v15: Frame, l: Level,
                                         penMax: real, wait: nat)
    requires cur < |v1.bars| && wait <= REVERSAL_MAX_WAIT_BARS + 1
    ensures var s := TriggerFrom(mode, t, cur, v1, v15, l, penMax, wait).signal;
      s.Some? ==>
        && SignalKey(s.value) == KeyOf(l) && s.value.dir == l.dir
        && s.value.rIdx == cur && s.value.sIdx <= cur <= s.value.sIdx + REVERSAL_MAX_WAIT_BARS
        && v1.bars[s.value.sIdx].time >= l.confirmed
        && (exists rev :: EvalPair(v1.bars, l, penMax, s.value.sIdx, cur) == Match(rev)
                          && Finalise(mode, t, cur, s.value.sIdx, rev, v1, v15, l) == s)
    decreases REVERSAL_MAX_WAIT_BARS + 1 - wait
  {
    if wait <= REVERSAL_MAX_WAIT_BARS {
      if !Eligible(v1, l, cur, wait) || !EvalPair(v1.bars, l, penMax, cur - wait, cur).Match? {
        TriggerSignal(mode, t, cur, v1, v15, l, penMax, wait + 1);
      }
    }
  }

  /** One call: nothing burned on this day is forgotten or signals, and what signals is burned. */
  lemma CallRespectsBurned(mode: TpMode, m: Memory, t: int, cur: nat, v1: Frame, v5: Frame, v15: Frame)
    requires cur < |v1.bars|
    ensures var d, r := Decide(mode, m, t, cur, v1, v5, v15), Rolled(m, t);
      && d.memory.day == DateKey(t)
      && r.burned <= d.memory.burned
      && (d.signal.Some? ==> SignalKey(d.signal.value) !in r.burned && SignalKey(d.signal.value) in d.memory.burned)
  {
    var r := Rolled(m, t);
    var z := CallZone(r, t, v1, v5, v15);
    CallZoneGrows(r, t, v1, v5, v15);
    if z.active != [] {
      var price, penMax := v1.bars[cur].close, PenMax(AtrPips(v5));
      var candidates := NearestFirst(price, z.active);
      TriesGrow(mode, z.burned, t, cur, v1, v15, candidates, penMax);
      if TryLevels(mode, z.burned, t, cur, v1, v15, candidates, penMax).signal.Some? {
        var i := SignalLevel(mode, z.burned, t, cur, v1, v15, candidates, penMax);
        TriggerSignal(mode, t, cur, v1, v15, candidates[i], penMax, 0);
        NearestFirstSorts(price, z.active);
        assert candidates[i] in multiset(z.active);
        assert candidates[i] in z.active;
      }
    }
  }

  // ------------------------------------------------------------------ whole days of calls

  datatype Call = Call(t: int, cur: nat, v1: Frame, v5: Frame, v15: Frame)

  /** Calls are made in time order, each with its reversal bar visible. */
  ghost predicate InOrder(calls: seq<Call>) {
    && (forall i :: 0 <= i < |calls| ==> calls[i].cur < |calls[i].v1.bars|)
    && forall i, j :: 0 <= i < j < |calls| ==> calls[i].t <= calls[j].t
  }

  function MemoryAfter(mode: TpMode, calls: seq<Call>): Memory
    requires InOrder(calls)
  {
    if calls == [] then NO_MEMORY
    else
      var c := Last(calls);
      Decide(mode, MemoryAfter(mode, Front(calls)), c.t, c.cur, c.v1, c.v5, c.v15).memory
  }

  function SignalOf(mode: TpMode, calls: seq<Call>): Option<Signal>
    requires InOrder(calls) && calls != []
  {
    var c := Last(calls);
    Decide(mode, MemoryAfter(mode, Front(calls)), c.t, c.cur, c.v1, c.v5, c.v15).signal
  }

  /** What is burned after one call stays burned through every later call of the same UTC day. */
  lemma {:induction false} BurnedStaysBurned(mode: TpMode, calls: seq<Call>, i: nat)
    requires InOrder(calls) && 0 < i <= |calls|
    requires DateKey(calls[i - 1].t) == DateKey(Last(calls).t)
    ensures MemoryAfter(mode, calls[..i]).burned <= MemoryAfter(mode, calls).burned
    ensures MemoryAfter(mode, calls).day == DateKey(Last(calls).t)
  {
    var c := Last(calls);
    var before := Front(calls);
    CallRespectsBurned(mode, MemoryAfter(mode, before), c.t, c.cur, c.v1, c.v5, c.v15);
    if i == |calls| {
      assert calls[..i] == calls;
    } else {
      assert before[..i] == calls[..i];
      DateKeyIsMonotone(calls[i - 1].t, Last(before).t);
      DateKeyIsMonotone(Last(before).t, c.t);
      BurnedStaysBurned(mode, before, i);
    }
  }

  /**
   * Once a level key is burned, by use, staleness, dwell or a wick, no later call of the same UTC day signals it. In
   * particular a key signals at most once a day, because the call that signals it burns it.
   */
  lemma BurnedNeverSignals(mode: TpMode, calls: seq<Call>, i: nat)
    requires InOrder(calls) && 0 < i < |calls|
    requires DateKey(calls[i - 1].t) == DateKey(Last(calls).t)
    requires SignalOf(mode, calls).Some?
    ensures SignalKey(SignalOf(mode, calls).value) !in MemoryAfter(mode, calls[..i]).burned
    ensures var first := SignalOf(mode, calls[..i]);
      first.Some? ==> SignalKey(first.value) != SignalKey(SignalOf(mode, calls).value)
  {
    hide Decide, DateKey;
    var before, c := Front(calls), Last(calls);
    assert before[..i] == calls[..i];
    DateKeyIsMonotone(calls[i - 1].t, Last(before).t);
    DateKeyIsMonotone(Last(before).t, c.t);
    BurnedStaysBurned(mode, before, i);
    CallRespectsBurned(mode, MemoryAfter(mode, before), c.t, c.cur, c.v1, c.v5, c.v15);
    var d := calls[i - 1];
    assert Last(calls[..i]) == d;
    CallRespectsBurned(mode, MemoryAfter(mode, Front(calls[..i])), d.t, d.cur, d.v1, d.v5, d.v15);
  }

  // ------------------------------------------------------------------ within one call

  /** Looking further back can only bring the offending wick back into view. */
  lemma DeepWickStays(bars: seq<GoldBar>, l: Level, penMax: real, s: nat, earlier: nat, r: nat)
    requires earlier <= s <= r < |bars|
    requires EvalPair(bars, l, penMax, s, r) == TooDeep
    ensures !EvalPair(bars, l, penMax, earlier, r).Match?
  {
    if DeepWickBetween(bars, l, penMax, s, r) {
      var k :| s < k < r && Beyond(l, Extreme(l.dir, bars[k])) > penMax;
      assert DeepWickBetween(bars, l, penMax, earlier, r);
    }
  }

  lemma {:induction false} NoMatchAfterDeepWick(mode: TpMode, t: int, cur: nat, v1: Frame, v15: Frame, l: Level,
                                                penMax: real, deep: nat, wait: nat)
    requires cur < |v1.bars| && deep <= cur && deep <= wait <= REVERSAL_MAX_WAIT_BARS + 1
    requires EvalPair(v1.bars, l, penMax, cur - deep, cur) == TooDeep
    ensures TriggerFrom(mode, t, cur, v1, v15, l, penMax, wait).signal.None?
    decreases REVERSAL_MAX_WAIT_BARS + 1 - wait
  {
    if wait <= REVERSAL_MAX_WAIT_BARS {
      if Eligible(v1, l, cur, wait) { DeepWickStays(v1.bars, l, penMax, cur - deep, cur - wait, cur); }
      NoMatchAfterDeepWick(mode, t, cur, v1, v15, l, penMax, deep, wait + 1);
    }
  }

  /** A level burned by a deep wick in the middle of a call does not signal at any later offset of that call. */
  lemma {:induction false} BurnedMidCallNeverSignals(mode: TpMode, t: int, cur: nat, v1: Frame, v15: Frame, l: Level,
                                                     penMax: real, wait: nat)
    requires cur < |v1.bars| && wait <= REVERSAL_MAX_WAIT_BARS + 1
    ensures var tr := TriggerFrom(mode, t, cur, v1, v15, l, penMax, wait); tr.burned ==> tr.signal.None?
    decreases REVERSAL_MAX_WAIT_BARS + 1 - wait
  {
    if wait <= REVERSAL_MAX_WAIT_BARS {
      BurnedMidCallNeverSignals(mode, t, cur, v1, v15, l, penMax, wait + 1);
      if Eligible(v1, l, cur, wait) && EvalPair(v1.bars, l, penMax, cur - wait, cur) == TooDeep {
        NoMatchAfterDeepWick(mode, t, cur, v1, v15, l, penMax, wait, wait + 1);
      }
    }
  }

  /** Bars with distinct open times and low at or below high, as real frames have. */
  ghost predicate RealBars(f: Frame) {
    && (forall i, j :: 0 <= i < j < |f.bars| ==> f.bars[i].time < f.bars[j].time)
    && forall i :: 0 <= i < |f.bars| ==> f.bars[i].low <= f.bars[i].high
  }

  ghost predicate DistinctKeys(levels: seq<Level>) {
    forall i, j :: 0 <= i < j < |levels| ==> KeyOf(levels[i]) != KeyOf(levels[j])
  }

  /** On real bars the levels of one scan have distinct keys, none of them burned by the scan. */
  ghost predicate CleanScan(sc: Scan, times: int) {
    && DistinctKeys(sc.levels)
    && (forall l :: l in sc.levels ==> KeyOf(l) !in sc.burned && l.swingTime < times)
  }

  lemma {:induction false} ScanIsClean(burned: set<Key>, v1: Frame, v15: Frame, t: int, n: nat)
    requires RealBars(v15) && |v15.bars| >= 2 * L_SWING_15M + 1
    requires SearchStart(v15) <= n <= |v15.bars| - L_SWING_15M
    ensures CleanScan(ScanTo(burned, v1, v15, t, n), v15.bars[n].time)
  {
    if n > SearchStart(v15) {
      var i := n - 1;
      ScanIsClean(burned, v1, v15, t, i);
      var sc := ScanTo(burned, v1, v15, t, i);
      var next := v15.bars[n].time;
      assert CleanScan(sc, next);
      var low, high := LevelAt(v15, i, Buy, t), LevelAt(v15, i, Sell, t);
      if v15.bars[i].time >= t - LEVEL_LOOKBACK_MS {
        if IsSwing15(v15.bars, i, Buy) && KeyOf(low) !in sc.burned {
          var sc1 := Admit(sc, v1, low, t);
          if IsSwing15(v15.bars, i, Sell) && KeyOf(high) !in sc1.burned {
            assert KeyOf(low) != KeyOf(high);
          }
        } else if !IsSwing15(v15.bars, i, Buy) && IsSwing15(v15.bars, i, Sell) && KeyOf(high) !in sc.burned {
        }
      }
    }
  }

  ghost predicate CleanZone(z: Zone) {
    DistinctKeys(z.active) && forall l :: l in z.active ==> KeyOf(l) !in z.burned
  }

  /** The zone step neither burns nor activates a key that none of its levels has. */
  lemma {:induction false} ZoneIgnoresOtherKeys(z: Zone, levels: seq<Level>, last: GoldBar, t: int, key: Key)
    requires z.active == [] && key !in z.burned && forall l :: l in levels ==> KeyOf(l) != key
    ensures var r := ZoneAll(z, levels, last, t);
      key !in r.burned && forall l :: l in r.active ==> KeyOf(l) != key
  {
    if levels != [] { ZoneIgnoresOtherKeys(z, Front(levels), last, t, key); }
  }

  lemma {:induction false} ZoneIsClean(z: Zone, levels: seq<Level>, last: GoldBar, t: int)
    requires z.active == [] && DistinctKeys(levels) && forall l :: l in levels ==> KeyOf(l) !in z.burned
    ensures CleanZone(ZoneAll(z, levels, last, t))
  {
    if levels != [] {
      ZoneIsClean(z, Front(levels), last, t);
      forall l | l in Front(levels)
        ensures KeyOf(l) != KeyOf(Last(levels))
      {
        var i :| 0 <= i < |levels| - 1 && levels[i] == l;
      }
      ZoneIgnoresOtherKeys(z, Front(levels), last, t, KeyOf(Last(levels)));
    }
  }

  lemma {:induction false} TriesSignalUnburned(mode: TpMode, burned: set<Key>, t: int, cur: nat, v1: Frame, v15: Frame,
                                               levels: seq<Level>, penMax: real)
    returns (before: set<Key>)
    requires cur < |v1.bars| && DistinctKeys(levels)
    requires forall l :: l in levels ==> KeyOf(l) !in burned
    requires TryLevels(mode, burned, t, cur, v1, v15, levels, penMax).signal.Some?
    ensures var a := TryLevels(mode, burned, t, cur, v1, v15, levels, penMax);
      && burned <= before && SignalKey(a.signal.value) !in before
      && a.burned == before + {SignalKey(a.signal.value)}
    decreases |levels|
  {
    hide TriggerFrom;
    var tr := TriggerFrom(mode, t, cur, v1, v15, levels[0], penMax, 0);
    BurnedMidCallNeverSignals(mode, t, cur, v1, v15, levels[0], penMax, 0);
    if tr.signal.Some? {
      TriggerSignal(mode, t, cur, v1, v15, levels[0], penMax, 0);
      before := burned;
    } else {
      var burned1 := BurnIf(burned, KeyOf(levels[0]), tr.burned);
      forall l | l in levels[1..]
        ensures KeyOf(l) !in burned1
      {
        var i :| 0 <= i < |levels| - 1 && levels[1..][i] == l;
        assert l == levels[i + 1];
      }
      before := TriesSignalUnburned(mode, burned1, t, cur, v1, v15, levels[1..], penMax);
    }
  }

  lemma SamePermutationSameKeys(a: seq<Level>, b: seq<Level>)
    requires multiset(a) == multiset(b) && DistinctKeys(b)
    ensures DistinctKeys(a) && forall l :: l in a <==> l in b
  {
    forall l
      ensures l in a <==> l in b
    {
      assert l in a <==> l in multiset(a);
      assert l in b <==> l in multiset(b);
    }
    forall i, j | 0 <= i < j < |a|
      ensures KeyOf(a[i]) != KeyOf(a[j])
    {
      if a[i] == a[j] {
        TwiceInMultiset(a, i, j);
        OnceInMultiset(b, a[i]);
      } else {
        assert a[i] in b && a[j] in b;
      }
    }
  }

  lemma TwiceInMultiset(a: seq<Level>, i: nat, j: nat)
    requires i < j < |a| && a[i] == a[j]
    ensures multiset(a)[a[i]] >= 2
  {
    assert a == a[..i] + [a[i]] + a[i + 1..j] + [a[j]] + a[j + 1..];
  }

  lemma {:induction false} OnceInMultiset(b: seq<Level>, l: Level)
    requires DistinctKeys(b)
    ensures multiset(b)[l] <= 1
  {
    if b != [] {
      OnceInMultiset(Front(b), l);
      assert b == Front(b) + [Last(b)];
      if Last(b) == l {
        assert l !in Front(b);
      }
    }
  }

  /**
   * On real bars, the level a call signals was not burned at the moment it was used: not on an earlier call of the day,
   * not by the staleness scan, the dwell limit or a deep wick of this very call.
   */
  lemma SignalWasNeverBurned(mode: TpMode, m: Memory, t: int, cur: nat, v1: Frame, v5: Frame, v15: Frame)
    returns (before: set<Key>)
    requires cur < |v1.bars| && RealBars(v15)
    requires Decide(mode, m, t, cur, v1, v5, v15).signal.Some?
    ensures var d := Decide(mode, m, t, cur, v1, v5, v15);
      && Rolled(m, t).burned <= CallZone(Rolled(m, t), t, v1, v5, v15).burned <= before
      && SignalKey(d.signal.value) !in before
      && d.memory.burned == before + {SignalKey(d.signal.value)}
  {
    var r := Rolled(m, t);
    var sc := FreshLevels(r.burned, v1, v15, t);
    ScanIsClean(r.burned, v1, v15, t, |v15.bars| - L_SWING_15M);
    ZoneIsClean(Zone([], sc.burned, r.firstSeen), sc.levels, Last(v5.bars), t);
    var z := CallZone(r, t, v1, v5, v15);
    CallZoneGrows(r, t, v1, v5, v15);
    var price, penMax := v1.bars[cur].close, PenMax(AtrPips(v5));
    NearestFirstSorts(price, z.active);
    SamePermutationSameKeys(NearestFirst(price, z.active), z.active);
    before := TriesSignalUnburned(mode, z.burned, t, cur, v1, v15, NearestFirst(price, z.active), penMax);
  }

  // ------------------------------------------------------------------ the shape of a signal

  lemma HybridReward(dir: Direction, entry: real, sl: real, opposing: Option<real>)
    requires Gain(dir, sl, entry) > 0.0
    ensures var r := Gain(dir, sl, entry);
      MIN_RR_FOR_OPPOSING * r <= Gain(dir, entry, TpHybrid(dir, entry, sl, opposing)) <= TP_RR_MAX * r
  {
    var r := Gain(dir, sl, entry);
    assert Abs(entry - sl) == r;
    if opposing.Some? && Gain(dir, entry, opposing.value) / r >= MIN_RR_FOR_OPPOSING {
      assert Gain(dir, entry, opposing.value) >= r;
    }
  }

  /** The geometry a signal of the hybrid mode has with respect to its bars. */
  ghost predicate WellShaped(s: Signal, bars: seq<GoldBar>)
    requires s.rIdx < |bars| && s.sIdx < |bars|
  {
    var entry, wick := bars[s.rIdx].close, Extreme(s.dir, bars[s.sIdx]);
    var r := Gain(s.dir, s.sl, entry);
    && r >= MIN_RISK_PIPS * PIP_SIZE
    && MIN_RR_FOR_OPPOSING * r <= Gain(s.dir, entry, s.tp) <= TP_RR_MAX * r
    && Gain(s.dir, s.levelPrice, entry) > 0.0
    && Gain(s.dir, s.sl, wick) == SL_BUFFER
    && Gain(s.dir, wick, s.levelPrice) > SWEEP_MIN_PENETRATION_PIPS * PIP_SIZE
  }

  lemma FinaliseShape(t: int, r: nat, s: nat, reversal: Reversal, v1: Frame, v15: Frame, l: Level, penMax: real)
    requires s <= r < |v1.bars| && EvalPair(v1.bars, l, penMax, s, r) == Match(reversal)
    requires Finalise(Hybrid, t, r, s, reversal, v1, v15, l).Some?
    ensures var sig := Finalise(Hybrid, t, r, s, reversal, v1, v15, l).value;
      && sig.rIdx == r && sig.sIdx == s && WellShaped(sig, v1.bars)
      && sig.barTime == t && sig.fillTime == v1.bars[r].time + v1.barMs
  {
    var entry := v1.bars[r].close;
    var sl := Shift(l.dir, Extreme(l.dir, v1.bars[s]), -SL_BUFFER);
    HybridReward(l.dir, entry, sl, TpOpposing(v15, l.dir, entry, t));
  }

  /**
   * Every signal of the hybrid mode has its stop, the close of the reversal bar and its target in order, a stop at
   * least the minimum risk away and just beyond the sweep wick, a reward of 1R to 3R, and a sweep bar at most three
   * bars back.
   */
  lemma SignalShape(m: Memory, t: int, cur: nat, v1: Frame, v5: Frame, v15: Frame)
    requires cur < |v1.bars|
    requires Decide(Hybrid, m, t, cur, v1, v5, v15).signal.Some?
    ensures var s := Decide(Hybrid, m, t, cur, v1, v5, v15).signal.value;
      && s.rIdx == cur && s.sIdx <= cur <= s.sIdx + REVERSAL_MAX_WAIT_BARS
      && WellShaped(s, v1.bars)
      && s.barTime == t && s.fillTime == v1.bars[cur].time + v1.barMs
  {
    var z := CallZone(Rolled(m, t), t, v1, v5, v15);
    var price, penMax := v1.bars[cur].close, PenMax(AtrPips(v5));
    var candidates := NearestFirst(price, z.active);
    var i := SignalLevel(Hybrid, z.burned, t, cur, v1, v15, candidates, penMax);
    TriggerShape(t, cur, v1, v15, candidates[i], penMax);
  }

  lemma TriggerShape(t: int, cur: nat, v1: Frame, v15: Frame, l: Level, penMax: real)
    requires cur < |v1.bars|
    requires TriggerFrom(Hybrid, t, cur, v1, v15, l, penMax, 0).signal.Some?
    ensures var s := TriggerFrom(Hybrid, t, cur, v1, v15, l, penMax, 0).signal.value;
      && s.rIdx == cur && s.sIdx <= cur <= s.sIdx + REVERSAL_MAX_WAIT_BARS
      && WellShaped(s, v1.bars)
      && s.barTime == t && s.fillTime == v1.bars[cur].time + v1.barMs
  {
    TriggerSignal(Hybrid, t, cur, v1, v15, l, penMax, 0);
    var s := TriggerFrom(Hybrid, t, cur, v1, v15, l, penMax, 0).signal;
    var rev :| EvalPair(v1.bars, l, penMax, s.value.sIdx, cur) == Match(rev)
               && Finalise(Hybrid, t, cur, s.value.sIdx, rev, v1, v15, l) == s;
    FinaliseShape(t, cur, s.value.sIdx, rev, v1, v15, l, penMax);
  }
}
