/** Level keys over a whole NY Gold backtest: what the detector burns on use is traded at most once a UTC day. */
module NyGoldKeys {
  import opened Clock
  import opened Common
  import opened NyGoldBacktest
  import opened NyGoldData
  import opened NyGoldDetector
  import opened NyGoldLevels
  import opened NyGoldRun

  /** A level key and the UTC day it signalled on. */
  datatype Mark = Mark(key: Key, day: int)

  function MarkOf(s: Signal): Mark {
    Mark(SignalKey(s), DateKey(s.barTime))
  }

  /** Of the signals a run has taken up, in order: those of closed trades, of the open one, and the pending one. */
  function Marks(s: Run): seq<Mark> {
    seq(|s.closed|, i requires 0 <= i < |s.closed| => MarkOf(s.closed[i].trade.signal))
    + (if s.open.Some? then [MarkOf(s.open.value.signal)] else [])
    + (if s.pending.Some? then [MarkOf(s.pending.value)] else [])
  }

  ghost predicate AllDifferent(marks: seq<Mark>) {
    forall i, j :: 0 <= i < j < |marks| ==> marks[i] != marks[j]
  }

  /** The detector remembers every mark of its day as burned, and no mark is of a later day. */
  ghost predicate Remembered(marks: seq<Mark>, memory: Memory) {
    forall m :: m in marks ==> m.day <= memory.day && (m.day == memory.day ==> m.key in memory.burned)
  }

  ghost predicate KeysHold(d: Data, s: Run, n: nat)
    requires n <= |d.oneM.bars|
  {
    && AllDifferent(Marks(s)) && Remembered(Marks(s), s.memory)
    && (Marks(s) != [] ==> n > 0 && s.memory.day <= DateKey(CloseTime(d.oneM, n - 1)))
  }

  // ------------------------------------------------------------------ one decision

  /** Booking an exit moves the mark of the open trade to the closed ones. */
  lemma BookingKeepsMarks(s: Run, ot: OpenTrade, idx: nat, time: int, e: Exit)
    requires s.open == Some(ot)
    ensures Marks(Booked(s, ot, idx, time, e)) == Marks(s)
  {
    hide NetPnl, MarkOf;
  }

  lemma ManagementKeepsMarks(s: Run, b: GoldBar, idx: nat)
    ensures var m := AfterManagement(s, b, idx);
      Marks(m) == Marks(s) && m.memory == s.memory && m.pending == s.pending && (s.open.None? ==> m.open.None?)
  {
    hide Managed, Booked, Marks, MarkOf;
    if s.open.Some? && Managed(s.open.value, b, idx).Some? {
      BookingKeepsMarks(s, s.open.value, idx, b.time, Managed(s.open.value, b, idx).value);
      BookingKeepsMemory(s, s.open.value, idx, b.time, Managed(s.open.value, b, idx).value);
    }
  }

  lemma BookingKeepsMemory(s: Run, ot: OpenTrade, idx: nat, time: int, e: Exit)
    ensures var r := Booked(s, ot, idx, time, e); r.memory == s.memory && r.pending == s.pending && r.open.None?
  {
    hide NetPnl;
  }

  /** A fill hands the mark of the pending signal to the trade, a refusal drops it. */
  lemma FillKeepsMarks(s: Run, b: GoldBar, idx: nat)
    requires s.open.Some? ==> s.pending.None?
    ensures var f := AfterFill(s, b, idx);
      && Marks(f) <= Marks(s) && f.memory == s.memory && f.pending.None?
  {
    hide MarkOf, Filled;
    var f := AfterFill(s, b, idx);
    if s.pending.Some? && f.open.Some? {
      assert Marks(f) == Marks(s);
    }
  }

  lemma OneMoreMark(marks: seq<Mark>, m: Mark)
    requires AllDifferent(marks) && m !in marks
    ensures AllDifferent(marks + [m])
  {
  }

  /** Calling the detector at `t`: what it signals is no mark yet, and it is one from then on. */
  lemma CallKeepsKeys(mode: TpMode, marks: seq<Mark>, memory: Memory, t: int, cur: nat, v1: Frame, v5: Frame,
                      v15: Frame)
    requires cur < |v1.bars| && AllDifferent(marks) && Remembered(marks, memory)
    requires marks != [] ==> memory.day <= DateKey(t)
    ensures var x := NyGoldDetector.Decide(mode, memory, t, cur, v1, v5, v15);
      && x.memory.day == DateKey(t) && Remembered(marks, x.memory)
      && (x.signal.Some? ==>
            AllDifferent(marks + [MarkOf(x.signal.value)]) && Remembered(marks + [MarkOf(x.signal.value)], x.memory))
  {
    hide NyGoldDetector.Decide, DateKey;
    CallRespectsBurned(mode, memory, t, cur, v1, v5, v15);
    var x := NyGoldDetector.Decide(mode, memory, t, cur, v1, v5, v15);
    if x.signal.Some? {
      SignalTime(mode, memory, t, cur, v1, v5, v15);
      OneMoreMark(marks, MarkOf(x.signal.value));
    }
  }

  lemma {:induction false} TriggerTime(mode: TpMode, t: int, cur: nat, v1: Frame, v15: Frame, l: Level, penMax: real,
                                       wait: nat)
    requires cur < |v1.bars| && wait <= REVERSAL_MAX_WAIT_BARS + 1
    ensures var s := TriggerFrom(mode, t, cur, v1, v15, l, penMax, wait).signal; s.Some? ==> s.value.barTime == t
    decreases REVERSAL_MAX_WAIT_BARS + 1 - wait
  {
    hide EvalPair, TakeProfit;
    if wait <= REVERSAL_MAX_WAIT_BARS { TriggerTime(mode, t, cur, v1, v15, l, penMax, wait + 1); }
  }

  lemma SignalTime(mode: TpMode, m: Memory, t: int, cur: nat, v1: Frame, v5: Frame, v15: Frame)
    requires cur < |v1.bars| && NyGoldDetector.Decide(mode, m, t, cur, v1, v5, v15).signal.Some?
    ensures NyGoldDetector.Decide(mode, m, t, cur, v1, v5, v15).signal.value.barTime == t
  {
    hide TriggerFrom;
    var z := CallZone(Rolled(m, t), t, v1, v5, v15);
    var price, penMax := v1.bars[cur].close, PenMax(AtrPips(v5));
    var candidates := NearestFirst(price, z.active);
    var i := SignalLevel(mode, z.burned, t, cur, v1, v15, candidates, penMax);
    TriggerTime(mode, t, cur, v1, v15, candidates[i], penMax, 0);
  }

  lemma PrefixKeepsKeys(some: seq<Mark>, marks: seq<Mark>, memory: Memory)
    requires some <= marks && AllDifferent(marks) && Remembered(marks, memory)
    ensures AllDifferent(some) && Remembered(some, memory)
  {
    assert forall m :: m in some ==> m in marks;
  }

  /** The pending signal's mark comes last. */
  lemma PendingIsLast(s: Run, sig: Signal)
    requires s.pending.None?
    ensures Marks(s.(pending := Some(sig))) == Marks(s) + [MarkOf(sig)]
  {
    hide MarkOf;
  }

  lemma OthersKeepMarks(s: Run, r: Run)
    requires r.closed == s.closed && r.open == s.open && r.pending == s.pending
    ensures Marks(r) == Marks(s)
  {
  }

  lemma DetectorKeepsKeys(mode: TpMode, news: News, s: Run, b: GoldBar, idx: nat, v: View)
    requires idx < |v.v1.bars| && AllDifferent(Marks(s)) && Remembered(Marks(s), s.memory)
    requires s.pending.None? && (Marks(s) != [] ==> s.memory.day <= DateKey(v.t))
    ensures var r := AfterDetector(mode, news, s, b, idx, v);
      && AllDifferent(Marks(r)) && Remembered(Marks(r), r.memory)
      && (Marks(r) != [] ==> r.memory.day <= DateKey(v.t))
  {
    hide Marks, MarkOf, AllDifferent, Remembered, DateKey, NyGoldDetector.Decide;
    var r := AfterDetector(mode, news, s, b, idx, v);
    if DetectorBar(b) && !GatesBlock(s, b, v.t) {
      CallKeepsKeys(mode, Marks(s), s.memory, v.t, idx, v.v1, v.v5, v.v15);
      var x := NyGoldDetector.Decide(mode, s.memory, v.t, idx, v.v1, v.v5, v.v15);
      var q := s.(memory := x.memory);
      OthersKeepMarks(s, q);
      if x.signal.Some? { PendingIsLast(q, x.signal.value); }
    }
  }

  lemma SeesItsBar(d: Data, n: nat)
    requires SortedData(d) && n < |d.oneM.bars|
    ensures n < |ViewAt(d, CloseTime(d.oneM, n)).v1.bars|
  {
  }

  lemma DecisionKeepsKeys(mode: TpMode, news: News, s: Run, d: Data, n: nat)
    requires SortedData(d) && n < |d.oneM.bars| && OneAtATime(d, s, n) && KeysHold(d, s, n)
    ensures KeysHold(d, DecisionAt(mode, news, s, d, n), n + 1)
  {
    hide Marks, AllDifferent, Remembered, DateKey, AfterManagement, AfterDayRoll;
    hide AfterFill, AfterDetector, OneAtATime, ViewAt;
    SeesItsBar(d, n);
    var b, v := d.oneM.bars[n], ViewAt(d, CloseTime(d.oneM, n));
    var m := AfterManagement(s, b, n);
    ManagementKeepsMarks(s, b, n);
    assert m.open.Some? ==> m.pending.None? by { OnePending(d, s, n); }
    var r := AfterDayRoll(m, b);
    RollKeepsMarks(m, b);
    if n > 0 { DateKeyIsMonotone(CloseTime(d.oneM, n - 1), CloseTime(d.oneM, n)); }
    if TotalDrawdown(r) {
      OthersKeepMarks(r, Logged(r.(totalHalted := true), b));
    } else {
      var q := AfterDailyHalt(r);
      OthersKeepMarks(r, q);
      FillKeepsMarks(q, b, n);
      var f := AfterFill(q, b, n);
      PrefixKeepsKeys(Marks(f), Marks(q), q.memory);
      DetectorKeepsKeys(mode, news, f, b, n, v);
      var x := AfterDetector(mode, news, f, b, n, v);
      OthersKeepMarks(x, Logged(x, b));
    }
  }

  lemma RollKeepsMarks(s: Run, b: GoldBar)
    ensures var r := AfterDayRoll(s, b);
      Marks(r) == Marks(s) && r.memory == s.memory && r.pending == s.pending && r.open == s.open
  {
    hide DateKey;
    OthersKeepMarks(s, AfterDayRoll(s, b));
  }

  lemma OnePending(d: Data, s: Run, n: nat)
    requires n <= |d.oneM.bars| && OneAtATime(d, s, n)
    ensures s.open.Some? ==> s.pending.None?
  {
  }

  // ------------------------------------------------------------------ the whole run

  lemma FreshKeysHold(d: Data)
    ensures KeysHold(d, FRESH_RUN, 0)
  {
  }

  lemma {:induction false} KeysHoldThroughout(mode: TpMode, news: News, d: Data, n: nat)
    requires SortedData(d) && n <= |d.oneM.bars|
    ensures KeysHold(d, After(mode, news, d, n), n)
  {
    hide DecisionAt, OneAtATime, KeysHold;
    if n == 0 {
      FreshKeysHold(d);
    } else {
      KeysHoldThroughout(mode, news, d, n - 1);
      TradesDoNotOverlap(mode, news, d, n - 1);
      DecisionKeepsKeys(mode, news, After(mode, news, d, n - 1), d, n - 1);
    }
  }

  /** In a finished backtest no two trades were signalled by the same level key on the same UTC day. */
  lemma LevelIsTradedOnceADay(mode: TpMode, news: News, d: Data, i: nat, j: nat)
    requires SortedData(d) && i < j < |Outcome(mode, news, d).closed|
    ensures var a, b := Outcome(mode, news, d).closed[i].trade.signal, Outcome(mode, news, d).closed[j].trade.signal;
      SignalKey(a) != SignalKey(b) || DateKey(a.barTime) != DateKey(b.barTime)
  {
    hide After, SignalKey, DateKey, NetPnl;
    var n := |d.oneM.bars|;
    var s, r := After(mode, news, d, n), Outcome(mode, news, d);
    KeysHoldThroughout(mode, news, d, n);
    if s.open.Some? {
      var last := d.oneM.bars[n - 1];
      BookingKeepsMarks(s, s.open.value, n - 1, last.time, DataEndExit(s.open.value, last));
    }
    assert Marks(r) == Marks(s);
    assert Marks(r)[i] == MarkOf(r.closed[i].trade.signal) && Marks(r)[j] == MarkOf(r.closed[j].trade.signal);
  }
}
