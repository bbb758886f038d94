/**
 * Stop-outs over whole runs of registrations and bars: which stop is cached after a bar, and that a position leaves the
 * list exactly when the bar touched it. The comparisons are written out here, apart from the code's own tests.
 */
module StopOuts {
  import opened Clock
  import opened Common
  import opened Market
  import opened PositionManager
  import opened SwingTracker
  import opened TrailHistory
  import opened TrailingStop

  /** The minute of the UTC day lies in the band around the rollover, its end excluded. */
  predicate NearRollover(cfg: Config, now: int) {
    var ms := now % DAY_MS;
    && ms >= cfg.rolloverMinute * MINUTE_MS - cfg.windowBeforeMin * MINUTE_MS
    && ms < cfg.rolloverMinute * MINUTE_MS + cfg.windowAfterMin * MINUTE_MS
  }

  /** The pair names the yen, in any mixture of cases. */
  ghost predicate NamesYen(pair: string) {
    exists k :: 0 <= k < |pair| - 2 && YenAt(pair, k)
  }

  predicate YenAt(pair: string, k: nat)
    requires k + 2 < |pair|
  {
    (pair[k] == 'J' || pair[k] == 'j') && (pair[k + 1] == 'P' || pair[k + 1] == 'p')
    && (pair[k + 2] == 'Y' || pair[k + 2] == 'y')
  }

  lemma {:induction false} ContainsAt(s: string, sub: string)
    ensures Contains(s, sub) <==> exists k :: 0 <= k <= |s| && sub <= s[k..]
  {
    if s == [] {
      assert s[0..] == s;
    } else {
      ContainsAt(s[1..], sub);
      assert s[0..] == s;
      if k: nat :| k <= |s[1..]| && sub <= s[1..][k..] { assert s[k + 1..] == s[1..][k..]; }
      if k: nat :| 0 < k <= |s| && sub <= s[k..] { assert s[1..][k - 1..] == s[k..]; }
    }
  }

  /** A pip is a hundredth when the pair names the yen and a ten-thousandth otherwise. */
  lemma PipIsYenOrNot(pair: string)
    ensures PipSize(pair) == if NamesYen(pair) then 0.01 else 0.0001
  {
    ContainsAt(Upper(pair), "JPY");
    if k :| 0 <= k < |pair| - 2 && YenAt(pair, k) { assert "JPY" <= Upper(pair)[k..]; }
    if k: nat :| k <= |pair| && "JPY" <= Upper(pair)[k..] {
      assert Upper(pair)[k..][0] == 'J' && Upper(pair)[k..][1] == 'P' && Upper(pair)[k..][2] == 'Y';
      assert YenAt(pair, k);
    }
  }

  // ------------------------------------------------------------------ the stop a swing calls for

  /** Bar `j` turned for a position of this side: its low lies below, its high above, those of both neighbours. */
  predicate Turned(side: Direction, bars: seq<Bar>, j: nat) {
    && 0 < j < |bars| - 1
    && match side
       case Buy => bars[j].low < bars[j - 1].low && bars[j].low < bars[j + 1].low
       case Sell => bars[j].high > bars[j - 1].high && bars[j].high > bars[j + 1].high
  }

  /** Where the last turn among the first `n` bars was. */
  function LastTurn(side: Direction, bars: seq<Bar>, n: nat): Option<real>
    requires n <= |bars|
  {
    if n == 0 then None
    else if Turned(side, bars, n - 1) then Some(match side case Buy => bars[n - 1].low case Sell => bars[n - 1].high)
    else LastTurn(side, bars, n - 1)
  }

  /** The last turn is the last swing of the batch finder. */
  lemma {:induction false} LastTurnIsLastSwing(side: Direction, bars: seq<Bar>, n: nat)
    requires n <= |bars|
    ensures LastPrice(SwingTracker.Prices(SwingsBefore(bars, 1, n), AnchorKind(side))) == LastTurn(side, bars, n)
  {
    hide SwingTracker.Prices, SwingAt, Turned, AnchorKind;
    if n == 0 {
      NoPrices(AnchorKind(side));
    } else {
      LastTurnIsLastSwing(side, bars, n - 1);
      PricesOneBarOn(side, bars, n - 1);
    }
  }

  lemma PricesOneBarOn(side: Direction, bars: seq<Bar>, j: nat)
    requires j < |bars|
    ensures SwingTracker.Prices(SwingsBefore(bars, 1, j + 1), AnchorKind(side)) ==
        SwingTracker.Prices(SwingsBefore(bars, 1, j), AnchorKind(side))
        + if Turned(side, bars, j) then [match side case Buy => bars[j].low case Sell => bars[j].high] else []
  {
    hide SwingTracker.Prices, SwingAt, Turned, AnchorKind;
    var kind, before := AnchorKind(side), SwingsBefore(bars, 1, j);
    var h, low := SwingAt(bars, j, 1, High), SwingAt(bars, j, 1, Low);
    PricesConcat(before + h, low, kind);
    PricesConcat(before, h, kind);
    TurnIsSwing(side, bars, j);
    assert SwingTracker.Prices(before + h + low, kind)
        == SwingTracker.Prices(before, kind) + (SwingTracker.Prices(h, kind) + SwingTracker.Prices(low, kind));
  }

  lemma NoPrices(kind: Kind)
    ensures SwingTracker.Prices([], kind) == []
  {
  }

  lemma TurnIsSwing(side: Direction, bars: seq<Bar>, j: nat)
    requires j < |bars|
    ensures Prices(SwingAt(bars, j, 1, High), AnchorKind(side)) + Prices(SwingAt(bars, j, 1, Low), AnchorKind(side)) ==
        if Turned(side, bars, j) then [match side case Buy => bars[j].low case Sell => bars[j].high] else []
  {
    if 0 < j < |bars| - 1 {
      assert Turned(side, bars, j) <==> BeatsAt(bars, j, 1, AnchorKind(side));
      assert Turned(side, bars, j) <==> IsSwing(bars, j, 1, AnchorKind(side));
    }
  }

  /** The stop a position's pair calls for after a run: the offset in pips behind the last turn of its bars. */
  lemma TargetIsBehindLastTurn(cfg: Config, events: seq<TrailHistory.Event>, p: Position)
    ensures var bars := PairBars(events, p.symbol);
      var turn, offset := LastTurn(p.side, bars, |bars|), cfg.trailOffsetPips * PipSize(p.symbol);
      TargetNow(cfg, events, p) ==
        if turn.None? then None
        else Some(match p.side case Buy => turn.value - offset case Sell => turn.value + offset)
  {
    hide PipSize, LastTurn, SwingsBefore, TrailHistory.PairBars;
    var bars := PairBars(events, p.symbol);
    LastTurnIsLastSwing(p.side, bars, |bars|);
    var turn, offset := LastTurn(p.side, bars, |bars|), cfg.trailOffsetPips * PipSize(p.symbol);
    assert Offset(cfg, p.symbol) == offset;
    assert TargetNow(cfg, events, p) == TargetFrom(cfg, turn, p.symbol, p.side);
    if turn.Some? {
      assert Shift(p.side, turn.value, -offset)
          == match p.side case Buy => turn.value - offset case Sell => turn.value + offset;
    }
  }

  /** Letter by letter in capitals. */
  ghost predicate InCapitals(s: string, capitals: string) {
    && |capitals| == |s|
    && forall i :: 0 <= i < |s| ==>
         if 'a' <= s[i] <= 'z' then capitals[i] as int == s[i] as int - 32 else capitals[i] == s[i]
  }

  /** How far a stop is loosened: by what the table says of the pair in capitals, or by the default, in pips. */
  lemma WideningIs(cfg: Config, pair: string, capitals: string)
    requires InCapitals(pair, capitals)
    ensures Widening(cfg, pair) ==
        (if capitals in cfg.widenPips then cfg.widenPips[capitals] else cfg.defaultWidenPips) as real
        * if NamesYen(pair) then 0.01 else 0.0001
  {
    PipIsYenOrNot(pair);
    assert Upper(pair) == capitals;
  }

  /** The stop the trail asks for: the structural one, loosened near the rollover while it is short of the entry. */
  function Wanted(cfg: Config, p: Position, structural: real, now: int): real {
    var pips := WidenPipsFor(cfg, p.symbol) as real * PipSize(p.symbol);
    match p.side
    case Buy => if NearRollover(cfg, now) && structural < p.entry then structural - pips else structural
    case Sell => if NearRollover(cfg, now) && structural > p.entry then structural + pips else structural
  }

  /** The stop that is cached afterwards: the wanted one if it is new and the broker takes it, else the old one. */
  function Cached(cfg: Config, p: Position, structural: real, now: int, broker: Broker): real {
    var wanted := Wanted(cfg, p, structural, now);
    if -SL_EPSILON < wanted - p.sl < SL_EPSILON || !broker(p, wanted) then p.sl else wanted
  }

  /** What one bar of the pair does to one of its positions, seen from the call's two ends. */
  ghost predicate StopDecides(cfg: Config, p: Position, structural: real, bar: Bar, now: int, broker: Broker,
                              after: seq<Position>, report: Report) {
    var stop := Cached(cfg, p, structural, now, broker);
    && (FellTo(p.side, stop, bar) <==> !HasId(after, p.id))
    && (FellTo(p.side, stop, bar) <==> p.id in report.closed)
    && (!FellTo(p.side, stop, bar) ==> p.(sl := stop) in after)
    && (forall x :: (p.id, x) in report.slUpdates <==> x == stop && stop != p.sl)
  }

  lemma WantedIsEffective(cfg: Config, p: Position, structural: real, now: int)
    ensures Effective(cfg, p, p.symbol, structural, now) == Wanted(cfg, p, structural, now)
  {
    hide PipSize, WidenPipsFor;
  }

  lemma HandledStop(cfg: Config, tracker: Tracker, trails: Trails, p: Position, bar: Bar, now: int, broker: Broker)
    requires bar.symbol == p.symbol
    ensures var h := Handle(cfg, tracker, trails, p, bar, now, broker);
      var stop := Cached(cfg, p, h.trail.structural, now, broker);
      && h.after == p.(sl := stop) && (h.hit <==> FellTo(p.side, stop, bar))
      && h.update == (if stop != p.sl then Some(stop) else None)
  {
    hide NextTrail, Effective, Wanted;
    var structural := NextTrail(cfg, tracker, trails, p, bar.symbol, now).structural;
    WantedIsEffective(cfg, p, structural, now);
    var e := Effective(cfg, p, p.symbol, structural, now);
    assert Abs(e - p.sl) < SL_EPSILON <==> -SL_EPSILON < e - p.sl < SL_EPSILON;
    assert Abs(e - p.sl) >= SL_EPSILON ==> e != p.sl;
  }

  lemma OwnTrailDecides(cfg: Config, tracker: Tracker, some: Trails, other: Trails, p: Position, bar: Bar, now: int,
                        broker: Broker)
    requires (p.id in some <==> p.id in other) && (p.id in some ==> some[p.id] == other[p.id])
    ensures Handle(cfg, tracker, some, p, bar, now, broker) == Handle(cfg, tracker, other, p, bar, now, broker)
  {
    hide Ratcheted, Widened, Proposal;
  }

  lemma {:induction false} GoneMembers(before: seq<Position>, after: seq<Position>, p: Position)
    requires p in before
    ensures p.id in Gone(before, after) <==> !HasId(after, p.id)
  {
    hide HasId;
    GoneAreMissing(before, after, p.id);
    if p != Last(before) {
      assert before == Front(before) + [Last(before)];
      GoneMembers(Front(before), after, p);
    }
  }

  lemma {:induction false} GoneAreMissing(before: seq<Position>, after: seq<Position>, id: string)
    ensures id in Gone(before, after) ==> !HasId(after, id)
  {
    hide HasId;
    if before != [] { GoneAreMissing(Front(before), after, id); }
  }

  /** Each position of the pair is handled once, on its own trail. */
  lemma {:induction false} SweptOnce(cfg: Config, tracker: Tracker, trails: Trails, ps: seq<Position>,
                                     pair: string, bar: Bar, now: int, broker: Broker, p: Position)
    requires UniqueIds(ps) && p in ps && p.symbol == pair
    ensures var w := Sweep(cfg, tracker, trails, ps, pair, bar, now, broker);
      var h := Handle(cfg, tracker, trails, p, bar, now, broker);
      && p.id in w.trails && w.trails[p.id] == h.trail
      && (h.hit <==> !HasId(w.kept, p.id)) && (!h.hit ==> h.after in w.kept)
      && (forall x :: (p.id, x) in w.report.slUpdates <==> h.update == Some(x))
  {
    hide Handle, UniqueIds, HasId;
    var before, q := Front(ps), Last(ps);
    var f := Sweep(cfg, tracker, trails, before, pair, bar, now, broker);
    assert ps == before + [q];
    FrontIsUnique(ps);
    HandleKeepsId(cfg, tracker, f.trails, q, bar, now, broker);
    MoreIds(f.kept, if q.symbol != pair then q else Handle(cfg, tracker, f.trails, q, bar, now, broker).after, p.id);
    if p == q {
      NotBefore(before, p);
      SweepLeavesOthers(cfg, tracker, trails, before, pair, bar, now, broker, p.id);
      OwnTrailDecides(cfg, tracker, trails, f.trails, p, bar, now, broker);
      if HasId(f.kept, p.id) { KeptWereThere(cfg, tracker, trails, before, pair, bar, now, broker, p.id); }
      NotUpdated(cfg, tracker, trails, before, pair, bar, now, broker, p.id);
    } else {
      SweptOnce(cfg, tracker, trails, before, pair, bar, now, broker, p);
      OtherId(before, p, q);
    }
  }

  lemma {:induction false} NotUpdated(cfg: Config, tracker: Tracker, trails: Trails, ps: seq<Position>,
                                      pair: string, bar: Bar, now: int, broker: Broker, id: string)
    requires forall i :: 0 <= i < |ps| ==> ps[i].id != id
    ensures forall x :: (id, x) !in Sweep(cfg, tracker, trails, ps, pair, bar, now, broker).report.slUpdates
  {
    hide Handle;
    if ps != [] { NotUpdated(cfg, tracker, trails, Front(ps), pair, bar, now, broker, id); }
  }

  lemma NotBefore(before: seq<Position>, p: Position)
    requires !HasId(before, p.id)
    ensures forall i :: 0 <= i < |before| ==> before[i].id != p.id
  {
  }

  lemma OtherId(before: seq<Position>, p: Position, q: Position)
    requires p in before && !HasId(before, q.id)
    ensures p.id != q.id
  {
  }

  // ------------------------------------------------------------------ whole runs

  /**
   * After any run and one more bar, whatever the broker answers: a position of the bar's pair is gone, and reported as
   * closed, exactly when the bar touched its stop, and otherwise there with that stop. The stop is the one it wanted if
   * that was new and the broker took it, else the old one; it wanted the best of its initial stop and all targets since
   * registration, loosened near the rollover while short of the entry.
   */
  lemma StopOutsAreExact(cfg: Config, events: seq<TrailHistory.Event>, p: Position, p0: Position)
    requires Proper(events) && events != [] && Last(events).OnBar? && Last(events).pair == p.symbol
    requires p in After(cfg, Front(events)).positions && Registered(Front(events), p.id) == Some(p0)
    ensures p.id in After(cfg, events).trails
    ensures var s, e, n := After(cfg, Front(events)), Last(events), After(cfg, events);
      var structural := n.trails[p.id].structural;
      && IsBest(p.side, structural, p0.sl, Targets(cfg, events, p0))
      && StopDecides(cfg, p, structural, e.bar, e.now, e.broker, n.positions,
                     Reported(cfg, s, e.pair, e.bar, e.now, e.broker))
  {
    hide Handle, Sweep, Feed, Cached, FellTo, Targets, Follows, HasId, Gone;
    var s, e, n := After(cfg, Front(events)), Last(events), After(cfg, events);
    InvariantHolds(cfg, Front(events));
    HandledFollows(cfg, events, p, p0);
    SweptOnce(cfg, n.tracker, s.trails, s.positions, e.pair, e.bar, e.now, e.broker, p);
    HandledStop(cfg, n.tracker, s.trails, p, e.bar, e.now, e.broker);
    SweepCloses(cfg, n.tracker, s.trails, s.positions, e.pair, e.bar, e.now, e.broker);
    GoneMembers(s.positions, n.positions, p);
  }

  /** What is left of the pair is clear of the bar; the report lists exactly what is gone, in order; the rest stays. */
  lemma SurvivorsAreClear(cfg: Config, events: seq<TrailHistory.Event>)
    requires Proper(events) && events != [] && Last(events).OnBar?
    ensures var s, e, n := After(cfg, Front(events)), Last(events), After(cfg, events);
      && (forall q :: q in n.positions && q.symbol == e.pair ==> !FellTo(q.side, q.sl, e.bar))
      && (forall q: Position :: q.symbol != e.pair ==> (q in n.positions <==> q in s.positions))
      && Reported(cfg, s, e.pair, e.bar, e.now, e.broker).closed == Gone(s.positions, n.positions)
  {
    hide Sweep, Feed, Gone, UniqueIds, Follows;
    var s, e, n := After(cfg, Front(events)), Last(events), After(cfg, events);
    InvariantHolds(cfg, Front(events));
    SweepCloses(cfg, n.tracker, s.trails, s.positions, e.pair, e.bar, e.now, e.broker);
    forall q: Position | q.symbol != e.pair ensures q in n.positions <==> q in s.positions {
      OthersStay(cfg, n.tracker, s.trails, s.positions, e.pair, e.bar, e.now, e.broker, q);
    }
  }

  lemma {:induction false} OthersStay(cfg: Config, tracker: Tracker, trails: Trails, ps: seq<Position>,
                                      pair: string, bar: Bar, now: int, broker: Broker, q: Position)
    requires q.symbol != pair
    ensures q in Sweep(cfg, tracker, trails, ps, pair, bar, now, broker).kept <==> q in ps
  {
    hide Handle;
    if ps != [] {
      assert ps == Front(ps) + [Last(ps)];
      OthersStay(cfg, tracker, trails, Front(ps), pair, bar, now, broker, q);
      var f := Sweep(cfg, tracker, trails, Front(ps), pair, bar, now, broker);
      HandleKeepsId(cfg, tracker, f.trails, Last(ps), bar, now, broker);
    }
  }

  // ------------------------------------------------------------------ the memory of the widening

  ghost predicate Remembers(trails: Trails) {
    forall id :: id in trails ==> (trails[id].spreadActive <==> trails[id].preSpreadSl.Some?)
  }

  lemma {:induction false} SweepRemembers(cfg: Config, tracker: Tracker, trails: Trails, ps: seq<Position>,
                                          pair: string, bar: Bar, now: int, broker: Broker)
    requires Remembers(trails)
    ensures Remembers(Sweep(cfg, tracker, trails, ps, pair, bar, now, broker).trails)
  {
    hide Ratcheted, Widened, Proposal, TargetFrom;
    if ps != [] { SweepRemembers(cfg, tracker, trails, Front(ps), pair, bar, now, broker); }
  }

  lemma {:induction false} RunRemembers(cfg: Config, events: seq<TrailHistory.Event>)
    ensures Remembers(After(cfg, events).trails)
  {
    hide Sweep, Remembers;
    if events == [] {
      NothingToRemember();
    } else {
      RunRemembers(cfg, Front(events));
      var s, e := After(cfg, Front(events)), Last(events);
      if e.OnBar? {
        SweepRemembers(cfg, After(cfg, events).tracker, s.trails, s.positions, e.pair, e.bar, e.now, e.broker);
      }
    }
  }

  lemma NothingToRemember()
    ensures Remembers(map[])
  {
  }

  /**
   * After any run and one more bar of its pair a position is marked as loosened exactly near the rollover and short of
   * the entry; what is remembered is then the structural stop of the bar on which that began, and otherwise nothing.
   */
  lemma WideningIsRemembered(cfg: Config, events: seq<TrailHistory.Event>, p: Position)
    requires Proper(events) && events != [] && Last(events).OnBar? && Last(events).pair == p.symbol
    requires p in After(cfg, Front(events)).positions
    ensures p.id in After(cfg, events).trails
    ensures var before, t, now := After(cfg, Front(events)).trails, After(cfg, events).trails[p.id], Last(events).now;
      var short := match p.side case Buy => t.structural < p.entry case Sell => t.structural > p.entry;
      && (t.spreadActive <==> NearRollover(cfg, now) && short)
      && t.preSpreadSl ==
          if !t.spreadActive then None
          else if p.id in before && before[p.id].spreadActive then before[p.id].preSpreadSl
          else Some(t.structural)
  {
    hide Sweep, Ratcheted, Proposal, TargetFrom, UniqueIds, Follows;
    var s, e, n := After(cfg, Front(events)), Last(events), After(cfg, events);
    InvariantHolds(cfg, Front(events));
    RunRemembers(cfg, Front(events));
    SweptOnce(cfg, n.tracker, s.trails, s.positions, e.pair, e.bar, e.now, e.broker, p);
  }
}
