/**
 * What the trailing stop amounts to over whole runs: registrations and bars of any pairs in any interleaving, with a
 * broker that may refuse any stop change.
 */
module TrailHistory {
  import opened Common
  import opened Market
  import opened SwingTracker
  import opened TrailingStop
  import opened PositionManager

  datatype Event =
    | Register(p: Position)
    | OnBar(pair: string, bar: Bar, now: int, broker: Broker)

  function After(cfg: Config, events: seq<Event>): State {
    if events == [] then State(map[], map[], [])
    else
      var s := After(cfg, Front(events));
      match Last(events)
      case Register(p) => s.(positions := Put(s.positions, p))
      case OnBar(pair, bar, now, broker) => Maintained(cfg, s, pair, bar, now, broker)
  }

  /** The position as it was when it was registered under this id. */
  function Registered(events: seq<Event>, id: string): Option<Position> {
    if events == [] then None
    else if Last(events).Register? && Last(events).p.id == id then Some(Last(events).p)
    else Registered(Front(events), id)
  }

  /** Position ids are never reused, and a bar is handed in under its own symbol. */
  ghost predicate Proper(events: seq<Event>) {
    events == []
    || (&& Proper(Front(events))
        && match Last(events)
           case Register(p) => Registered(Front(events), p.id).None?
           case OnBar(pair, bar, _, _) => bar.symbol == pair)
  }

  function PairBars(events: seq<Event>, pair: string): seq<Bar> {
    if events == [] then []
    else PairBars(Front(events), pair)
         + if Last(events).OnBar? && Last(events).pair == pair then [Last(events).bar] else []
  }

  /** The stop the latest swing of the pair's own bars calls for, by the batch finder. */
  function TargetNow(cfg: Config, events: seq<Event>, p: Position): Option<real> {
    var prices := Prices(Swings(PairBars(events, p.symbol), 1), AnchorKind(p.side));
    TargetFrom(cfg, LastPrice(prices), p.symbol, p.side)
  }

  /** A bar of the position's pair has been maintained since it was registered. */
  predicate Seen(events: seq<Event>, p: Position) {
    events != []
    && !(Last(events).Register? && Last(events).p.id == p.id)
    && ((Last(events).OnBar? && Last(events).pair == p.symbol) || Seen(Front(events), p))
  }

  /** Every stop its swings have called for at the bars maintained since it was registered. */
  function Targets(cfg: Config, events: seq<Event>, p: Position): seq<real> {
    if events == [] || (Last(events).Register? && Last(events).p.id == p.id) then []
    else
      Targets(cfg, Front(events), p)
      + if Last(events).OnBar? && Last(events).pair == p.symbol && TargetNow(cfg, events, p).Some? then
          [TargetNow(cfg, events, p).value]
        else []
  }

  /**
   * `x` is the most favourable of the initial stop and the targets: the maximum for a long, the minimum for a short.
   */
  ghost predicate IsBest(side: Direction, x: real, initial: real, targets: seq<real>) {
    && (x == initial || x in targets)
    && Gain(side, initial, x) >= 0.0
    && forall t :: t in targets ==> Gain(side, t, x) >= 0.0
  }

  lemma BestIsUnique(side: Direction, x: real, y: real, initial: real, targets: seq<real>)
    requires IsBest(side, x, initial, targets) && IsBest(side, y, initial, targets)
    ensures x == y
  {
    assert Gain(side, x, y) >= 0.0 && Gain(side, y, x) >= 0.0;
  }

  /** What holds of an open position with its trail; `p0` is the position as registered. */
  ghost predicate Follows(cfg: Config, events: seq<Event>, trails: Trails, p: Position, p0: Position) {
    && p == p0.(sl := p.sl)
    && (Seen(events, p0) <==> p.id in trails)
    && (!Seen(events, p0) ==> p.sl == p0.sl && Targets(cfg, events, p0) == [])
    && (Seen(events, p0) ==>
          && IsBest(p.side, trails[p.id].structural, p0.sl, Targets(cfg, events, p0))
          && Gain(p.side, p.sl, trails[p.id].structural) >= 0.0
          && (TargetNow(cfg, events, p0).Some? ==> TargetNow(cfg, events, p0).value in Targets(cfg, events, p0)))
  }

  ghost predicate Invariant(cfg: Config, events: seq<Event>, s: State) {
    && UniqueIds(s.positions)
    && (forall id :: id in s.trails ==> Registered(events, id).Some?)
    && forall i :: 0 <= i < |s.positions| ==>
         var p := s.positions[i];
         Registered(events, p.id).Some? && Follows(cfg, events, s.trails, p, Registered(events, p.id).value)
  }

  // ------------------------------------------------------------------ the tracker sees the pair's own bars

  lemma {:induction false} TrackerSeesPairBars(cfg: Config, events: seq<Event>, pair: string)
    ensures StateIn(After(cfg, events).tracker, pair) == StateOf(PairBars(events, pair))
  {
    if events == [] {
      assert StateOf([]) == NO_BARS;
    } else {
      TrackerSeesPairBars(cfg, Front(events), pair);
      var before := After(cfg, Front(events)).tracker;
      match Last(events)
      case Register(_) =>
        assert PairBars(events, pair) == PairBars(Front(events), pair);
      case OnBar(fed, bar, _, _) =>
        assert After(cfg, events).tracker == Feed(before, fed, bar);
        if fed == pair {
          FedIsStateOf(PairBars(Front(events), pair), bar);
        } else {
          assert PairBars(events, pair) == PairBars(Front(events), pair);
        }
    }
  }

  lemma TargetIsTracked(cfg: Config, events: seq<Event>, p: Position)
    ensures TargetFrom(cfg, LastSwing(After(cfg, events).tracker, p.symbol, AnchorKind(p.side)), p.symbol, p.side)
         == TargetNow(cfg, events, p)
  {
    TrackerSeesPairBars(cfg, events, p.symbol);
  }

  // ------------------------------------------------------------------ one sweep over the positions

  /** Only positions of the pair get their trail touched. */
  lemma {:induction false} SweepLeavesOthers(cfg: Config, tracker: Tracker, trails: Trails, ps: seq<Position>,
                                             pair: string, bar: Bar, now: int, broker: Broker, id: string)
    requires forall i :: 0 <= i < |ps| ==> ps[i].id != id || ps[i].symbol != pair
    ensures var w := Sweep(cfg, tracker, trails, ps, pair, bar, now, broker);
      (id in w.trails <==> id in trails) && (id in trails ==> w.trails[id] == trails[id])
  {
    if ps != [] {
      SweepLeavesOthers(cfg, tracker, trails, Front(ps), pair, bar, now, broker, id);
      assert Last(ps).id != id || Last(ps).symbol != pair;
    }
  }

  lemma {:induction false} SweepAddsOnlyOpen(cfg: Config, tracker: Tracker, trails: Trails, ps: seq<Position>,
                                             pair: string, bar: Bar, now: int, broker: Broker, id: string)
    requires id in Sweep(cfg, tracker, trails, ps, pair, bar, now, broker).trails
    ensures id in trails || exists i :: 0 <= i < |ps| && ps[i].id == id
  {
    if ps != [] && id !in trails {
      if Last(ps).id == id {
        assert ps[|ps| - 1].id == id;
      } else {
        SweepAddsOnlyOpen(cfg, tracker, trails, Front(ps), pair, bar, now, broker, id);
        var i :| 0 <= i < |ps| - 1 && Front(ps)[i].id == id;
        assert ps[i].id == id;
      }
    }
  }

  /** A surviving position comes from one open before, untouched or handled by itself. */
  ghost predicate CameFrom(cfg: Config, tracker: Tracker, trails: Trails, w: Swept,
                           pair: string, bar: Bar, now: int, broker: Broker, p: Position, q: Position)
  {
    if p.symbol != pair then
      q == p && (p.id in w.trails <==> p.id in trails) && (p.id in trails ==> w.trails[p.id] == trails[p.id])
    else
      var h := Handle(cfg, tracker, trails, p, bar, now, broker);
      q == h.after && !h.hit && p.id in w.trails && w.trails[p.id] == h.trail
  }

  lemma {:induction false} SurvivorCameFrom(cfg: Config, tracker: Tracker, trails: Trails, ps: seq<Position>,
                                            pair: string, bar: Bar, now: int, broker: Broker, k: nat)
    returns (i: nat)
    requires UniqueIds(ps)
    requires k < |Sweep(cfg, tracker, trails, ps, pair, bar, now, broker).kept|
    ensures i < |ps| && k <= i
    ensures var w := Sweep(cfg, tracker, trails, ps, pair, bar, now, broker);
      w.kept[k].id == ps[i].id && CameFrom(cfg, tracker, trails, w, pair, bar, now, broker, ps[i], w.kept[k])
  {
    hide Ratcheted, Widened, Proposal, TargetFrom, SlHit;
    var f := Sweep(cfg, tracker, trails, Front(ps), pair, bar, now, broker);
    var w := Sweep(cfg, tracker, trails, ps, pair, bar, now, broker);
    var p := Last(ps);
    if k < |f.kept| {
      i := SurvivorCameFrom(cfg, tracker, trails, Front(ps), pair, bar, now, broker, k);
      assert w.kept[k] == f.kept[k] && Front(ps)[i] == ps[i];
      assert ps[i].id != p.id;
    } else {
      i := |ps| - 1;
      SweepLeavesOthers(cfg, tracker, trails, Front(ps), pair, bar, now, broker, p.id);
      KeptIsShort(cfg, tracker, trails, Front(ps), pair, bar, now, broker);
    }
  }

  lemma {:induction false} KeptIsShort(cfg: Config, tracker: Tracker, trails: Trails, ps: seq<Position>,
                                       pair: string, bar: Bar, now: int, broker: Broker)
    ensures |Sweep(cfg, tracker, trails, ps, pair, bar, now, broker).kept| <= |ps|
  {
    if ps != [] { KeptIsShort(cfg, tracker, trails, Front(ps), pair, bar, now, broker); }
  }

  lemma {:induction false} SweepKeepsUniqueIds(cfg: Config, tracker: Tracker, trails: Trails, ps: seq<Position>,
                                               pair: string, bar: Bar, now: int, broker: Broker)
    requires UniqueIds(ps)
    ensures UniqueIds(Sweep(cfg, tracker, trails, ps, pair, bar, now, broker).kept)
  {
    if ps != [] {
      SweepKeepsUniqueIds(cfg, tracker, trails, Front(ps), pair, bar, now, broker);
      var f := Sweep(cfg, tracker, trails, Front(ps), pair, bar, now, broker);
      forall k | 0 <= k < |f.kept|
        ensures f.kept[k].id != Last(ps).id
      {
        var i := SurvivorCameFrom(cfg, tracker, trails, Front(ps), pair, bar, now, broker, k);
        assert Front(ps)[i] == ps[i];
      }
    }
  }

  // ------------------------------------------------------------------ the invariant

  lemma HandledFollows(cfg: Config, events: seq<Event>, p: Position, p0: Position)
    requires events != [] && Last(events).OnBar? && Proper(events)
    requires p.symbol == Last(events).pair
    requires Follows(cfg, Front(events), After(cfg, Front(events)).trails, p, p0)
    ensures var s, e := After(cfg, Front(events)), Last(events);
      var h := Handle(cfg, After(cfg, events).tracker, s.trails, p, e.bar, e.now, e.broker);
      && IsBest(p.side, h.trail.structural, p0.sl, Targets(cfg, events, p0))
      && Gain(p.side, h.after.sl, h.trail.structural) >= 0.0
      && h.after == p0.(sl := h.after.sl)
  {
    var s, e := After(cfg, Front(events)), Last(events);
    var tracker := After(cfg, events).tracker;
    TargetIsTracked(cfg, events, p0);
    var h := Handle(cfg, tracker, s.trails, p, e.bar, e.now, e.broker);
    var before := Seeded(s.trails, p, e.bar.symbol).structural;
    var target := TargetNow(cfg, events, p0);
    RatchetIsBest(p.side, before, target);
    assert h.trail.structural == Ratcheted(p.side, before, target);
    EffectiveIsNoTighter(cfg, p, e.bar.symbol, h.trail.structural, e.now);
    assert IsBest(p.side, before, p0.sl, Targets(cfg, Front(events), p0));
  }

  lemma BarKeepsFollows(cfg: Config, events: seq<Event>, k: nat)
    requires events != [] && Last(events).OnBar? && Proper(events)
    requires Invariant(cfg, Front(events), After(cfg, Front(events)))
    requires k < |After(cfg, events).positions|
    ensures var n := After(cfg, events);
      var q := n.positions[k];
      Registered(events, q.id).Some? && Follows(cfg, events, n.trails, q, Registered(events, q.id).value)
  {
    var s, e, n := After(cfg, Front(events)), Last(events), After(cfg, events);
    var i := SurvivorCameFrom(cfg, n.tracker, s.trails, s.positions, e.pair, e.bar, e.now, e.broker, k);
    var p, q := s.positions[i], n.positions[k];
    var p0 := Registered(Front(events), p.id).value;
    assert Registered(events, q.id) == Some(p0);
    if p.symbol == e.pair {
      HandledFollows(cfg, events, p, p0);
    } else {
      assert PairBars(events, p.symbol) == PairBars(Front(events), p.symbol);
      assert TargetNow(cfg, events, p0) == TargetNow(cfg, Front(events), p0);
      assert Targets(cfg, events, p0) == Targets(cfg, Front(events), p0);
    }
  }

  lemma RegisterKeepsFollows(cfg: Config, events: seq<Event>, k: nat)
    requires events != [] && Last(events).Register? && Proper(events)
    requires Invariant(cfg, Front(events), After(cfg, Front(events)))
    requires k < |After(cfg, events).positions|
    ensures var n := After(cfg, events);
      var q := n.positions[k];
      && (k < |n.positions| - 1 ==> q.id != Last(events).p.id)
      && Registered(events, q.id).Some? && Follows(cfg, events, n.trails, q, Registered(events, q.id).value)
  {
    var s, r, n := After(cfg, Front(events)), Last(events).p, After(cfg, events);
    var i := IndexOf(s.positions, r.id);
    assert i == |s.positions|;
    assert n.positions == s.positions + [r];
    if k < |s.positions| {
      var p := s.positions[k];
      var p0 := Registered(Front(events), p.id).value;
      assert p.id != r.id && Registered(events, p.id) == Some(p0);
      assert PairBars(events, p.symbol) == PairBars(Front(events), p.symbol);
      assert TargetNow(cfg, events, p0) == TargetNow(cfg, Front(events), p0);
      assert Targets(cfg, events, p0) == Targets(cfg, Front(events), p0);
    }
  }

  lemma {:induction false} InvariantHolds(cfg: Config, events: seq<Event>)
    requires Proper(events)
    ensures Invariant(cfg, events, After(cfg, events))
  {
    if events != [] {
      InvariantHolds(cfg, Front(events));
      var s, n := After(cfg, Front(events)), After(cfg, events);
      match Last(events) {
        case Register(r) =>
          forall k | 0 <= k < |n.positions|
            ensures (k < |n.positions| - 1 ==> n.positions[k].id != r.id)
            ensures Registered(events, n.positions[k].id).Some?
            ensures Follows(cfg, events, n.trails, n.positions[k], Registered(events, n.positions[k].id).value)
          {
            RegisterKeepsFollows(cfg, events, k);
          }
          assert IndexOf(s.positions, r.id) == |s.positions|;
          assert n.positions == s.positions + [r];
        case OnBar(pair, bar, now, broker) =>
          SweepKeepsUniqueIds(cfg, n.tracker, s.trails, s.positions, pair, bar, now, broker);
          forall k | 0 <= k < |n.positions|
            ensures Registered(events, n.positions[k].id).Some?
            ensures Follows(cfg, events, n.trails, n.positions[k], Registered(events, n.positions[k].id).value)
          {
            BarKeepsFollows(cfg, events, k);
          }
          forall id | id in n.trails
            ensures Registered(events, id).Some?
          {
            SweepAddsOnlyOpen(cfg, n.tracker, s.trails, s.positions, pair, bar, now, broker, id);
          }
      }
    }
  }

  // ------------------------------------------------------------------ what a reader can rely on

  /**
   * After any run, whatever the broker answered: the structural stop of a seen position is the most favourable of its
   * initial stop and every stop its pair's swings have called for since, and the cached stop is never beyond it.
   */
  lemma TrailClosedForm(cfg: Config, events: seq<Event>, p: Position)
    requires Proper(events) && p in After(cfg, events).positions
    ensures Registered(events, p.id).Some?
    ensures var p0 := Registered(events, p.id).value;
      && p == p0.(sl := p.sl)
      && (Seen(events, p0) <==> p.id in After(cfg, events).trails)
      && (Seen(events, p0) ==>
            var structural := After(cfg, events).trails[p.id].structural;
            && IsBest(p.side, structural, p0.sl, Targets(cfg, events, p0))
            && Gain(p.side, p.sl, structural) >= 0.0)
      && (!Seen(events, p0) ==> p.sl == p0.sl)
  {
    InvariantHolds(cfg, events);
  }

  /** The window settings play no part in the structural targets. */
  lemma {:induction false} TargetsIgnoreWindow(cfg: Config, other: Config, events: seq<Event>, p: Position)
    requires other.trailOffsetPips == cfg.trailOffsetPips
    ensures Targets(cfg, events, p) == Targets(other, events, p)
  {
    if events != [] { TargetsIgnoreWindow(cfg, other, Front(events), p); }
  }

  /** Right after an accepted maintenance the cached stop is the effective one, up to the broker-call threshold. */
  lemma AcceptedStopIsEffective(cfg: Config, events: seq<Event>, p: Position)
    requires Proper(events) && events != [] && Last(events).OnBar? && Last(events).pair == p.symbol
    requires forall q, sl :: Last(events).broker(q, sl)
    requires p in After(cfg, events).positions
    ensures p.id in After(cfg, events).trails
    ensures var structural := After(cfg, events).trails[p.id].structural;
      Abs(Effective(cfg, p, p.symbol, structural, Last(events).now) - p.sl) < SL_EPSILON
  {
    var s, e, n := After(cfg, Front(events)), Last(events), After(cfg, events);
    var before := HandledFrom(cfg, events, p);
  }

  /** A position of the pair that is still open after a bar is what the bar made of one open before. */
  lemma HandledFrom(cfg: Config, events: seq<Event>, p: Position) returns (before: Position)
    requires Proper(events) && events != [] && Last(events).OnBar? && Last(events).pair == p.symbol
    requires p in After(cfg, events).positions
    ensures var s, e, n := After(cfg, Front(events)), Last(events), After(cfg, events);
      var h := Handle(cfg, n.tracker, s.trails, before, e.bar, e.now, e.broker);
      p == h.after && p.id in n.trails && n.trails[p.id] == h.trail
  {
    var s, e, n := After(cfg, Front(events)), Last(events), After(cfg, events);
    InvariantHolds(cfg, Front(events));
    var k :| 0 <= k < |n.positions| && n.positions[k] == p;
    var i := SurvivorCameFrom(cfg, n.tracker, s.trails, s.positions, e.pair, e.bar, e.now, e.broker, k);
    before := s.positions[i];
  }

  lemma StopOutsideWindow(cfg: Config, events: seq<Event>, p: Position, p0: Position)
    returns (best: real)
    requires Proper(events) && events != [] && Last(events).OnBar? && Last(events).pair == p.symbol
    requires forall r, sl :: Last(events).broker(r, sl)
    requires !InWindow(cfg, Last(events).now)
    requires p in After(cfg, events).positions && Registered(events, p.id) == Some(p0)
    ensures IsBest(p.side, best, p0.sl, Targets(cfg, events, p0)) && Abs(best - p.sl) < SL_EPSILON
  {
    TrailClosedForm(cfg, events, p);
    AcceptedStopIsEffective(cfg, events, p);
    best := After(cfg, events).trails[p.id].structural;
  }

  /**
   * The rollover window leaves no trace: outside it, after an accepted maintenance, a position still open in a run with
   * the window and in the same run without one has its stop, in both, within the threshold of the same structural stop.
   */
  lemma WindowLeavesNoTrace(cfg: Config, events: seq<Event>, p: Position, q: Position, p0: Position)
    returns (best: real)
    requires Proper(events) && events != [] && Last(events).OnBar? && Last(events).pair == p.symbol
    requires forall r, sl :: Last(events).broker(r, sl)
    requires !InWindow(cfg, Last(events).now)
    requires p in After(cfg, events).positions && Registered(events, p.id) == Some(p0)
    requires q in After(cfg.(windowBeforeMin := 0, windowAfterMin := 0), events).positions && q.id == p.id
    ensures IsBest(p.side, best, p0.sl, Targets(cfg, events, p0))
    ensures Abs(best - p.sl) < SL_EPSILON && Abs(best - q.sl) < SL_EPSILON
  {
    var never := cfg.(windowBeforeMin := 0, windowAfterMin := 0);
    var now := Last(events).now;
    best := StopOutsideWindow(cfg, events, p, p0);
    TrailClosedForm(cfg, events, p);
    TrailClosedForm(never, events, q);
    var best' := StopOutsideWindow(never, events, q, p0);
    TargetsIgnoreWindow(cfg, never, events, p0);
    BestIsUnique(p.side, best, best', p0.sl, Targets(cfg, events, p0));
  }

  // ------------------------------------------------------------------ no self-hit

  lemma LatestSwingIsAtThePreviousBar(bars: seq<Bar>, b: Bar, kind: Kind)
    ensures var all := bars + [b];
      var earlier, latest := LastPrice(Prices(Swings(bars, 1), kind)), LastPrice(Prices(Swings(all, 1), kind));
      latest == earlier
      || (|bars| >= 2 && latest == Some(PriceOf(kind, Last(bars))) && Beats(kind, Last(bars), b))
  {
    PricesGrow(bars, b, kind);
    if |bars| >= 2 {
      assert Window(bars + [b]) == [bars[|bars| - 2], bars[|bars| - 1], b];
    }
  }

  /**
   * A bar that raises the structural stop of a position seen before never stops that position out itself, inside or
   * outside the window and whether or not the broker accepts the new stop.
   */
  lemma NoSelfHit(cfg: Config, events: seq<Event>, p: Position, p0: Position)
    requires cfg.trailOffsetPips >= 0.0
    requires Proper(events) && events != [] && Last(events).OnBar? && Last(events).pair == p.symbol
    requires p in After(cfg, Front(events)).positions
    requires Registered(Front(events), p.id) == Some(p0) && Seen(Front(events), p0)
    ensures var s, e := After(cfg, Front(events)), Last(events);
      var h := Handle(cfg, After(cfg, events).tracker, s.trails, p, e.bar, e.now, e.broker);
      p.id in s.trails && (h.trail.structural != s.trails[p.id].structural ==> !h.hit)
  {
    var s, e := After(cfg, Front(events)), Last(events);
    InvariantHolds(cfg, Front(events));
    HandledFollows(cfg, events, p, p0);
    var h := Handle(cfg, After(cfg, events).tracker, s.trails, p, e.bar, e.now, e.broker);
    if h.trail.structural != s.trails[p.id].structural {
      TargetIsTracked(cfg, events, p0);
      LatestSwingIsAtThePreviousBar(PairBars(Front(events), p.symbol), e.bar, AnchorKind(p.side));
      var earlier, latest := TargetNow(cfg, Front(events), p0), TargetNow(cfg, events, p0);
      assert latest == Some(h.trail.structural);
      assert latest != earlier;
      assert Offset(cfg, p.symbol) >= 0.0;
      assert Gain(p.side, h.trail.structural, Worst(p.side, e.bar)) > 0.0;
    }
  }
}
