/**
 * The Griff position manager (execution/position_manager.py): per-bar maintenance of every open position of a pair,
 * and what the trailing stop amounts to over whole runs of registrations and bars, whatever the broker answers.
 */
module PositionManager {
  import opened Common
  import opened Market
  import opened SwingTracker
  import opened TrailingStop

  /** Whether the broker accepts a new stop for a position. */
  type Broker = (Position, real) -> bool

  datatype State = State(tracker: Tracker, trails: Trails, positions: seq<Position>)

  datatype Report = Report(slUpdates: seq<(string, real)>, closed: seq<string>)

  predicate UniqueIds(ps: seq<Position>) {
    forall i, j :: 0 <= i < j < |ps| ==> ps[i].id != ps[j].id
  }

  predicate SlHit(p: Position, bar: Bar) {
    Gain(p.side, p.sl, Worst(p.side, bar)) <= 0.0
  }

  // ------------------------------------------------------------------ maintenance as a function

  /** What one bar does to one position on its pair. */
  datatype Handled = Handled(trail: Trail, update: Option<real>, after: Position, hit: bool)

  function Handle(cfg: Config, tracker: Tracker, trails: Trails, p: Position, bar: Bar, now: int, broker: Broker)
    : Handled
  {
    var trail := NextTrail(cfg, tracker, trails, p, bar.symbol, now);
    var proposal := Proposal(cfg, trail, p, bar.symbol, now);
    var update := if proposal.Some? && broker(p, proposal.value) then proposal else None;
    var after := if update.Some? then p.(sl := update.value) else p;
    Handled(trail, update, after, SlHit(after, bar))
  }

  /** Trails, surviving positions and report after the positions of `ps` were visited in order. */
  datatype Swept = Swept(trails: Trails, kept: seq<Position>, report: Report)

  function Sweep(cfg: Config, tracker: Tracker, trails: Trails, ps: seq<Position>,
                 pair: string, bar: Bar, now: int, broker: Broker): Swept
  {
    if ps == [] then Swept(trails, [], Report([], []))
    else
      var s := Sweep(cfg, tracker, trails, Front(ps), pair, bar, now, broker);
      var p := Last(ps);
      if p.symbol != pair then s.(kept := s.kept + [p])
      else
        var h := Handle(cfg, tracker, s.trails, p, bar, now, broker);
        Swept(s.trails[p.id := h.trail],
              if h.hit then s.kept else s.kept + [h.after],
              Report(if h.update.Some? then s.report.slUpdates + [(p.id, h.update.value)] else s.report.slUpdates,
                     if h.hit then s.report.closed + [p.id] else s.report.closed))
  }

  lemma SweepNone(cfg: Config, tracker: Tracker, trails: Trails, pair: string, bar: Bar, now: int, broker: Broker)
    ensures Sweep(cfg, tracker, trails, [], pair, bar, now, broker) == Swept(trails, [], Report([], []))
  {
  }

  /** One more position. */
  lemma SweepOne(cfg: Config, tracker: Tracker, trails: Trails, ps: seq<Position>, p: Position,
                 pair: string, bar: Bar, now: int, broker: Broker)
    ensures var s, r := Sweep(cfg, tracker, trails, ps, pair, bar, now, broker),
                        Sweep(cfg, tracker, trails, ps + [p], pair, bar, now, broker);
      if p.symbol != pair then r == s.(kept := s.kept + [p])
      else
        var h := Handle(cfg, tracker, s.trails, p, bar, now, broker);
        && r.trails == s.trails[p.id := h.trail]
        && r.kept == (if h.hit then s.kept else s.kept + [h.after])
        && r.report.slUpdates ==
            (if h.update.Some? then s.report.slUpdates + [(p.id, h.update.value)] else s.report.slUpdates)
        && r.report.closed == (if h.hit then s.report.closed + [p.id] else s.report.closed)
  {
    hide Handle;
    assert Front(ps + [p]) == ps;
  }

  function Maintained(cfg: Config, s: State, pair: string, bar: Bar, now: int, broker: Broker): State {
    var tracker := Feed(s.tracker, pair, bar);
    var w := Sweep(cfg, tracker, s.trails, s.positions, pair, bar, now, broker);
    State(tracker, w.trails, w.kept)
  }

  /** What the call that does this reports. */
  function Reported(cfg: Config, s: State, pair: string, bar: Bar, now: int, broker: Broker): Report {
    Sweep(cfg, Feed(s.tracker, pair, bar), s.trails, s.positions, pair, bar, now, broker).report
  }

  // ------------------------------------------------------------------ what a bar does to the list

  /** The bar stayed on the winning side of the stop. */
  predicate Clear(p: Position, bar: Bar) {
    if p.side.Buy? then bar.low > p.sl else bar.high < p.sl
  }

  predicate HasId(ps: seq<Position>, id: string) {
    exists i :: 0 <= i < |ps| && ps[i].id == id
  }

  /** The ids that were in the list before and are not after, in order. */
  function Gone(before: seq<Position>, after: seq<Position>): seq<string> {
    if before == [] then []
    else Gone(Front(before), after) + if HasId(after, Last(before).id) then [] else [Last(before).id]
  }

  lemma {:induction false} KeptWereThere(cfg: Config, tracker: Tracker, trails: Trails, ps: seq<Position>,
                                         pair: string, bar: Bar, now: int, broker: Broker, id: string)
    requires HasId(Sweep(cfg, tracker, trails, ps, pair, bar, now, broker).kept, id)
    ensures HasId(ps, id)
  {
    hide Handle;
    var w := Sweep(cfg, tracker, trails, ps, pair, bar, now, broker);
    var k :| 0 <= k < |w.kept| && w.kept[k].id == id;
    var f := Sweep(cfg, tracker, trails, Front(ps), pair, bar, now, broker);
    if k < |f.kept| {
      assert f.kept[k].id == id;
      KeptWereThere(cfg, tracker, trails, Front(ps), pair, bar, now, broker, id);
      var i :| 0 <= i < |Front(ps)| && Front(ps)[i].id == id;
      assert ps[i].id == id;
    } else {
      assert w.kept[k].id == Last(ps).id by { HandleKeepsId(cfg, tracker, f.trails, Last(ps), bar, now, broker); }
      assert ps[|ps| - 1].id == id;
    }
  }

  lemma HandleKeepsId(cfg: Config, tracker: Tracker, trails: Trails, p: Position, bar: Bar, now: int, broker: Broker)
    ensures var h := Handle(cfg, tracker, trails, p, bar, now, broker);
      && h.after == p.(sl := h.after.sl)
      && (!h.hit <==> if p.side.Buy? then bar.low > h.after.sl else bar.high < h.after.sl)
  {
    hide NextTrail, Proposal;
  }

  /** Whether an id is still there does not depend on a position with another id at the end. */
  lemma {:induction false} GoneIgnoresOthers(before: seq<Position>, after: seq<Position>, q: Position)
    requires !HasId(before, q.id)
    ensures Gone(before, after + [q]) == Gone(before, after)
  {
    if before != [] {
      assert before == Front(before) + [Last(before)];
      MoreIds(Front(before), Last(before), q.id);
      GoneIgnoresOthers(Front(before), after, q);
      MoreIds(after, q, Last(before).id);
    }
  }

  lemma MoreIds(ps: seq<Position>, q: Position, id: string)
    ensures HasId(ps + [q], id) <==> HasId(ps, id) || q.id == id
  {
    var more := ps + [q];
    if HasId(ps, id) {
      var i :| 0 <= i < |ps| && ps[i].id == id;
      assert more[i].id == id;
    }
    if q.id == id { assert more[|ps|].id == id; }
    if HasId(more, id) && q.id != id {
      var i :| 0 <= i < |more| && more[i].id == id;
      assert ps[i].id == id;
    }
  }

  /** What is left of the pair is clear of the bar, and the report names exactly what is gone. */
  lemma {:induction false} SweepCloses(cfg: Config, tracker: Tracker, trails: Trails, ps: seq<Position>,
                                       pair: string, bar: Bar, now: int, broker: Broker)
    requires UniqueIds(ps)
    ensures var w := Sweep(cfg, tracker, trails, ps, pair, bar, now, broker);
      && (forall q :: q in w.kept && q.symbol == pair ==> Clear(q, bar))
      && w.report.closed == Gone(ps, w.kept)
  {
    hide Handle, UniqueIds, HasId;
    if ps != [] {
      var before, p := Front(ps), Last(ps);
      FrontIsUnique(ps);
      SweepCloses(cfg, tracker, trails, before, pair, bar, now, broker);
      var f := Sweep(cfg, tracker, trails, before, pair, bar, now, broker);
      HandleKeepsId(cfg, tracker, f.trails, p, bar, now, broker);
      if HasId(f.kept, p.id) { KeptWereThere(cfg, tracker, trails, before, pair, bar, now, broker, p.id); }
      var q := if p.symbol != pair then p else Handle(cfg, tracker, f.trails, p, bar, now, broker).after;
      GoneIgnoresOthers(before, f.kept, q);
      MoreIds(f.kept, q, p.id);
    }
  }

  lemma FrontIsUnique(ps: seq<Position>)
    requires UniqueIds(ps) && ps != []
    ensures UniqueIds(Front(ps)) && !HasId(Front(ps), Last(ps).id)
  {
  }

  // ------------------------------------------------------------------ the ordered dictionary of positions

  function IndexOf(ps: seq<Position>, id: string): (i: nat)
    ensures i <= |ps|
    ensures i < |ps| ==> ps[i].id == id
    ensures forall j :: 0 <= j < i ==> ps[j].id != id
  {
    if ps == [] || ps[0].id == id then 0 else 1 + IndexOf(ps[1..], id)
  }

  /** Assignment to a key: in place if the key is there, at the end otherwise. */
  function Put(ps: seq<Position>, p: Position): seq<Position> {
    var i := IndexOf(ps, p.id);
    if i < |ps| then ps[i := p] else ps + [p]
  }

  function Del(ps: seq<Position>, id: string): seq<Position> {
    var i := IndexOf(ps, id);
    if i < |ps| then ps[..i] + ps[i + 1..] else ps
  }

  lemma PutDelAt(a: seq<Position>, p: Position, b: seq<Position>, q: Position)
    requires UniqueIds(a + [p] + b) && q.id == p.id
    ensures Put(a + [p] + b, q) == a + [q] + b
    ensures Del(a + [p] + b, p.id) == a + b
    ensures UniqueIds(a + [q] + b) && UniqueIds(a + b)
  {
    var ps := a + [p] + b;
    var i := IndexOf(ps, p.id);
    assert ps[|a|] == p;
    assert i == |a|;
  }

  lemma SplitHead<T>(a: seq<T>, s: seq<T>, i: nat)
    requires i < |s|
    ensures a + s[i..] == a + [s[i]] + s[i + 1..]
  {
  }

  // ------------------------------------------------------------------ the manager

  class GriffPositionManager {
    const tracker: TrackerState
    const trail: TrailingStopLoss
    var positions: seq<Position>

    ghost predicate Valid()
      reads this
    {
      trail.tracker == tracker && UniqueIds(positions)
    }

    function View(): State
      reads this, tracker, trail
    {
      State(tracker.state, trail.state, positions)
    }

    constructor (tracker: TrackerState, trail: TrailingStopLoss)
      requires trail.tracker == tracker
      ensures Valid() && positions == [] && this.tracker == tracker && this.trail == trail
    {
      this.tracker, this.trail, positions := tracker, trail, [];
    }

    method RegisterPosition(p: Position)
      requires Valid()
      modifies this
      ensures Valid() && View() == old(View()).(positions := Put(old(positions), p))
    {
      positions := Put(positions, p);
    }

    /** Overwrite the cached position with its copy at the new stop. */
    method ReplaceStop(p: Position, newSl: real, ghost kept: seq<Position>, ghost rest: seq<Position>)
      returns (updated: Position)
      requires Valid() && positions == kept + [p] + rest
      modifies this`positions
      ensures Valid() && updated == p.(sl := newSl) && positions == kept + [updated] + rest
    {
      updated := p.(sl := newSl);
      PutDelAt(kept, p, rest, updated);
      positions := Put(positions, updated);
    }

    method Remove(p: Position, ghost kept: seq<Position>, ghost rest: seq<Position>)
      requires Valid() && positions == kept + [p] + rest
      modifies this`positions
      ensures Valid() && positions == kept + rest
    {
      PutDelAt(kept, p, rest, p);
      positions := Del(positions, p.id);
    }

    /** One pass of the loop over open positions; `kept` and `rest` are the entries before and after this one. */
    method MaintainOne(p: Position, bar: Bar, now: int, broker: Broker, ghost kept: seq<Position>,
                       ghost rest: seq<Position>)
      returns (update: Option<real>, hit: bool)
      requires Valid() && positions == kept + [p] + rest
      modifies this`positions, trail
      ensures Valid()
      ensures var h := Handle(trail.cfg, tracker.state, old(trail.state), p, bar, now, broker);
        && trail.state == old(trail.state)[p.id := h.trail]
        && (h.hit ==> positions == kept + rest)
        && (!h.hit ==> positions == kept + [h.after] + rest)
        && update == h.update && hit == h.hit
    {
      var pos := p;
      update := None;
      var newSl := trail.Update(pos, bar, now);
      if newSl.Some? {
        var ok := broker(pos, newSl.value);
        if ok {
          pos := ReplaceStop(pos, newSl.value, kept, rest);
          update := newSl;
        }
      }
      assert pos == Handle(trail.cfg, tracker.state, old(trail.state), p, bar, now, broker).after;
      hit := if pos.side == Buy then bar.low <= pos.sl else bar.high >= pos.sl;
      if hit { Remove(pos, kept, rest); }
    }

    method Maintain(pair: string, bar: Bar, now: int, broker: Broker) returns (report: Report)
      requires Valid()
      modifies this`positions, tracker, trail
      ensures Valid() && View() == Maintained(trail.cfg, old(View()), pair, bar, now, broker)
      ensures report == Reported(trail.cfg, old(View()), pair, bar, now, broker)
      ensures forall p :: p in positions && p.symbol == pair ==> Clear(p, bar)
      ensures report.closed == Gone(old(positions), positions)
    {
      hide Handle, UniqueIds, Feed, Sweep, Clear, Gone;
      var _ := tracker.Update(pair, bar);
      var slUpdates, closed := [], [];
      var snapshot := positions;
      assert snapshot[..0] == [] && snapshot[0..] == snapshot;
      SweepNone(trail.cfg, tracker.state, old(trail.state), pair, bar, now, broker);
      for i := 0 to |snapshot|
        invariant tracker.state == Feed(old(tracker.state), pair, bar) && Valid()
        invariant var w := Sweep(trail.cfg, tracker.state, old(trail.state), snapshot[..i], pair, bar, now, broker);
          && trail.state == w.trails && positions == w.kept + snapshot[i..]
          && slUpdates == w.report.slUpdates && closed == w.report.closed
      {
        var pos := snapshot[i];
        ghost var w := Sweep(trail.cfg, tracker.state, old(trail.state), snapshot[..i], pair, bar, now, broker);
        ghost var kept, rest := w.kept, snapshot[i + 1..];
        SplitHead(kept, snapshot, i);
        SweepOne(trail.cfg, tracker.state, old(trail.state), snapshot[..i], pos, pair, bar, now, broker);
        assert snapshot[..i + 1] == snapshot[..i] + [pos];
        if pos.symbol == pair {
          var update, hit := MaintainOne(pos, bar, now, broker, kept, rest);
          if update.Some? { slUpdates := slUpdates + [(pos.id, update.value)]; }
          if hit { closed := closed + [pos.id]; }
        }
      }
      assert snapshot[..|snapshot|] == snapshot;
      report := Report(slUpdates, closed);
      SweepCloses(trail.cfg, tracker.state, old(trail.state), old(positions), pair, bar, now, broker);
    }
  }
}
