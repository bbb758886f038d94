/** The swing-anchored trailing stop with rollover protection (risk/trailing_sl.py, config/griff_config.py). */
module TrailingStop {
  import opened Clock
  import opened Common
  import opened Market
  import opened SwingTracker

  /** A proposed stop closer than this to the current one is not worth a broker call. */
  const SL_EPSILON := 0.000000001

  datatype Config = Config(
    trailOffsetPips: real, widenPips: map<string, nat>, defaultWidenPips: nat,
    rolloverMinute: nat, windowBeforeMin: nat, windowAfterMin: nat)

  /** The part of an open position the trail looks at. */
  datatype Position = Position(id: string, symbol: string, side: Direction, entry: real, sl: real)

  /** Per-position memory; `preSpreadSl` is captured when widening starts. */
  datatype Trail = Trail(pair: string, structural: real, spreadActive: bool, preSpreadSl: Option<real>)

  function Upper(s: string): string {
    seq(|s|, i requires 0 <= i < |s| => if 'a' <= s[i] <= 'z' then s[i] - 'a' + 'A' else s[i])
  }

  predicate Contains(s: string, sub: string) {
    sub <= s || (s != [] && Contains(s[1..], sub))
  }

  function PipSize(pair: string): (r: real)
    ensures r > 0.0
  {
    if Contains(Upper(pair), "JPY") then 0.01 else 0.0001
  }

  function Offset(cfg: Config, pair: string): real {
    cfg.trailOffsetPips * PipSize(pair)
  }

  function WidenPipsFor(cfg: Config, pair: string): nat {
    if Upper(pair) in cfg.widenPips then cfg.widenPips[Upper(pair)] else cfg.defaultWidenPips
  }

  function Widening(cfg: Config, pair: string): (r: real)
    ensures r >= 0.0
  {
    WidenPipsFor(cfg, pair) as real * PipSize(pair)
  }

  /** The band around the rollover of the same UTC day; it does not wrap around midnight. */
  predicate InWindow(cfg: Config, now: int) {
    (cfg.rolloverMinute - cfg.windowBeforeMin) * MINUTE_MS
      <= now % DAY_MS < (cfg.rolloverMinute + cfg.windowAfterMin) * MINUTE_MS
  }

  /** Swing lows carry a long, swing highs a short. */
  function AnchorKind(side: Direction): Kind {
    if side.Buy? then Low else High
  }

  /** Where the given anchor would put the stop. */
  function TargetFrom(cfg: Config, anchor: Option<real>, pair: string, side: Direction): Option<real> {
    if anchor.None? then None else Some(Shift(side, anchor.value, -Offset(cfg, pair)))
  }

  function Ratcheted(side: Direction, current: real, target: Option<real>): real {
    if target.Some? && Gain(side, current, target.value) > 0.0 then target.value else current
  }

  /** Protection is on: inside the band, and the stop has not reached the entry. */
  predicate Widened(cfg: Config, p: Position, structural: real, now: int) {
    InWindow(cfg, now) && Gain(p.side, p.entry, structural) < 0.0
  }

  function Effective(cfg: Config, p: Position, pair: string, structural: real, now: int): real {
    if Widened(cfg, p, structural, now) then Shift(p.side, structural, -Widening(cfg, pair)) else structural
  }

  type Trails = map<string, Trail>

  function Seeded(trails: Trails, p: Position, pair: string): Trail {
    if p.id in trails then trails[p.id] else Trail(pair, p.sl, false, None)
  }

  function NextTrail(cfg: Config, tracker: Tracker, trails: Trails, p: Position, pair: string, now: int): Trail {
    var t := Seeded(trails, p, pair);
    var s := Ratcheted(p.side, t.structural,
        TargetFrom(cfg, LastSwing(tracker, pair, AnchorKind(p.side)), pair, p.side));
    if Widened(cfg, p, s, now) then
      Trail(t.pair, s, true, if t.spreadActive then t.preSpreadSl else Some(s))
    else
      Trail(t.pair, s, false, if t.spreadActive then None else t.preSpreadSl)
  }

  /** The new stop the broker is asked for, when it differs materially. */
  function Proposal(cfg: Config, trail: Trail, p: Position, pair: string, now: int): Option<real> {
    var e := Effective(cfg, p, pair, trail.structural, now);
    if Abs(e - p.sl) < SL_EPSILON then None else Some(e)
  }

  class TrailingStopLoss {
    const tracker: TrackerState
    const cfg: Config
    var state: Trails

    constructor (tracker: TrackerState, cfg: Config)
      ensures this.tracker == tracker && this.cfg == cfg && state == map[]
    {
      this.tracker, this.cfg, state := tracker, cfg, map[];
    }

    method InProtectionWindow(now: int) returns (inside: bool)
      ensures inside <==> InWindow(cfg, now)
    {
      var midnight := now - now % DAY_MS;
      var rollover := midnight + cfg.rolloverMinute * MINUTE_MS;
      var start := rollover - cfg.windowBeforeMin * MINUTE_MS;
      var end := rollover + cfg.windowAfterMin * MINUTE_MS;
      inside := start <= now < end;
    }

    method Update(position: Position, bar: Bar, now: int) returns (newSl: Option<real>)
      modifies this
      ensures var trail := NextTrail(cfg, tracker.state, old(state), position, bar.symbol, now);
        && state == old(state)[position.id := trail]
        && newSl == Proposal(cfg, trail, position, bar.symbol, now)
    {
      var pid, pair := position.id, bar.symbol;
      var trail := Trail(pair, position.sl, false, None);
      if pid in state { trail := state[pid]; }
      var structural := RaiseStructural(position.side, pair, trail.structural);
      trail := trail.(structural := structural);
      var inWindow := InProtectionWindow(now);
      var inProfit := if position.side == Buy then structural >= position.entry else structural <= position.entry;
      var effective;
      if inWindow && !inProfit {
        if !trail.spreadActive {
          trail := trail.(spreadActive := true, preSpreadSl := Some(structural));
        }
        var widen := Widening(cfg, pair);
        effective := if position.side == Buy then structural - widen else structural + widen;
      } else {
        if trail.spreadActive {
          trail := trail.(spreadActive := false, preSpreadSl := None);
        }
        effective := structural;
      }
      state := state[pid := trail];
      newSl := if Abs(effective - position.sl) < SL_EPSILON then None else Some(effective);
    }

    /** The structural trail from the latest swing, favourable-only. */
    method RaiseStructural(side: Direction, pair: string, structural: real) returns (raised: real)
      ensures raised == Ratcheted(side, structural,
                TargetFrom(cfg, LastSwing(tracker.state, pair, AnchorKind(side)), pair, side))
    {
      raised := structural;
      var offset := Offset(cfg, pair);
      if side == Buy {
        var anchor := tracker.GetLastSwing(pair, Low);
        if anchor.Some? {
          var target := anchor.value - offset;
          if target > structural { raised := target; }
        }
      } else {
        var anchor := tracker.GetLastSwing(pair, High);
        if anchor.Some? {
          var target := anchor.value + offset;
          if target < structural { raised := target; }
        }
      }
    }
  }

  // ------------------------------------------------------------------ one update

  /** The stop never moves against the position, covers the target, and comes from one of the two. */
  lemma RatchetIsBest(side: Direction, current: real, target: Option<real>)
    ensures var r := Ratcheted(side, current, target);
      && Gain(side, current, r) >= 0.0
      && (target.Some? ==> Gain(side, target.value, r) >= 0.0)
      && (r == current || target == Some(r))
  {
  }

  /** Widening only ever loosens the stop. */
  lemma EffectiveIsNoTighter(cfg: Config, p: Position, pair: string, structural: real, now: int)
    ensures Gain(p.side, Effective(cfg, p, pair, structural, now), structural) >= 0.0
  {
  }
}
