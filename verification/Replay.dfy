/** The replay producer (replay/replay_engine.py): which ticks it emits, wherever files and batches begin. */
module Replay {
  import opened Common
  import opened TickCollector

  function Flat<T>(xss: seq<seq<T>>): seq<T> {
    if xss == [] then [] else Flat(Front(xss)) + Last(xss)
  }

  /** Tick `i` is later than the epoch and than every tick before it. */
  predicate IsMaximum(ticks: seq<Tick>, i: nat)
    requires i < |ticks|
  {
    ticks[i].time > 0 && forall j :: 0 <= j < i ==> ticks[j].time < ticks[i].time
  }

  /** The strict running maxima of time. */
  function Maxima(ticks: seq<Tick>): seq<Tick> {
    if ticks == [] then []
    else Maxima(Front(ticks)) + if IsMaximum(ticks, |ticks| - 1) then [Last(ticks)] else []
  }

  /** The latest time so far, starting at the epoch. */
  function Latest(ticks: seq<Tick>): int {
    if ticks == [] then 0 else MaxInt(Latest(Front(ticks)), Last(ticks).time)
  }

  lemma {:induction false} LatestBoundsAll(ticks: seq<Tick>)
    ensures Latest(ticks) >= 0 && forall i :: 0 <= i < |ticks| ==> ticks[i].time <= Latest(ticks)
    ensures Latest(ticks) == 0 || exists i :: 0 <= i < |ticks| && ticks[i].time == Latest(ticks)
  {
    if ticks != [] {
      LatestBoundsAll(Front(ticks));
      if Latest(ticks) != 0 {
        if Last(ticks).time == Latest(ticks) {
          assert ticks[|ticks| - 1].time == Latest(ticks);
        } else {
          var i :| 0 <= i < |Front(ticks)| && Front(ticks)[i].time == Latest(ticks);
          assert ticks[i].time == Latest(ticks);
        }
      }
    }
  }

  lemma NextMaximum(ticks: seq<Tick>, t: Tick)
    ensures IsMaximum(ticks + [t], |ticks|) <==> t.time > Latest(ticks)
    ensures Maxima(ticks + [t]) == Maxima(ticks) + if t.time > Latest(ticks) then [t] else []
    ensures Latest(ticks + [t]) == MaxInt(Latest(ticks), t.time)
  {
    assert Front(ticks + [t]) == ticks;
    LatestBoundsAll(ticks);
    if t.time > Latest(ticks) {
      forall j | 0 <= j < |ticks| ensures (ticks + [t])[j].time < t.time { assert ticks[j].time <= Latest(ticks); }
    }
  }

  class ReplayEngine {
    var lastEmitted: int
    var emitted: nat
    var skipped: nat
    var queue: seq<Tick>

    constructor ()
      ensures lastEmitted == 0 && emitted == 0 && skipped == 0 && queue == []
    {
      lastEmitted, emitted, skipped, queue := 0, 0, 0, [];
    }

    /** `seen` have been read so far; pacing and yielding change nothing of this. */
    ghost predicate HasReplayed(seen: seq<Tick>)
      reads this
    {
      && queue == Maxima(seen) && lastEmitted == Latest(seen)
      && emitted == |queue| && emitted + skipped == |seen|
    }

    method Emit(t: Tick, ghost seen: seq<Tick>)
      requires HasReplayed(seen)
      modifies this
      ensures HasReplayed(seen + [t])
    {
      NextMaximum(seen, t);
      if t.time <= lastEmitted {
        skipped := skipped + 1;
        return;
      }
      queue := queue + [t];
      emitted := emitted + 1;
      lastEmitted := t.time;
    }

    method ReplayBatch(batch: seq<Tick>, ghost seen: seq<Tick>)
      requires HasReplayed(seen)
      modifies this
      ensures HasReplayed(seen + batch)
    {
      assert seen + batch[..0] == seen;
      for i := 0 to |batch|
        invariant HasReplayed(seen + batch[..i])
      {
        Emit(batch[i], seen + batch[..i]);
        assert seen + batch[..i] + [batch[i]] == seen + batch[..i + 1];
      }
      assert batch[..|batch|] == batch;
    }

    /** Replays the files, each a list of batches, in the given order; nothing is dropped. */
    method Run(files: seq<seq<seq<Tick>>>) returns (r: Result<nat, string>)
      requires HasReplayed([])
      modifies this
      ensures r.Err? <==> files == []
      ensures r.Ok? ==>
          queue == Maxima(Flat(Flat(files))) && r.value == |queue| && emitted + skipped == |Flat(Flat(files))|
      ensures r.Err? ==> queue == old(queue)
    {
      if |files| == 0 { return Err("No parquet files for replay"); }
      ghost var seen: seq<Tick> := [];
      assert files[..0] == [];
      for f := 0 to |files|
        invariant seen == Flat(Flat(files[..f])) && HasReplayed(seen)
      {
        assert Front(files[..f + 1]) == files[..f];
        var file := files[f];
        ghost var start := seen;
        assert file[..0] == [] && Flat(file[..0]) == [] && start + [] == start;
        for b := 0 to |file|
          invariant seen == start + Flat(file[..b]) && HasReplayed(seen)
        {
          assert Front(file[..b + 1]) == file[..b];
          ReplayBatch(file[b], seen);
          seen := seen + file[b];
          assert start + (Flat(file[..b]) + file[b]) == seen;
        }
        assert file[..|file|] == file;
        FlatOfConcat(Flat(files[..f]), file);
      }
      assert files[..|files|] == files;
      r := Ok(emitted);
    }
  }

  lemma {:induction false} FlatOfConcat<T>(a: seq<seq<T>>, b: seq<seq<T>>)
    ensures Flat(a + b) == Flat(a) + Flat(b)
  {
    if b == [] {
      assert a + b == a;
    } else {
      FlatOfConcat(a, Front(b));
      assert Front(a + b) == a + Front(b);
      assert Flat(a) + (Flat(Front(b)) + Last(b)) == (Flat(a) + Flat(Front(b))) + Last(b);
    }
  }

  /** Reading something again that is no later than what was read before changes nothing. */
  lemma {:induction false} MaximaIgnoreRepeats(ticks: seq<Tick>, again: seq<Tick>)
    requires forall t :: t in again ==> t in ticks
    ensures Maxima(ticks + again) == Maxima(ticks) && Latest(ticks + again) == Latest(ticks)
  {
    if again == [] {
      assert ticks + again == ticks;
    } else {
      var before := ticks + Front(again);
      MaximaIgnoreRepeats(ticks, Front(again));
      assert ticks + again == before + [Last(again)];
      NextMaximum(before, Last(again));
      LatestBoundsAll(ticks);
      assert Last(again) in again && Last(again) in ticks;
      var i :| 0 <= i < |ticks| && ticks[i] == Last(again);
      assert ticks[i].time <= Latest(ticks);
    }
  }

  /** A replay gives back everything that was stored exactly when times are positive and strictly increasing. */
  lemma {:induction false} LosslessExactlyWhenStrict(ticks: seq<Tick>)
    ensures |Maxima(ticks)| <= |ticks|
    ensures Maxima(ticks) == ticks <==> forall i :: 0 <= i < |ticks| ==> IsMaximum(ticks, i)
  {
    if ticks != [] {
      LosslessExactlyWhenStrict(Front(ticks));
      assert ticks == Front(ticks) + [Last(ticks)];
      forall i | 0 <= i < |ticks| - 1 ensures IsMaximum(ticks, i) == IsMaximum(Front(ticks), i) {}
      if Maxima(ticks) == ticks {
        assert IsMaximum(ticks, |ticks| - 1);
        assert Maxima(Front(ticks)) == Front(ticks);
      }
    }
  }
}
