/** The tick producer (data/tick_collector.py): polls a batch, keeps what is new, offers it to a bounded queue. */
module TickCollector {
  import opened Common

  datatype Tick = Tick(time: int, bid: real, ask: real, last: real, volume: nat, volumeReal: real, flags: nat)

  /** The bounded queue shared with the consumer; a size of zero means unbounded. */
  class TickQueue {
    const maxSize: nat
    var items: seq<Tick>

    constructor (maxSize: nat)
      ensures this.maxSize == maxSize && items == []
    {
      this.maxSize, items := maxSize, [];
    }

    method PutNowait(t: Tick) returns (ok: bool)
      modifies this`items
      ensures ok == HasRoom(old(items), maxSize)
      ensures items == if ok then old(items) + [t] else old(items)
    {
      ok := maxSize == 0 || |items| < maxSize;
      if ok { items := items + [t]; }
    }
  }

  predicate HasRoom(queue: seq<Tick>, maxSize: nat) {
    maxSize == 0 || |queue| < maxSize
  }

  /** What the producer knows and has done. */
  datatype Producer = Producer(queue: seq<Tick>, cursor: int, collected: nat, dropped: nat)

  /** The ticks strictly newer than the cursor, in order. */
  function Newer(ticks: seq<Tick>, cursor: int): seq<Tick> {
    if ticks == [] then []
    else Newer(Front(ticks), cursor) + if Last(ticks).time > cursor then [Last(ticks)] else []
  }

  function MaxTime(ticks: seq<Tick>): int
    requires ticks != []
  {
    if |ticks| == 1 then ticks[0].time else MaxInt(MaxTime(Front(ticks)), Last(ticks).time)
  }

  function Offer(p: Producer, t: Tick, maxSize: nat): Producer {
    if HasRoom(p.queue, maxSize) then p.(queue := p.queue + [t], collected := p.collected + 1)
    else p.(dropped := p.dropped + 1)
  }

  function OfferAll(p: Producer, ticks: seq<Tick>, maxSize: nat): Producer {
    if ticks == [] then p else Offer(OfferAll(p, Front(ticks), maxSize), Last(ticks), maxSize)
  }

  /** One poll; the batch is whatever the terminal returned. */
  function Polled(p: Producer, ticks: seq<Tick>, maxSize: nat): Producer {
    var recent := Newer(ticks, p.cursor);
    if recent == [] then p else OfferAll(p, recent, maxSize).(cursor := MaxTime(recent))
  }

  class TickCollector {
    const queue: TickQueue
    const batchSize: nat
    var cursor: int
    var collected: nat
    var dropped: nat

    function View(): Producer
      reads this, queue
    {
      Producer(queue.items, cursor, collected, dropped)
    }

    constructor (queue: TickQueue, batchSize: nat, lastTick: int)
      ensures this.queue == queue && this.batchSize == batchSize
      ensures View() == Producer(queue.items, lastTick, 0, 0)
    {
      this.queue, this.batchSize, cursor, collected, dropped := queue, batchSize, lastTick, 0, 0;
    }

    method PollOnce(ticks: seq<Tick>) returns (saturated: bool)
      modifies this, queue
      ensures View() == Polled(old(View()), ticks, queue.maxSize)
      ensures saturated == (ticks != [] && |ticks| >= batchSize)
    {
      if |ticks| == 0 { return false; }
      var recent := Mask(ticks);
      if recent == [] { return |ticks| >= batchSize; }
      var newest := recent[0].time;
      assert recent[..0] == [];
      for i := 0 to |recent|
        invariant cursor == old(cursor)
        invariant View() == OfferAll(old(View()), recent[..i], queue.maxSize)
        invariant newest == if i == 0 then recent[0].time else MaxTime(recent[..i])
      {
        assert Front(recent[..i + 1]) == recent[..i];
        var ok := queue.PutNowait(recent[i]);
        if ok { collected := collected + 1; } else { dropped := dropped + 1; }
        newest := MaxInt(newest, recent[i].time);
      }
      assert recent[..|recent|] == recent;
      cursor := newest;
      saturated := |ticks| >= batchSize;
    }

    method Mask(ticks: seq<Tick>) returns (recent: seq<Tick>)
      ensures recent == Newer(ticks, cursor)
    {
      recent := [];
      assert ticks[..0] == [];
      for i := 0 to |ticks|
        invariant recent == Newer(ticks[..i], cursor)
      {
        assert Front(ticks[..i + 1]) == ticks[..i];
        if ticks[i].time > cursor { recent := recent + [ticks[i]]; }
      }
      assert ticks[..|ticks|] == ticks;
    }
  }

  // ------------------------------------------------------------------ what a poll does to the queue

  /** How many more ticks the queue takes, out of `n` offered. */
  function Room(queue: seq<Tick>, maxSize: nat, n: nat): (r: nat)
    ensures r <= n
  {
    if maxSize == 0 || |queue| + n <= maxSize then n
    else if |queue| < maxSize then maxSize - |queue| else 0
  }

  /** A full queue keeps the oldest of the batch and drops the newest; every new tick is either collected or dropped. */
  lemma {:induction false} OfferingTakesPrefix(p: Producer, ticks: seq<Tick>, maxSize: nat)
    ensures var q, r := OfferAll(p, ticks, maxSize), Room(p.queue, maxSize, |ticks|);
      && q.queue == p.queue + ticks[..r] && q.cursor == p.cursor
      && q.collected == p.collected + r && q.dropped == p.dropped + (|ticks| - r)
  {
    if ticks != [] {
      OfferingTakesPrefix(p, Front(ticks), maxSize);
      var r := Room(p.queue, maxSize, |ticks| - 1);
      assert Front(ticks)[..r] == ticks[..r];
      if Room(p.queue, maxSize, |ticks|) > r { assert ticks[..|ticks|] == Front(ticks) + [Last(ticks)]; }
    }
  }

  lemma {:induction false} NewerIsNewer(ticks: seq<Tick>, cursor: int)
    ensures forall t :: t in Newer(ticks, cursor) <==> t in ticks && t.time > cursor
    ensures InTimeOrder(ticks) ==> InTimeOrder(Newer(ticks, cursor))
  {
    if ticks != [] {
      NewerIsNewer(Front(ticks), cursor);
      assert ticks == Front(ticks) + [Last(ticks)];
      var before := Newer(Front(ticks), cursor);
      forall i | InTimeOrder(ticks) && 0 <= i < |before| ensures before[i].time <= Last(ticks).time {
        assert before[i] in Front(ticks);
      }
    }
  }

  lemma {:induction false} MaxTimeIsMax(ticks: seq<Tick>)
    requires ticks != []
    ensures forall t :: t in ticks ==> t.time <= MaxTime(ticks)
    ensures exists t :: t in ticks && t.time == MaxTime(ticks)
  {
    if |ticks| == 1 {
      assert ticks[0] in ticks;
    } else {
      MaxTimeIsMax(Front(ticks));
      assert ticks == Front(ticks) + [Last(ticks)];
    }
  }

  ghost predicate InTimeOrder(ticks: seq<Tick>) {
    forall i, j :: 0 <= i < j < |ticks| ==> ticks[i].time <= ticks[j].time
  }
}
