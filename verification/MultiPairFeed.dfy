/** One aggregator per symbol behind a common tick stream (data/multi_pair_feed.py). */
module MultiPairFeed {
  import opened Common
  import opened Market
  import opened TickCollector
  import B = BarAggregator

  datatype BarClose = BarClose(symbol: string, bar: Bar)

  /** The value of a feed: bars in progress per registered symbol, symbols in registration order, counters. */
  datatype Feed = Feed(progress: map<string, B.Progress>, order: seq<string>, emitted: nat, processed: nat,
                       unknown: nat)

  function Registered(f: Feed, symbol: string): Feed {
    if symbol in f.progress then f
    else f.(progress := f.progress[symbol := B.NoBar], order := f.order + [symbol])
  }

  function Empty(): Feed {
    Feed(map[], [], 0, 0, 0)
  }

  function Start(symbols: seq<string>): Feed {
    if symbols == [] then Empty() else Registered(Start(Front(symbols)), Last(symbols))
  }

  function Ticked(f: Feed, symbol: string, t: Tick, tf: B.Minutes): Feed
    requires symbol in f.progress
  {
    f.(progress := f.progress[symbol := B.Next(f.progress[symbol], t, tf)],
       processed := f.processed + 1,
       emitted := f.emitted + |B.Closes(symbol, f.progress[symbol], t, tf)|)
  }

  /** What the feed remembers after one tick, and the close event it returns, if any. */
  function AfterTick(f: Feed, symbol: string, t: Tick, tf: B.Minutes, registerMissing: bool): Feed {
    if symbol !in f.progress && !registerMissing then f.(unknown := f.unknown + 1)
    else
      Ticked(Registered(f, symbol), symbol, t, tf)
  }

  function Events(symbol: string, bars: seq<Bar>): seq<BarClose> {
    if bars == [] then [] else Events(symbol, Front(bars)) + [BarClose(symbol, Last(bars))]
  }

  function ClosedBy(f: Feed, symbol: string, t: Tick, tf: B.Minutes): seq<BarClose> {
    if symbol in f.progress then Events(symbol, B.Closes(symbol, f.progress[symbol], t, tf)) else []
  }

  /** The stream so far, oldest first. */
  type Stream = seq<(string, Tick)>

  function After(f: Feed, s: Stream, tf: B.Minutes, registerMissing: bool): Feed {
    if s == [] then f
    else AfterTick(After(f, Front(s), tf, registerMissing), Last(s).0, Last(s).1, tf, registerMissing)
  }

  function AllClosed(f: Feed, s: Stream, tf: B.Minutes, registerMissing: bool): seq<BarClose> {
    if s == [] then []
    else
      var before := After(f, Front(s), tf, registerMissing);
      AllClosed(f, Front(s), tf, registerMissing) + ClosedBy(before, Last(s).0, Last(s).1, tf)
  }

  function FlushedOne(symbol: string, p: B.Progress): seq<BarClose> {
    Events(symbol, B.Flushed(symbol, p))
  }

  function FlushedAll(progress: map<string, B.Progress>, order: seq<string>): seq<BarClose> {
    if order == [] then []
    else
      var s := Last(order);
      FlushedAll(progress, Front(order)) + if s in progress then FlushedOne(s, progress[s]) else []
  }

  lemma FlushedAllStep(progress: map<string, B.Progress>, order: seq<string>, i: nat)
    requires i < |order| && order[i] in progress
    ensures FlushedAll(progress, order[..i + 1]) ==
        FlushedAll(progress, order[..i]) + FlushedOne(order[i], progress[order[i]])
  {
    assert Front(order[..i + 1]) == order[..i];
  }

  lemma NothingFlushed(progress: map<string, B.Progress>, order: seq<string>)
    ensures FlushedAll(progress, order[..0]) == []
  {
  }

  // ------------------------------------------------------------------ the object

  lemma EventOfOne(symbol: string, bar: Bar)
    ensures Events(symbol, [bar]) == [BarClose(symbol, bar)] && Events(symbol, []) == []
  {
    assert Front([bar]) == [];
  }

  class MultiPairFeed {
    const tf: B.Minutes
    const registerMissing: bool
    var aggregators: map<string, B.BarAggregator>
    var order: seq<string>
    var emitted: nat
    var processed: nat
    var unknown: nat

    /** Each symbol has its own aggregator; they are different objects because their symbols differ. */
    ghost predicate Valid()
      reads this`aggregators, this`order
    {
      && (forall s :: s in aggregators ==> aggregators[s].symbol == s && aggregators[s].tf == tf)
      && (forall s :: s in order <==> s in aggregators)
      && forall i, j :: 0 <= i < j < |order| ==> order[i] != order[j]
    }

    ghost function View(): Feed
      reads this, aggregators.Values
    {
      Feed(map s | s in aggregators :: aggregators[s].View(), order, emitted, processed, unknown)
    }

    constructor (symbols: seq<string>, tf: B.Minutes, registerMissing: bool)
      ensures Valid() && forall s :: s in aggregators ==> fresh(aggregators[s])
      ensures this.tf == tf && this.registerMissing == registerMissing
      ensures View() == Start(symbols)
    {
      this.tf, this.registerMissing := tf, registerMissing;
      aggregators, order, emitted, processed, unknown := map[], [], 0, 0, 0;
      new;
      assert symbols[..0] == [];
      for i := 0 to |symbols|
        invariant Valid() && (forall s :: s in aggregators ==> fresh(aggregators[s])) && View() == Start(symbols[..i])
      {
        assert Front(symbols[..i + 1]) == symbols[..i];
        Register(symbols[i]);
      }
      assert symbols[..|symbols|] == symbols;
    }

    method Register(symbol: string)
      requires Valid()
      modifies this`aggregators, this`order
      ensures Valid() && symbol in aggregators
      ensures aggregators == if symbol in old(aggregators) then old(aggregators)
          else old(aggregators)[symbol := aggregators[symbol]]
      ensures symbol in old(aggregators) || fresh(aggregators[symbol])
      ensures View() == Registered(old(View()), symbol)
    {
      if symbol in aggregators { return; }
      var a := new B.BarAggregator(symbol, tf);
      aggregators := aggregators[symbol := a];
      order := order + [symbol];
      assert View().progress == old(View()).progress[symbol := B.NoBar];
    }

    method OnTick(symbol: string, t: Tick) returns (e: Option<BarClose>)
      requires Valid()
      modifies this, aggregators.Values
      ensures Valid() && forall s :: s in aggregators ==>
          aggregators[s] in old(aggregators.Values) || fresh(aggregators[s])
      ensures View() == AfterTick(old(View()), symbol, t, tf, registerMissing)
      ensures (if e.Some? then [e.value] else []) == ClosedBy(old(View()), symbol, t, tf)
    {
      hide B.Next, B.Closes;
      if symbol !in aggregators && !registerMissing {
        unknown := unknown + 1;
        assert View().progress == old(View()).progress;
        return None;
      }
      Register(symbol);
      if symbol !in old(aggregators) { NothingClosedYet(symbol, t, tf); }
      e := FeedOne(symbol, t);
    }

    method FeedOne(symbol: string, t: Tick) returns (e: Option<BarClose>)
      requires Valid() && symbol in aggregators
      modifies this`processed, this`emitted, aggregators[symbol]
      ensures View() == Ticked(old(View()), symbol, t, tf)
      ensures (if e.Some? then [e.value] else []) ==
          Events(symbol, B.Closes(symbol, old(aggregators[symbol].View()), t, tf))
    {
      hide B.Next, B.Closes;
      var closed := aggregators[symbol].OnTick(t);
      processed := processed + 1;
      assert View().progress == old(View()).progress[symbol := B.Next(old(View()).progress[symbol], t, tf)];
      if closed.None? { return None; }
      EventOfOne(symbol, closed.value);
      emitted := emitted + 1;
      e := Some(BarClose(symbol, closed.value));
    }

    method FlushOne(symbol: string) returns (events: seq<BarClose>)
      requires symbol in aggregators && aggregators[symbol].symbol == symbol
      modifies this`emitted, aggregators[symbol]
      ensures events == FlushedOne(symbol, old(aggregators[symbol].View())) && emitted == old(emitted) + |events|
      ensures aggregators[symbol].View() == B.NoBar
    {
      var bar := aggregators[symbol].Flush();
      if bar.None? { return []; }
      EventOfOne(symbol, bar.value);
      emitted := emitted + 1;
      events := [BarClose(symbol, bar.value)];
    }

    /** End of stream: every bar in progress, in registration order. */
    method FlushAll() returns (events: seq<BarClose>)
      requires Valid()
      modifies this`emitted, aggregators.Values
      ensures events == FlushedAll(old(View()).progress, order) && emitted == old(emitted) + |events|
      ensures forall s :: s in aggregators ==> aggregators[s].View() == B.NoBar
    {
      hide FlushedOne, FlushedAll, B.BarAggregator.View;
      ghost var before := View().progress;
      events := [];
      NothingFlushed(before, order);
      for i := 0 to |order|
        invariant events == FlushedAll(before, order[..i]) && emitted == old(emitted) + |events|
        invariant forall k :: 0 <= k < |order| ==>
          aggregators[order[k]].View() == if k < i then B.NoBar else before[order[k]]
      {
        FlushedAllStep(before, order, i);
        var closed := FlushOne(order[i]);
        events := events + closed;
      }
      assert order[..|order|] == order;
      forall s | s in aggregators ensures aggregators[s].View() == B.NoBar {
        assert s in order;
      }
    }
  }

  // ------------------------------------------------------------------ each symbol on its own

  function TicksOf(s: Stream, symbol: string): seq<Tick> {
    if s == [] then []
    else TicksOf(Front(s), symbol) + if Last(s).0 == symbol then [Last(s).1] else []
  }

  function BarsOf(events: seq<BarClose>, symbol: string): seq<Bar> {
    if events == [] then []
    else BarsOf(Front(events), symbol) + if Last(events).symbol == symbol then [Last(events).bar] else []
  }

  lemma BarsOfStep(events: seq<BarClose>, of: string, bars: seq<Bar>, symbol: string)
    requires |bars| <= 1
    ensures BarsOf(events + Events(of, bars), symbol) == BarsOf(events, symbol) + if of == symbol then bars else []
    ensures |Events(of, bars)| == |bars|
  {
    if bars == [] {
      assert events + [] == events;
    } else {
      assert Front(bars) == [] && Events(of, bars) == [BarClose(of, bars[0])];
      assert Front(events + [BarClose(of, bars[0])]) == events;
    }
  }

  /** `symbol` is registered once it ticked, and its bar in progress is that of its own ticks. */
  ghost predicate Own(f: Feed, symbol: string, ticks: seq<Tick>, tf: B.Minutes) {
    && (ticks != [] ==> symbol in f.progress)
    && (symbol in f.progress ==> f.progress[symbol] == B.ProgressAfter(ticks, tf))
  }

  lemma TickKeepsOwn(f: Feed, of: string, t: Tick, tf: B.Minutes, registerMissing: bool, symbol: string,
                     ticks: seq<Tick>)
    requires Own(f, symbol, ticks, tf) && (registerMissing || symbol in f.progress)
    ensures var g := AfterTick(f, of, t, tf, registerMissing);
      && Own(g, symbol, if of == symbol then ticks + [t] else ticks, tf)
      && (symbol in f.progress ==> symbol in g.progress)
  {
    hide B.Next, B.Closes;
    assert Front(ticks + [t]) == ticks && Last(ticks + [t]) == t;
    if symbol !in f.progress { assert B.ProgressAfter(ticks, tf) == B.NoBar by { NoProgressYet(tf); } }
  }

  /** The bar in progress of a symbol depends on that symbol's own ticks only. */
  lemma {:induction false} ProgressIsOwn(symbols: seq<string>, s: Stream, tf: B.Minutes, registerMissing: bool,
                                         symbol: string)
    requires registerMissing || symbol in Start(symbols).progress
    ensures var f := After(Start(symbols), s, tf, registerMissing);
      Own(f, symbol, TicksOf(s, symbol), tf) && (symbol in Start(symbols).progress ==> symbol in f.progress)
  {
    hide Own, AfterTick, Start;
    if s == [] {
      NothingInProgress(symbols);
      NoTicksYet(Start(symbols), symbol, tf);
    } else {
      ProgressIsOwn(symbols, Front(s), tf, registerMissing, symbol);
      var f := After(Start(symbols), Front(s), tf, registerMissing);
      TickKeepsOwn(f, Last(s).0, Last(s).1, tf, registerMissing, symbol, TicksOf(Front(s), symbol));
      assert TicksOf(s, symbol)
        == if Last(s).0 == symbol then TicksOf(Front(s), symbol) + [Last(s).1] else TicksOf(Front(s), symbol);
    }
  }

  lemma NoTicksYet(f: Feed, symbol: string, tf: B.Minutes)
    requires forall s :: s in f.progress ==> f.progress[s] == B.NoBar
    ensures Own(f, symbol, [], tf)
  {
  }

  /**
   * The stream of many symbols is, for each symbol the feed listens to, that symbol's own stream: the bars emitted
   * for it are the bars one aggregator alone would emit.
   */
  lemma {:induction false} Demultiplexes(symbols: seq<string>, s: Stream, tf: B.Minutes, registerMissing: bool,
                                         symbol: string)
    requires registerMissing || symbol in Start(symbols).progress
    ensures BarsOf(AllClosed(Start(symbols), s, tf, registerMissing), symbol) ==
        B.Emitted(symbol, TicksOf(s, symbol), tf)
  {
    hide Own, AfterTick, Start, ClosedBy, B.Emitted;
    if s == [] {
      NoBarsYet(symbol, tf);
    } else {
      Demultiplexes(symbols, Front(s), tf, registerMissing, symbol);
      ProgressIsOwn(symbols, Front(s), tf, registerMissing, symbol);
      var f := After(Start(symbols), Front(s), tf, registerMissing);
      var ticks := TicksOf(Front(s), symbol);
      TickClosesOwn(f, AllClosed(Start(symbols), Front(s), tf, registerMissing), Last(s).0, Last(s).1, tf, symbol,
          ticks);
      assert TicksOf(s, symbol) == if Last(s).0 == symbol then ticks + [Last(s).1] else ticks;
    }
  }

  lemma NoBarsYet(symbol: string, tf: B.Minutes)
    ensures B.Emitted(symbol, [], tf) == []
  {
  }

  lemma TickClosesOwn(f: Feed, events: seq<BarClose>, of: string, t: Tick, tf: B.Minutes, symbol: string,
                      ticks: seq<Tick>)
    requires Own(f, symbol, ticks, tf) && BarsOf(events, symbol) == B.Emitted(symbol, ticks, tf)
    ensures BarsOf(events + ClosedBy(f, of, t, tf), symbol)
         == B.Emitted(symbol, if of == symbol then ticks + [t] else ticks, tf)
  {
    hide B.Closes, B.ProgressAfter;
    var closes := if of in f.progress then B.Closes(of, f.progress[of], t, tf) else [];
    AtMostOne(of, f, t, tf);
    BarsOfStep(events, of, closes, symbol);
    if of == symbol {
      assert Front(ticks + [t]) == ticks && Last(ticks + [t]) == t;
      if symbol !in f.progress {
        NoProgressYet(tf);
        NothingClosedYet(symbol, t, tf);
      }
    }
  }

  lemma NoProgressYet(tf: B.Minutes)
    ensures B.ProgressAfter([], tf) == B.NoBar
  {
  }

  lemma AtMostOne(symbol: string, f: Feed, t: Tick, tf: B.Minutes)
    ensures symbol in f.progress ==> |B.Closes(symbol, f.progress[symbol], t, tf)| <= 1
  {
  }

  lemma NothingClosedYet(symbol: string, t: Tick, tf: B.Minutes)
    ensures B.Closes(symbol, B.NoBar, t, tf) == []
  {
  }

  lemma {:induction false} NothingInProgress(symbols: seq<string>)
    ensures forall s :: s in Start(symbols).progress ==> Start(symbols).progress[s] == B.NoBar
  {
    if symbols != [] { NothingInProgress(Front(symbols)); }
  }

  /** Every tick is either processed or counted as unknown, and the emitted count is the number of close events. */
  lemma {:induction false} CountersAddUp(f: Feed, s: Stream, tf: B.Minutes, registerMissing: bool)
    ensures var g := After(f, s, tf, registerMissing);
      && g.processed + g.unknown == f.processed + f.unknown + |s|
      && (registerMissing ==> g.unknown == f.unknown)
      && g.emitted == f.emitted + |AllClosed(f, s, tf, registerMissing)|
  {
    hide B.Next, B.Closes;
    if s != [] {
      CountersAddUp(f, Front(s), tf, registerMissing);
      var g := After(f, Front(s), tf, registerMissing);
      var (of, t) := Last(s);
      AtMostOne(of, g, t, tf);
      NothingClosedYet(of, t, tf);
      if of in g.progress { BarsOfStep([], of, B.Closes(of, g.progress[of], t, tf), of); }
    }
  }

  /** A symbol the feed does not know is ignored, not an error: no event, nothing in progress. */
  lemma {:induction false} UnknownSymbolsAreDropped(symbols: seq<string>, s: Stream, tf: B.Minutes, symbol: string)
    requires symbol !in Start(symbols).progress
    ensures symbol !in After(Start(symbols), s, tf, false).progress
    ensures BarsOf(AllClosed(Start(symbols), s, tf, false), symbol) == []
  {
    hide B.Next, B.Closes;
    if s != [] {
      UnknownSymbolsAreDropped(symbols, Front(s), tf, symbol);
      var f := After(Start(symbols), Front(s), tf, false);
      var (of, t) := Last(s);
      AtMostOne(of, f, t, tf);
      var closes := if of in f.progress then B.Closes(of, f.progress[of], t, tf) else [];
      BarsOfStep(AllClosed(Start(symbols), Front(s), tf, false), of, closes, symbol);
    }
  }

  /** Without repeats, in order of first appearance. */
  function FirstSeen(symbols: seq<string>): seq<string> {
    if symbols == [] then []
    else if Last(symbols) in Front(symbols) then FirstSeen(Front(symbols))
    else FirstSeen(Front(symbols)) + [Last(symbols)]
  }

  /** The feed listens to exactly these symbols, in this order. */
  ghost predicate Knows(f: Feed, symbols: seq<string>) {
    f.order == FirstSeen(symbols) && forall s :: s in f.progress <==> s in symbols
  }

  lemma RegisteringKnows(f: Feed, symbols: seq<string>, symbol: string)
    requires Knows(f, symbols)
    ensures Knows(Registered(f, symbol), symbols + [symbol])
  {
    assert Front(symbols + [symbol]) == symbols;
  }

  lemma {:induction false} StartKnowsItsSymbols(symbols: seq<string>)
    ensures Knows(Start(symbols), symbols)
  {
    if symbols != [] {
      StartKnowsItsSymbols(Front(symbols));
      RegisteringKnows(Start(Front(symbols)), Front(symbols), Last(symbols));
      assert symbols == Front(symbols) + [Last(symbols)];
    }
  }

  function SymbolsOf(s: Stream): seq<string> {
    seq(|s|, i requires 0 <= i < |s| => s[i].0)
  }

  lemma TickKeepsOrder(f: Feed, symbol: string, t: Tick, tf: B.Minutes)
    requires symbol in f.progress
    ensures var g := Ticked(f, symbol, t, tf); g.order == f.order && g.progress.Keys == f.progress.Keys
  {
    hide B.Next, B.Closes;
  }

  lemma KnowsByKeys(f: Feed, g: Feed, symbols: seq<string>)
    requires Knows(f, symbols) && g.order == f.order && g.progress.Keys == f.progress.Keys
    ensures Knows(g, symbols)
  {
    assert forall s :: s in g.progress <==> s in g.progress.Keys;
    assert forall s :: s in f.progress <==> s in f.progress.Keys;
  }

  /**
   * A feed listens to the symbols it was given and, if it registers missing ones, to those of the stream, in the order
   * in which they came first.
   */
  lemma {:induction false} FeedKnowsItsSymbols(symbols: seq<string>, s: Stream, tf: B.Minutes, registerMissing: bool)
    ensures Knows(After(Start(symbols), s, tf, registerMissing),
                  if registerMissing then symbols + SymbolsOf(s) else symbols)
  {
    hide Knows, Registered, Ticked;
    if s == [] {
      StartKnowsItsSymbols(symbols);
      assert symbols + SymbolsOf(s) == symbols;
    } else {
      FeedKnowsItsSymbols(symbols, Front(s), tf, registerMissing);
      var f := After(Start(symbols), Front(s), tf, registerMissing);
      var (of, t) := Last(s);
      OneTickKnows(f, of, t, tf, registerMissing, if registerMissing then symbols + SymbolsOf(Front(s)) else symbols);
      assert symbols + SymbolsOf(s) == symbols + SymbolsOf(Front(s)) + [of];
    }
  }

  lemma OneTickKnows(f: Feed, of: string, t: Tick, tf: B.Minutes, registerMissing: bool, symbols: seq<string>)
    requires Knows(f, symbols)
    ensures Knows(AfterTick(f, of, t, tf, registerMissing), if registerMissing then symbols + [of] else symbols)
  {
    hide Ticked, FirstSeen;
    if registerMissing || of in f.progress {
      var r := Registered(f, of);
      if registerMissing { RegisteringKnows(f, symbols, of); }
      TickKeepsOrder(r, of, t, tf);
      KnowsByKeys(r, Ticked(r, of, t, tf), if registerMissing then symbols + [of] else symbols);
    } else {
      KnowsByKeys(f, AfterTick(f, of, t, tf, registerMissing), symbols);
    }
  }
}
