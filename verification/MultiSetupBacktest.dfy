/**
 * The event-driven backtest (`run_backtest`, `_book`, `_equity_log` in scripts/multi_setup_backtest.py). Detectors,
 * confluence resolution, the news calendar, the pair tables and the pip value are parameters.
 */
module MultiSetupBacktest {
  import opened Clock
  import opened Common
  import opened Market
  import opened MultiSetupTrade
  import opened RejectionCandle

  const INITIAL_BALANCE := 10_000.0
  const DAILY_DD_PCT_HARD := 5.0
  const TOTAL_DD_PCT_HARD := 10.0
  const MAX_CONCURRENT := 2
  const MAX_TRADES_PER_DAY := 2
  const HTF_WINDOW := 260
  const LTF_WINDOW := 80
  const TIME_STOP_HOURS := 48

  /** One step of the stream: bar `k` of `symbol`, at its time. */
  datatype Event = Event(time: int, symbol: string, k: nat)

  type Series = map<string, seq<Bar>>

  /** Everything the run asks others. `best` is the first resolved signal for a window pair. */
  datatype World = World(
    pair: string -> Pair,
    blackout: (string, int) -> bool,
    best: (string, int, seq<Bar>, seq<Bar>) -> Option<Signal>,
    pipValue: (string, map<string, real>) -> real)

  datatype Input = Input(htf: Series, ltf: Series, events: seq<Event>, w: World)

  /** The event stream names existing bars with their own times, in time order, and no bar twice. */
  ghost predicate Proper(inp: Input) {
    && (forall e :: e in inp.events ==>
          && e.symbol in inp.ltf && e.symbol in inp.htf
          && e.k < |inp.ltf[e.symbol]| && e.time == inp.ltf[e.symbol][e.k].time)
    && (forall i, j :: 0 <= i < j < |inp.events| ==>
          && inp.events[i].time <= inp.events[j].time
          && (inp.events[i].symbol != inp.events[j].symbol || inp.events[i].k != inp.events[j].k))
  }

  /** Friday, 23:45 UTC or later. */
  predicate FridayClose(time: int) {
    (DateKey(time) + 3) % 7 == 4 && time / HOUR_MS % 24 >= 23 && time / MINUTE_MS % 60 >= 45
  }

  // ------------------------------------------------------------------ the ledger

  datatype Ledger = Ledger(balance: real, peak: real, closed: seq<Closed>)

  function Booking(b: Ledger, c: Closed): Ledger {
    var balance := b.balance + Net(c);
    Ledger(balance, Max(b.peak, balance), b.closed + [c])
  }

  /**
   * The state of a run. `tickets` records what was opened, in order; `failed` marks the division by a zero
   * day-start balance or peak that would end the original with an exception.
   */
  datatype State = State(
    book: Ledger, open: seq<Trade>, tickets: seq<Ticket>,
    dayCount: map<int, nat>, dayStart: map<int, real>,
    curve: seq<(int, real)>, halted: bool, failed: bool,
    cursor: map<string, int>, prices: map<string, real>)

  datatype Walk = Walk(book: Ledger, still: seq<Trade>)

  function WalkOne(w: Walk, t: Trade, bar: Bar, e: Event, pair: Pair): Walk {
    if t.symbol != e.symbol then w.(still := w.still + [t])
    else
      var u :=
        if e.time - t.entryTime >= TIME_STOP_HOURS * HOUR_MS then ForceClosed(t, bar, pair, TIME_STOP)
        else if FridayClose(e.time) then ForceClosed(t, bar, pair, FRIDAY_FLATTEN)
        else Updated(t, bar, pair);
      if u.closed.Some? then w.(book := Booking(w.book, u.closed.value))
      else w.(still := w.still + [u.trade])
  }

  function WalkAll(b: Ledger, open: seq<Trade>, bar: Bar, e: Event, pair: Pair): Walk {
    if open == [] then Walk(b, []) else WalkOne(WalkAll(b, Front(open), bar, e, pair), Last(open), bar, e, pair)
  }

  function Logged(curve: seq<(int, real)>, time: int, balance: real): (c: seq<(int, real)>)
    ensures c != [] && Last(c) == (time, balance)
  {
    if curve != [] && Last(curve).1 == balance then Front(curve) + [(time, balance)]
    else curve + [(time, balance)]
  }

  /** How far the HTF cursor moves: past every consecutive bar that opens before `time`. */
  function Advanced(htf: seq<Bar>, cursor: int, time: int): (c: int)
    requires -1 <= cursor < |htf|
    ensures cursor <= c < |htf|
    decreases |htf| - cursor
  {
    if cursor + 1 < |htf| && htf[cursor + 1].time < time then Advanced(htf, cursor + 1, time) else cursor
  }

  function CursorOf(st: State, symbol: string): int {
    if symbol in st.cursor then st.cursor[symbol] else -1
  }

  function Count(st: State, day: int): nat {
    if day in st.dayCount then st.dayCount[day] else 0
  }

  /** Steps 1 to 3a: price update, walk of the pair's open trades, day bookkeeping. */
  function Walked(inp: Input, st: State, e: Event): State
    requires e.symbol in inp.ltf && e.k < |inp.ltf[e.symbol]|
  {
    var bar := inp.ltf[e.symbol][e.k];
    var walk := WalkAll(st.book, st.open, bar, e, inp.w.pair(e.symbol));
    st.(prices := st.prices[e.symbol := bar.close], book := walk.book, open := walk.still)
  }

  function DayOpened(st: State, e: Event): State {
    var day := DateKey(e.time);
    if day in st.dayStart then st
    else st.(dayStart := st.dayStart[day := st.book.balance], dayCount := st.dayCount[day := 0])
  }

  function LossPct(from: real, balance: real): real
    requires from != 0.0
  {
    (from - balance) / from * 100.0
  }

  predicate Blocked(inp: Input, st: State, e: Event)
    requires e.symbol in inp.ltf && e.k < |inp.ltf[e.symbol]|
  {
    || |st.open| >= MAX_CONCURRENT
    || Count(st, DateKey(e.time)) >= MAX_TRADES_PER_DAY
    || !IsCandidate(inp.ltf[e.symbol], e.k)
    || inp.w.blackout(e.symbol, e.time)
  }

  /** The windows the detectors see when the cursor stands at `cursor`. */
  function Candidate(inp: Input, e: Event, cursor: int): Option<Signal>
    requires e.symbol in inp.ltf && e.k < |inp.ltf[e.symbol]|
    requires e.symbol in inp.htf && 0 <= cursor < |inp.htf[e.symbol]|
  {
    inp.w.best(e.symbol, e.time,
               inp.htf[e.symbol][MaxInt(0, cursor - HTF_WINDOW + 1)..cursor + 1],
               inp.ltf[e.symbol][MaxInt(0, e.k - LTF_WINDOW + 1)..e.k + 1])
  }

  /** The trade steps 8 to 14 would open when the cursor has come to `cursor`. */
  function NewTrade(inp: Input, balance: real, prices: map<string, real>, e: Event, cursor: int): (t: Option<Trade>)
    requires e.symbol in inp.ltf && e.k < |inp.ltf[e.symbol]|
    requires e.symbol in inp.htf && -1 <= cursor < |inp.htf[e.symbol]|
    ensures t.Some? ==> TicketOf(t.value) == Ticket(e.symbol, e.k)
  {
    if cursor < HTF_WINDOW / 4 then None
    else
      var sig := Candidate(inp, e, cursor);
      var pair := inp.w.pair(e.symbol);
      if sig.None? || inp.ltf[e.symbol][e.k].spread / 10.0 > pair.maxSpread then None
      else Opened(sig.value, e.symbol, e.k, e.time, pair, balance, inp.w.pipValue(e.symbol, prices))
  }

  function WithTrade(st: State, t: Trade, day: int): State {
    st.(open := st.open + [t], tickets := st.tickets + [TicketOf(t)],
        dayCount := st.dayCount[day := Count(st, day) + 1])
  }

  /** Steps 8 to 14 for an event that no gate blocked. */
  function Entered(inp: Input, st: State, e: Event): State
    requires e.symbol in inp.ltf && e.k < |inp.ltf[e.symbol]|
    requires e.symbol in inp.htf && -1 <= CursorOf(st, e.symbol) < |inp.htf[e.symbol]|
  {
    var cursor := Advanced(inp.htf[e.symbol], CursorOf(st, e.symbol), e.time);
    var moved := st.(cursor := st.cursor[e.symbol := cursor]);
    var trade := NewTrade(inp, st.book.balance, st.prices, e, cursor);
    if trade.None? then moved else WithTrade(moved, trade.value, DateKey(e.time))
  }

  /** Steps 4 to 14: caps and gates, entry, and the equity sample. */
  function Gated(inp: Input, st: State, e: Event): State
    requires e.symbol in inp.ltf && e.k < |inp.ltf[e.symbol]|
    requires e.symbol in inp.htf && -1 <= CursorOf(st, e.symbol) < |inp.htf[e.symbol]|
  {
    LogEquity(if Blocked(inp, st, e) then st else Entered(inp, st, e), e.time)
  }

  /** Steps 3b to 14, once the day is on the books. */
  function Decided(inp: Input, st: State, e: Event): State
    requires e.symbol in inp.ltf && e.k < |inp.ltf[e.symbol]| && DateKey(e.time) in st.dayStart
    requires e.symbol in inp.htf && -1 <= CursorOf(st, e.symbol) < |inp.htf[e.symbol]|
  {
    var from := st.dayStart[DateKey(e.time)];
    if st.halted then st
    else if from == 0.0 then st.(failed := true)
    else if LossPct(from, st.book.balance) >= DAILY_DD_PCT_HARD then LogEquity(st, e.time)
    else if st.book.peak == 0.0 then st.(failed := true)
    else if LossPct(st.book.peak, st.book.balance) >= TOTAL_DD_PCT_HARD then LogEquity(st.(halted := true), e.time)
    else Gated(inp, st, e)
  }

  function LogEquity(st: State, time: int): State {
    st.(curve := Logged(st.curve, time, st.book.balance))
  }

  ghost predicate CursorsFit(inp: Input, st: State) {
    forall s :: s in inp.htf ==> -1 <= CursorOf(st, s) < |inp.htf[s]|
  }

  lemma EntryKeepsCursorsFit(inp: Input, st: State, e: Event)
    requires e.symbol in inp.ltf && e.k < |inp.ltf[e.symbol]| && e.symbol in inp.htf && CursorsFit(inp, st)
    ensures CursorsFit(inp, Entered(inp, st, e))
  {
    hide NewTrade, DateKey;
    var cursor := Advanced(inp.htf[e.symbol], CursorOf(st, e.symbol), e.time);
    assert Entered(inp, st, e).cursor == st.cursor[e.symbol := cursor];
  }

  lemma StepKeepsCursorsFit(inp: Input, st: State, e: Event)
    requires e.symbol in inp.ltf && e.k < |inp.ltf[e.symbol]| && e.symbol in inp.htf && CursorsFit(inp, st)
    ensures CursorsFit(inp, Walked(inp, st, e))
    ensures var s := DayOpened(Walked(inp, st, e), e); CursorsFit(inp, s) && CursorsFit(inp, Decided(inp, s, e))
  {
    hide WalkAll, Entered, DateKey, LossPct, Blocked, Logged;
    EntryKeepsCursorsFit(inp, DayOpened(Walked(inp, st, e), e), e);
  }

  lemma CursorFits(inp: Input, st: State, symbol: string)
    requires CursorsFit(inp, st) && symbol in inp.htf
    ensures -1 <= CursorOf(st, symbol) < |inp.htf[symbol]|
  {
  }

  function Step(inp: Input, st: State, e: Event): (r: State)
    requires e.symbol in inp.ltf && e.k < |inp.ltf[e.symbol]| && e.symbol in inp.htf && CursorsFit(inp, st)
    ensures CursorsFit(inp, r)
  {
    StepKeepsCursorsFit(inp, st, e);
    if st.failed then st else Decided(inp, DayOpened(Walked(inp, st, e), e), e)
  }

  function Start(inp: Input): State {
    State(Ledger(INITIAL_BALANCE, INITIAL_BALANCE, []), [], [], map[], map[],
          if inp.events == [] then [] else [(inp.events[0].time, INITIAL_BALANCE)], false, false, map[], map[])
  }

  /** The state after the first `n` events. */
  function After(inp: Input, n: nat): (st: State)
    requires Proper(inp) && n <= |inp.events|
    ensures CursorsFit(inp, st)
  {
    if n == 0 then Start(inp) else Step(inp, After(inp, n - 1), inp.events[n - 1])
  }

  /** Every open trade's pair has bars. */
  ghost predicate Closable(inp: Input, open: seq<Trade>) {
    forall t :: t in open ==> t.symbol in inp.ltf && inp.ltf[t.symbol] != []
  }

  lemma ClosablePrefix(inp: Input, open: seq<Trade>, n: nat)
    requires Closable(inp, open) && n <= |open|
    ensures Closable(inp, open[..n])
    ensures n > 0 ==> open[n - 1].symbol in inp.ltf && inp.ltf[open[n - 1].symbol] != []
  {
  }

  function CloseAll(inp: Input, b: Ledger, open: seq<Trade>): Ledger
    requires Closable(inp, open)
  {
    if open == [] then b
    else
      var t := Last(open);
      var u := ForceClosed(t, Last(inp.ltf[t.symbol]), inp.w.pair(t.symbol), END_OF_DATA);
      Booking(CloseAll(inp, b, Front(open)), u.closed.value)
  }

  /** The end of the stream: whatever is open is closed at its pair's last bar. */
  function Finished(inp: Input, st: State): State
    requires Closable(inp, st.open)
  {
    if st.failed || st.open == [] || inp.events == [] then st
    else LogEquity(st.(book := CloseAll(inp, st.book, st.open), open := []), Last(inp.events).time)
  }

  // ------------------------------------------------------------------ the object

  function Views(ts: seq<OpenTrade>): seq<Trade>
    reads ts
  {
    seq(|ts|, i requires 0 <= i < |ts| reads ts => ts[i].View())
  }

  ghost predicate Distinct(ts: seq<OpenTrade>) {
    forall i, j :: 0 <= i < j < |ts| ==> ts[i] != ts[j]
  }

  lemma OnlyOnce(ts: seq<OpenTrade>, i: nat)
    requires Distinct(ts) && i < |ts|
    ensures ts[i] !in ts[..i] && forall j :: i < j < |ts| ==> ts[j] != ts[i]
  {
  }

  /** `kept` are distinct trades from the first `n` of `ts`. */
  ghost predicate AmongFirst(kept: seq<OpenTrade>, ts: seq<OpenTrade>, n: nat)
    requires n <= |ts|
  {
    Distinct(kept) && forall t :: t in kept ==> t in ts[..n]
  }

  lemma NextIsNew(kept: seq<OpenTrade>, ts: seq<OpenTrade>, n: nat)
    requires Distinct(ts) && n < |ts| && AmongFirst(kept, ts, n)
    ensures ts[n] !in kept && AmongFirst(kept, ts, n + 1) && AmongFirst(kept + [ts[n]], ts, n + 1)
  {
    assert ts[..n + 1] == ts[..n] + [ts[n]];
  }

  lemma NothingIsDistinct(ts: seq<OpenTrade>)
    requires ts == []
    ensures Distinct(ts)
  {
  }

  class Backtest {
    var balance: real
    var peak: real
    var closed: seq<Closed>
    var open: seq<OpenTrade>
    var dayCount: map<int, nat>
    var dayStart: map<int, real>
    var curve: seq<(int, real)>
    var halted: bool
    var failed: bool
    var cursor: map<string, int>
    var prices: map<string, real>
    ghost var tickets: seq<Ticket>

    ghost function View(): State
      reads this, open
    {
      State(Ledger(balance, peak, closed), Views(open), tickets, dayCount, dayStart,
                  curve, halted, failed, cursor, prices)
    }

    constructor (inp: Input)
      ensures View() == Start(inp) && open == []
    {
      balance, peak, closed, open, tickets := INITIAL_BALANCE, INITIAL_BALANCE, [], [], [];
      dayCount, dayStart, halted, failed, cursor, prices := map[], map[], false, false, map[], map[];
      curve := if inp.events == [] then [] else [(inp.events[0].time, INITIAL_BALANCE)];
    }

    method Book(c: Closed)
      modifies this`balance, this`peak, this`closed
      ensures Ledger(balance, peak, closed) == Booking(old(Ledger(balance, peak, closed)), c)
    {
      balance := balance + (c.gross - c.commission);
      if balance > peak { peak := balance; }
      closed := closed + [c];
    }

    method EquityLog(time: int)
      modifies this`curve
      ensures View() == LogEquity(old(View()), time)
    {
      if curve != [] && Last(curve).1 == balance {
        curve := curve[|curve| - 1 := (time, balance)];
        assert curve == Front(old(curve)) + [(time, balance)];
      } else {
        curve := curve + [(time, balance)];
      }
    }

    /** Step 2: the pair's open trades meet the bar; those that close are booked in list order. */
    method WalkOpenTrades(bar: Bar, e: Event, pair: Pair)
      requires Distinct(open)
      modifies this`balance, this`peak, this`closed, this`open, open
      ensures Walk(Ledger(balance, peak, closed), Views(open))
           == WalkAll(old(Ledger(balance, peak, closed)), old(Views(open)), bar, e, pair)
      ensures Distinct(open) && forall t :: t in open ==> t in old(open)
    {
      hide WalkOne;
      ghost var before := Views(open);
      var still: seq<OpenTrade> := [];
      assert before[..0] == [] && Views(still) == [];
      assert AmongFirst(still, open, 0);
      hide Distinct, AmongFirst;
      for i := 0 to |open|
        invariant open == old(open)
        invariant Walk(Ledger(balance, peak, closed), Views(still))
               == WalkAll(old(Ledger(balance, peak, closed)), before[..i], bar, e, pair)
        invariant AmongFirst(still, open, i)
        invariant forall j :: i <= j < |open| ==> open[j].View() == before[j]
      {
        var t := open[i];
        assert Front(before[..i + 1]) == before[..i] && Last(before[..i + 1]) == before[i];
        OnlyOnce(open, i);
        NextIsNew(still, open, i);
        ghost var kept := Views(still);
        var keep := WalkTrade(t, bar, e, pair, kept);
        assert Views(still) == kept;
        if keep {
          still := still + [t];
          assert Views(still) == kept + [t.View()];
        }
      }
      assert before[..|open|] == before;
      assert Distinct(still) && forall t :: t in still ==> t in open;
      open := still;
    }

    method WalkTrade(t: OpenTrade, bar: Bar, e: Event, pair: Pair, ghost kept: seq<Trade>) returns (keep: bool)
      modifies t, this`balance, this`peak, this`closed
      ensures Walk(Ledger(balance, peak, closed), if keep then kept + [t.View()] else kept)
           == WalkOne(Walk(old(Ledger(balance, peak, closed)), kept), old(t.View()), bar, e, pair)
    {
      hide Updated, ForceClosed, FridayClose, Booking;
      if t.symbol != e.symbol { return true; }
      var c := MeetBar(t, bar, e, pair);
      if c.Some? { Book(c.value); }
      keep := c.None?;
    }

    method MeetBar(t: OpenTrade, bar: Bar, e: Event, pair: Pair) returns (c: Option<Closed>)
      modifies t
      ensures Update(t.View(), c) ==
        if e.time - old(t.View()).entryTime >= TIME_STOP_HOURS * HOUR_MS then
          ForceClosed(old(t.View()), bar, pair, TIME_STOP)
        else if FridayClose(e.time) then ForceClosed(old(t.View()), bar, pair, FRIDAY_FLATTEN)
        else Updated(old(t.View()), bar, pair)
    {
      if e.time - t.entryTime >= TIME_STOP_HOURS * HOUR_MS {
        var done := t.ForceCloseAtMarket(bar, pair, TIME_STOP);
        return Some(done);
      }
      if FridayClose(e.time) {
        var done := t.ForceCloseAtMarket(bar, pair, FRIDAY_FLATTEN);
        return Some(done);
      }
      c := t.UpdateOpenTrade(bar, pair);
    }

    method AdvanceCursor(htf: seq<Bar>, symbol: string, time: int) returns (c: int)
      requires -1 <= CursorOf(View(), symbol) < |htf|
      modifies this`cursor
      ensures c == Advanced(htf, old(CursorOf(View(), symbol)), time)
      ensures View() == old(View()).(cursor := old(cursor)[symbol := c])
    {
      c := if symbol in cursor then cursor[symbol] else -1;
      while c + 1 < |htf| && htf[c + 1].time < time
        invariant -1 <= c < |htf|
        invariant Advanced(htf, c, time) == Advanced(htf, old(CursorOf(View(), symbol)), time)
      {
        c := c + 1;
      }
      cursor := cursor[symbol := c];
    }

    /** Steps 8 to 14. */
    method Enter(inp: Input, e: Event)
      requires e.symbol in inp.ltf && e.k < |inp.ltf[e.symbol]|
      requires e.symbol in inp.htf && -1 <= CursorOf(View(), e.symbol) < |inp.htf[e.symbol]|
      requires Distinct(open)
      modifies this`cursor, this`open, this`tickets, this`dayCount
      ensures View() == Entered(inp, old(View()), e)
      ensures Distinct(open) && forall t :: t in open ==> t in old(open) || fresh(t)
    {
      hide NewTrade, DateKey;
      var c := AdvanceCursor(inp.htf[e.symbol], e.symbol, e.time);
      var trade := Propose(inp, e, c);
      if trade.Some? { OpenPosition(trade.value, DateKey(e.time)); }
    }

    method Propose(inp: Input, e: Event, c: int) returns (trade: Option<Trade>)
      requires e.symbol in inp.ltf && e.k < |inp.ltf[e.symbol]|
      requires e.symbol in inp.htf && -1 <= c < |inp.htf[e.symbol]|
      ensures trade == NewTrade(inp, balance, prices, e, c)
    {
      if c < HTF_WINDOW / 4 { return None; }
      var sig := Candidate(inp, e, c);
      if sig.None? { return None; }
      var pair := inp.w.pair(e.symbol);
      if inp.ltf[e.symbol][e.k].spread / 10.0 > pair.maxSpread { return None; }
      trade := Opened(sig.value, e.symbol, e.k, e.time, pair, balance, inp.w.pipValue(e.symbol, prices));
    }

    method OpenPosition(trade: Trade, day: int)
      requires Distinct(open)
      modifies this`open, this`tickets, this`dayCount
      ensures View() == WithTrade(old(View()), trade, day)
      ensures Distinct(open) && forall t :: t in open ==> t in old(open) || fresh(t)
    {
      var t := new OpenTrade(trade);
      open := open + [t];
      assert Views(open) == old(Views(open)) + [trade];
      tickets := tickets + [TicketOf(trade)];
      dayCount := dayCount[day := (if day in dayCount then dayCount[day] else 0) + 1];
    }

    method OpenDay(e: Event)
      modifies this`dayStart, this`dayCount
      ensures View() == DayOpened(old(View()), e) && DateKey(e.time) in dayStart
    {
      var day := DateKey(e.time);
      if day !in dayStart {
        dayStart, dayCount := dayStart[day := balance], dayCount[day := 0];
      }
    }

    /** Steps 4 to 14: caps, gates, entry; then the equity sample. */
    method EnterUnlessBlocked(inp: Input, e: Event)
      requires e.symbol in inp.ltf && e.k < |inp.ltf[e.symbol]|
      requires e.symbol in inp.htf && -1 <= CursorOf(View(), e.symbol) < |inp.htf[e.symbol]|
      requires Distinct(open)
      modifies this`cursor, this`open, this`tickets, this`dayCount, this`curve
      ensures View() == Gated(inp, old(View()), e)
      ensures Distinct(open) && forall t :: t in open ==> t in old(open) || fresh(t)
    {
      hide Entered, Logged;
      var day := DateKey(e.time);
      var blocked := |open| >= MAX_CONCURRENT
        || (day in dayCount && dayCount[day] >= MAX_TRADES_PER_DAY)
        || !IsCandidate(inp.ltf[e.symbol], e.k) || inp.w.blackout(e.symbol, e.time);
      assert blocked == Blocked(inp, View(), e);
      if !blocked { Enter(inp, e); }
      EquityLog(e.time);
    }

    /** Steps 3b to 14: the drawdown halts, then entry. */
    method Decide(inp: Input, e: Event)
      requires e.symbol in inp.ltf && e.k < |inp.ltf[e.symbol]| && DateKey(e.time) in dayStart
      requires e.symbol in inp.htf && -1 <= CursorOf(View(), e.symbol) < |inp.htf[e.symbol]|
      requires Distinct(open)
      modifies this
      ensures View() == Decided(inp, old(View()), e)
      ensures Distinct(open) && forall t :: t in open ==> t in old(open) || fresh(t)
    {
      hide Gated, Logged;
      if halted { return; }
      var from := dayStart[DateKey(e.time)];
      if from == 0.0 { failed := true; return; }
      if (from - balance) / from * 100.0 >= DAILY_DD_PCT_HARD {
        EquityLog(e.time);
        return;
      }
      if peak == 0.0 { failed := true; return; }
      if (peak - balance) / peak * 100.0 >= TOTAL_DD_PCT_HARD {
        halted := true;
        EquityLog(e.time);
        return;
      }
      EnterUnlessBlocked(inp, e);
    }

    method OnEvent(inp: Input, e: Event)
      requires e.symbol in inp.ltf && e.k < |inp.ltf[e.symbol]| && e.symbol in inp.htf
      requires CursorsFit(inp, View()) && Distinct(open) && !failed
      modifies this, open
      ensures View() == Step(inp, old(View()), e)
      ensures Distinct(open) && forall t :: t in open ==> t in old(open) || fresh(t)
    {
      hide Decided, DayOpened, CursorsFit, WalkAll;
      var bar := inp.ltf[e.symbol][e.k];
      prices := prices[e.symbol := bar.close];
      WalkOpenTrades(bar, e, inp.w.pair(e.symbol));
      assert View() == Walked(inp, old(View()), e);
      StepKeepsCursorsFit(inp, old(View()), e);
      CursorFits(inp, View(), e.symbol);
      OpenDay(e);
      Decide(inp, e);
    }

    method CloseOne(t: OpenTrade, inp: Input)
      requires t.symbol in inp.ltf && inp.ltf[t.symbol] != []
      modifies t, this`balance, this`peak, this`closed
      ensures Ledger(balance, peak, closed) == Booking(old(Ledger(balance, peak, closed)),
        ForceClosed(old(t.View()), Last(inp.ltf[t.symbol]), inp.w.pair(t.symbol), END_OF_DATA).closed.value)
    {
      var c := t.ForceCloseAtMarket(Last(inp.ltf[t.symbol]), inp.w.pair(t.symbol), END_OF_DATA);
      Book(c);
    }

    method CloseEach(inp: Input)
      requires Distinct(open) && Closable(inp, Views(open))
      modifies this`balance, this`peak, this`closed, open
      ensures Ledger(balance, peak, closed) == CloseAll(inp, old(Ledger(balance, peak, closed)), old(Views(open)))
    {
      hide ForceClosed, Booking, Closable, Distinct;
      ghost var before := Views(open);
      ClosablePrefix(inp, before, 0);
      for i := 0 to |open|
        invariant Closable(inp, before[..i])
        invariant Ledger(balance, peak, closed) == CloseAll(inp, old(Ledger(balance, peak, closed)), before[..i])
        invariant forall j :: i <= j < |open| ==> open[j].View() == before[j]
      {
        assert Front(before[..i + 1]) == before[..i] && Last(before[..i + 1]) == before[i];
        ClosablePrefix(inp, before, i + 1);
        OnlyOnce(open, i);
        CloseOne(open[i], inp);
      }
      assert before[..|open|] == before;
    }

    /** The forced close of every trade that is still open when the stream ends. */
    method CloseAtEndOfData(inp: Input)
      requires !failed && open != [] && inp.events != [] && Distinct(open) && Closable(inp, Views(open))
      modifies this`balance, this`peak, this`closed, this`open, this`curve, open
      ensures View() == Finished(inp, old(View()))
    {
      hide CloseAll, Logged, Closable, Distinct;
      CloseEach(inp);
      open := [];
      assert Views(open) == [];
      EquityLog(Last(inp.events).time);
    }
  }

  // ------------------------------------------------------------------ the whole run

  lemma {:induction false} WalkKeepsClosable(inp: Input, b: Ledger, open: seq<Trade>, bar: Bar, e: Event, pair: Pair)
    requires Closable(inp, open)
    ensures Closable(inp, WalkAll(b, open, bar, e, pair).still)
  {
    hide Booking, Booked;
    if open != [] { WalkKeepsClosable(inp, b, Front(open), bar, e, pair); }
  }

  lemma EntryKeepsClosable(inp: Input, st: State, e: Event)
    requires e.symbol in inp.ltf && e.k < |inp.ltf[e.symbol]|
    requires e.symbol in inp.htf && -1 <= CursorOf(st, e.symbol) < |inp.htf[e.symbol]|
    requires Closable(inp, st.open)
    ensures Closable(inp, Entered(inp, st, e).open)
  {
    hide NewTrade, DateKey;
  }

  lemma StepKeepsClosable(inp: Input, st: State, e: Event)
    requires e.symbol in inp.ltf && e.k < |inp.ltf[e.symbol]| && e.symbol in inp.htf && CursorsFit(inp, st)
    requires Closable(inp, st.open)
    ensures Closable(inp, Step(inp, st, e).open)
  {
    hide WalkAll, Entered, DateKey, Blocked, LossPct, Closable;
    WalkKeepsClosable(inp, st.book, st.open, inp.ltf[e.symbol][e.k], e, inp.w.pair(e.symbol));
    StepKeepsCursorsFit(inp, st, e);
    EntryKeepsClosable(inp, DayOpened(Walked(inp, st, e), e), e);
  }

  lemma {:induction false} OpenIsClosable(inp: Input, n: nat)
    requires Proper(inp) && n <= |inp.events|
    ensures Closable(inp, After(inp, n).open)
  {
    hide Step;
    if n > 0 {
      OpenIsClosable(inp, n - 1);
      StepKeepsClosable(inp, After(inp, n - 1), inp.events[n - 1]);
    }
  }

  lemma {:induction false} FailureIsFinal(inp: Input, n: nat, m: nat)
    requires Proper(inp) && n <= m <= |inp.events| && After(inp, n).failed
    ensures After(inp, m) == After(inp, n)
  {
    hide Decided, DayOpened, Walked, CursorsFit;
    if n < m { FailureIsFinal(inp, n, m - 1); }
  }

  function Outcome(inp: Input): State
    requires Proper(inp)
  {
    OpenIsClosable(inp, |inp.events|);
    Finished(inp, After(inp, |inp.events|))
  }

  method RunBacktest(inp: Input) returns (bt: Backtest)
    requires Proper(inp)
    ensures bt.View() == Outcome(inp)
  {
    hide Step, Closable, Distinct, CursorsFit;
    bt := new Backtest(inp);
    assert Distinct(bt.open) by { NothingIsDistinct(bt.open); }
    for n := 0 to |inp.events|
      invariant fresh(bt) && (forall i :: 0 <= i < |bt.open| ==> fresh(bt.open[i]))
      invariant Distinct(bt.open) && bt.View() == After(inp, n) && !bt.failed
    {
      bt.OnEvent(inp, inp.events[n]);
      forall i | 0 <= i < |bt.open| ensures fresh(bt.open[i]) { assert bt.open[i] in bt.open; }
      if bt.failed {
        FailureIsFinal(inp, n + 1, |inp.events|);
        return;
      }
    }
    OpenIsClosable(inp, |inp.events|);
    if bt.open != [] { bt.CloseAtEndOfData(inp); }
  }
}
