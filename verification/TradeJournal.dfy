/** The statistics of a finished backtest (backtesting/trade_journal.py): one pass against all-pairs definitions. */
module TradeJournal {
  import opened Common

  /** What the journal reads of a closed position; an unset result is possible in the record. */
  datatype Position = Position(pnl: Option<real>, signalType: string, session: string, closeReason: string)

  function Pnl(p: Position): real {
    if p.pnl.Some? then p.pnl.value else 0.0
  }

  function TypeOf(p: Position): string { p.signalType }

  function SessionOf(p: Position): string { p.session }

  function ReasonOf(p: Position): string { p.closeReason }

  function Pnls(closed: seq<Position>): seq<real> {
    if closed == [] then [] else Pnls(Front(closed)) + [Pnl(Last(closed))]
  }

  lemma {:induction false} PnlsAt(closed: seq<Position>, i: nat)
    requires i < |closed|
    ensures |Pnls(closed)| == |closed| && Pnls(closed[..i]) == Pnls(closed)[..i]
    ensures Pnls(closed)[i] == match closed[i].pnl case None => 0.0 case Some(pnl) => pnl
  {
    if i < |closed| - 1 {
      PnlsAt(Front(closed), i);
      assert Front(closed)[..i] == closed[..i];
    } else {
      assert closed[..i] == Front(closed);
      PnlsLength(Front(closed));
    }
  }

  lemma {:induction false} PnlsLength(closed: seq<Position>)
    ensures |Pnls(closed)| == |closed|
  {
    if closed != [] { PnlsLength(Front(closed)); }
  }

  // ------------------------------------------------------------------ drawdown and streak, by definition

  /** Cumulative result after the first `i` trades, from a zero start. */
  function Equity(pnls: seq<real>, i: nat): real
    requires i <= |pnls|
  {
    Sum(pnls[..i])
  }

  ghost predicate IsPeak(pnls: seq<real>, n: nat, peak: real)
    requires n <= |pnls|
  {
    && (forall i :: 0 <= i <= n ==> Equity(pnls, i) <= peak)
    && exists i :: 0 <= i <= n && Equity(pnls, i) == peak
  }

  ghost predicate IsTrough(pnls: seq<real>, n: nat, low: real)
    requires n <= |pnls|
  {
    && (forall i :: 0 <= i <= n ==> Equity(pnls, i) >= low)
    && exists i :: 0 <= i <= n && Equity(pnls, i) == low
  }

  /** The largest fall from an equity to a later one, over all pairs. */
  ghost predicate IsMaxDrawdown(pnls: seq<real>, n: nat, dd: real)
    requires n <= |pnls|
  {
    && (forall i, j :: 0 <= i <= j <= n ==> Equity(pnls, i) - Equity(pnls, j) <= dd)
    && exists i, j :: 0 <= i <= j <= n && Equity(pnls, i) - Equity(pnls, j) == dd
  }

  function FallPct(peak: real, equity: real): (pct: real)
    requires peak > 0.0
    ensures pct * peak == (peak - equity) * 100.0
  {
    (peak - equity) / peak * 100.0
  }

  /** The largest percentage fall below the peak of its time, once that peak is positive. */
  ghost predicate IsMaxDrawdownPct(pnls: seq<real>, n: nat, pct: real)
    requires n <= |pnls|
  {
    && pct >= 0.0
    && (forall j, peak :: 0 < j <= n && peak > 0.0 && IsPeak(pnls, j, peak) ==> FallPct(peak, Equity(pnls, j)) <= pct)
    && (pct > 0.0 ==>
        exists j, peak :: 0 < j <= n && peak > 0.0 && IsPeak(pnls, j, peak) && FallPct(peak, Equity(pnls, j)) == pct)
  }

  ghost predicate AllLosses(pnls: seq<real>, from: nat, to: nat)
    requires from <= to <= |pnls|
  {
    forall k :: from <= k < to ==> pnls[k] <= 0.0
  }

  /** The length of the longest stretch of trades none of which won. */
  ghost predicate IsLongestStreak(pnls: seq<real>, n: nat, longest: nat)
    requires n <= |pnls|
  {
    && (forall i, j :: 0 <= i <= j <= n && AllLosses(pnls, i, j) ==> j - i <= longest)
    && exists i, j :: 0 <= i <= j <= n && j - i == longest && AllLosses(pnls, i, j)
  }

  /** The stretch that ends at trade `n` cannot be extended to the left. */
  ghost predicate IsCurrentStreak(pnls: seq<real>, n: nat, run: nat)
    requires n <= |pnls|
  {
    run <= n && AllLosses(pnls, n - run, n) && (run < n ==> pnls[n - run - 1] > 0.0)
  }

  // ------------------------------------------------------------------ one trade further

  lemma EquityStep(pnls: seq<real>, n: nat)
    requires n < |pnls|
    ensures Equity(pnls, n + 1) == Equity(pnls, n) + pnls[n] && Equity(pnls, 0) == 0.0
  {
    assert pnls[..n + 1] == pnls[..n] + [pnls[n]];
    SumOfAppend(pnls[..n], pnls[n]);
  }

  lemma PeakStep(pnls: seq<real>, n: nat, peak: real)
    requires n < |pnls| && IsPeak(pnls, n, peak)
    ensures IsPeak(pnls, n + 1, Max(peak, Equity(pnls, n + 1)))
  {
    hide Equity;
    var i :| 0 <= i <= n && Equity(pnls, i) == peak;
    assert Equity(pnls, if Equity(pnls, n + 1) > peak then n + 1 else i) == Max(peak, Equity(pnls, n + 1));
  }

  lemma TroughStep(pnls: seq<real>, n: nat, low: real)
    requires n < |pnls| && IsTrough(pnls, n, low)
    ensures IsTrough(pnls, n + 1, Min(low, Equity(pnls, n + 1)))
  {
    hide Equity;
    var i :| 0 <= i <= n && Equity(pnls, i) == low;
    assert Equity(pnls, if Equity(pnls, n + 1) < low then n + 1 else i) == Min(low, Equity(pnls, n + 1));
  }

  /** Comparing with the running peak is as good as comparing with every earlier equity. */
  lemma DrawdownStep(pnls: seq<real>, n: nat, peak: real, dd: real)
    requires n < |pnls| && IsPeak(pnls, n + 1, peak) && IsMaxDrawdown(pnls, n, dd)
    ensures IsMaxDrawdown(pnls, n + 1, Max(dd, peak - Equity(pnls, n + 1)))
  {
    hide Equity;
    var d := Max(dd, peak - Equity(pnls, n + 1));
    if d == dd {
      var i, j :| 0 <= i <= j <= n && Equity(pnls, i) - Equity(pnls, j) == dd;
      assert Equity(pnls, i) - Equity(pnls, j) == d;
    } else {
      var i :| 0 <= i <= n + 1 && Equity(pnls, i) == peak;
      assert Equity(pnls, i) - Equity(pnls, n + 1) == d;
    }
  }

  lemma PeakIsUnique(pnls: seq<real>, n: nat, a: real, b: real)
    requires n <= |pnls| && IsPeak(pnls, n, a) && IsPeak(pnls, n, b)
    ensures a == b
  {
  }

  function PctAfter(pct: real, peak: real, equity: real): real {
    if peak > 0.0 && FallPct(peak, equity) > pct then FallPct(peak, equity) else pct
  }

  lemma PctStep(pnls: seq<real>, n: nat, peak: real, pct: real)
    requires n < |pnls| && IsPeak(pnls, n + 1, peak) && IsMaxDrawdownPct(pnls, n, pct)
    ensures IsMaxDrawdownPct(pnls, n + 1, PctAfter(pct, peak, Equity(pnls, n + 1)))
  {
    hide Equity, IsPeak, FallPct;
    var d := PctAfter(pct, peak, Equity(pnls, n + 1));
    forall j, p | 0 < j <= n + 1 && p > 0.0 && IsPeak(pnls, j, p) ensures FallPct(p, Equity(pnls, j)) <= d {
      if j == n + 1 { PeakIsUnique(pnls, n + 1, p, peak); }
    }
    if d > pct {
      assert FallPct(peak, Equity(pnls, n + 1)) == d;
    } else if d > 0.0 {
      var j, p :| 0 < j <= n && p > 0.0 && IsPeak(pnls, j, p) && FallPct(p, Equity(pnls, j)) == pct;
    }
  }

  lemma StreakStep(pnls: seq<real>, n: nat, run: nat, longest: nat)
    requires n < |pnls| && IsCurrentStreak(pnls, n, run) && IsLongestStreak(pnls, n, longest)
    ensures var r := if pnls[n] <= 0.0 then run + 1 else 0;
      IsCurrentStreak(pnls, n + 1, r) && IsLongestStreak(pnls, n + 1, if r > longest then r else longest)
  {
    var r := if pnls[n] <= 0.0 then run + 1 else 0;
    var best := if r > longest then r else longest;
    forall i, j | 0 <= i <= j <= n + 1 && AllLosses(pnls, i, j) ensures j - i <= best {
      if j == n + 1 && i <= n {
        assert pnls[n] <= 0.0;
        assert i >= n - run;
      }
    }
    if best == longest {
      var i, j :| 0 <= i <= j <= n && j - i == longest && AllLosses(pnls, i, j);
      assert AllLosses(pnls, i, j);
    } else {
      assert AllLosses(pnls, n + 1 - r, n + 1);
    }
  }

  /** The variables of the single pass over the results. */
  datatype Tally = Tally(equity: real, peak: real, low: real, usd: real, pct: real, run: nat, longest: nat)

  function TallyNext(t: Tally, pnl: real): Tally {
    var equity := t.equity + pnl;
    var peak := Max(t.peak, equity);
    var run := if pnl <= 0.0 then t.run + 1 else 0;
    Tally(equity, peak, Min(t.low, equity), Max(t.usd, peak - equity), PctAfter(t.pct, peak, equity),
          run, if run > t.longest then run else t.longest)
  }

  /** Each variable is what its definition says about the first `n` results. */
  ghost predicate Tallied(pnls: seq<real>, n: nat, t: Tally)
    requires n <= |pnls|
  {
    && t.equity == Equity(pnls, n) && IsPeak(pnls, n, t.peak) && IsTrough(pnls, n, t.low)
    && IsMaxDrawdown(pnls, n, t.usd) && IsMaxDrawdownPct(pnls, n, t.pct)
    && IsCurrentStreak(pnls, n, t.run) && IsLongestStreak(pnls, n, t.longest)
  }

  lemma TallyStep(pnls: seq<real>, n: nat, t: Tally)
    requires n < |pnls| && Tallied(pnls, n, t)
    ensures Tallied(pnls, n + 1, TallyNext(t, pnls[n]))
  {
    hide Equity, IsPeak, IsTrough, IsMaxDrawdown, IsMaxDrawdownPct, IsLongestStreak, IsCurrentStreak, PctAfter;
    EquityStep(pnls, n);
    PeakStep(pnls, n, t.peak);
    TroughStep(pnls, n, t.low);
    StreakStep(pnls, n, t.run, t.longest);
    var peak := Max(t.peak, Equity(pnls, n + 1));
    DrawdownStep(pnls, n, peak, t.usd);
    PctStep(pnls, n, peak, t.pct);
  }

  lemma TallyStart(pnls: seq<real>)
    ensures Tallied(pnls, 0, Tally(0.0, 0.0, 0.0, 0.0, 0.0, 0, 0))
  {
    assert Equity(pnls, 0) == 0.0;
    assert Equity(pnls, 0) - Equity(pnls, 0) == 0.0;
    assert AllLosses(pnls, 0, 0);
  }

  // ------------------------------------------------------------------ averages and buckets

  /** One bucket of a breakdown. */
  datatype Bucket = Bucket(key: string, count: nat, pnl: real, wins: nat)

  function Won(p: Position): nat {
    if Pnl(p) > 0.0 then 1 else 0
  }

  /** Add a position to the bucket of its key, or open that bucket at the end. */
  function Added(buckets: seq<Bucket>, key: string, p: Position): seq<Bucket> {
    if buckets == [] then [Bucket(key, 1, Pnl(p), Won(p))]
    else if buckets[0].key == key then
      var b := buckets[0];
      [Bucket(key, b.count + 1, b.pnl + Pnl(p), b.wins + Won(p))] + buckets[1..]
    else [buckets[0]] + Added(buckets[1..], key, p)
  }

  function Buckets(closed: seq<Position>, keyOf: Position -> string): seq<Bucket> {
    if closed == [] then [] else Added(Buckets(Front(closed), keyOf), keyOf(Last(closed)), Last(closed))
  }

  /** Count, result and wins over all buckets. */
  function Totals(buckets: seq<Bucket>): (nat, real, nat) {
    if buckets == [] then (0, 0.0, 0)
    else
      var (n, pnl, wins) := Totals(buckets[1..]);
      (n + buckets[0].count, pnl + buckets[0].pnl, wins + buckets[0].wins)
  }

  lemma {:induction false} AddingAddsOne(buckets: seq<Bucket>, key: string, p: Position)
    ensures var (n, pnl, wins) := Totals(buckets);
      Totals(Added(buckets, key, p)) == (n + 1, pnl + Pnl(p), wins + Won(p))
  {
    var added := Added(buckets, key, p);
    if buckets == [] {
      assert added[1..] == [];
    } else if buckets[0].key == key {
      assert added[1..] == buckets[1..];
    } else {
      AddingAddsOne(buckets[1..], key, p);
      assert added[1..] == Added(buckets[1..], key, p);
    }
  }

  function Wins(closed: seq<Position>): seq<real> {
    if closed == [] then [] else Wins(Front(closed)) + if Pnl(Last(closed)) > 0.0 then [Pnl(Last(closed))] else []
  }

  function Losses(closed: seq<Position>): seq<real> {
    if closed == [] then [] else Losses(Front(closed)) + if Pnl(Last(closed)) <= 0.0 then [Pnl(Last(closed))] else []
  }

  lemma NothingTotals()
    ensures Totals([]) == (0, 0.0, 0) && Sum([]) == 0.0
  {
  }

  /** Whatever the breakdown, its buckets add up to the totals of the journal. */
  lemma {:induction false} BucketsAddUp(closed: seq<Position>, keyOf: Position -> string)
    ensures Totals(Buckets(closed, keyOf)) == (|closed|, Sum(Pnls(closed)), |Wins(closed)|)
  {
    hide Added, Totals, Sum, Pnl;
    if closed == [] {
      NothingTotals();
    } else {
      BucketsAddUp(Front(closed), keyOf);
      AddingAddsOne(Buckets(Front(closed), keyOf), keyOf(Last(closed)), Last(closed));
      SumOfAppend(Pnls(Front(closed)), Pnl(Last(closed)));
    }
  }

  lemma {:induction false} WinsAndLossesAddUp(closed: seq<Position>)
    ensures Sum(Wins(closed)) + Sum(Losses(closed)) == Sum(Pnls(closed))
    ensures |Wins(closed)| + |Losses(closed)| == |closed|
  {
    if closed != [] {
      var before, x := Front(closed), Pnl(Last(closed));
      WinsAndLossesAddUp(before);
      SumOfAppend(Wins(before), x);
      SumOfAppend(Losses(before), x);
      SumOfAppend(Pnls(before), x);
      assert Wins(before) + [] == Wins(before) && Losses(before) + [] == Losses(before);
    }
  }

  function MeanOf(sum: real, count: real): real {
    if count == 0.0 then 0.0 else sum / count
  }

  function Average(xs: seq<real>): real {
    MeanOf(Sum(xs), |xs| as real)
  }

  function Expectancy(wins: seq<real>, losses: seq<real>, n: nat): real
    requires n > 0
  {
    Mix(|wins| as real / n as real, Average(wins), Average(losses))
  }

  function Mix(rate: real, a: real, b: real): real {
    rate * a + (1.0 - rate) * b
  }

  lemma WeightedMeans(e: real, w: real, l: real, n: real, sumW: real, sumL: real)
    requires n > 0.0 && w + l == n && (w == 0.0 ==> sumW == 0.0) && (l == 0.0 ==> sumL == 0.0)
    requires e == Mix(w / n, MeanOf(sumW, w), MeanOf(sumL, l))
    ensures e * n == sumW + sumL
  {
    var r, a, b := w / n, MeanOf(sumW, w), MeanOf(sumL, l);
    assert r * n == w;
    assert (1.0 - r) * n == l;
    hide MeanOf;
  }

  /** The expectancy is the gross result per trade. */
  lemma ExpectancyIsGrossPerTrade(closed: seq<Position>)
    requires closed != []
    ensures Expectancy(Wins(closed), Losses(closed), |closed|) * |closed| as real == Sum(Pnls(closed))
  {
    hide Sum, Wins, Losses, Pnls, Mix;
    var wins, losses := Wins(closed), Losses(closed);
    WinsAndLossesAddUp(closed);
    SumOfNone();
    WeightedMeans(Expectancy(wins, losses, |closed|), |wins| as real, |losses| as real, |closed| as real,
                  Sum(wins), Sum(losses));
  }

  lemma SumOfNone()
    ensures Sum([]) == 0.0
  {
  }

  // ------------------------------------------------------------------ the journal

  datatype Summary = Summary(
    total: nat, wins: nat, losses: nat, winRate: real, gross: real, avgWin: real, avgLoss: real, expectancy: real,
    longestLosing: nat, maxDdPct: real, maxDdUsd: real, maxLossFromStart: real,
    byType: seq<Bucket>, bySession: seq<Bucket>, byReason: seq<Bucket>)

  class TradeJournal {
    var closed: seq<Position>

    constructor ()
      ensures closed == []
    {
      closed := [];
    }

    /** A closed position goes to the end of the ledger. */
    method LogClose(p: Position)
      modifies this`closed
      ensures closed == old(closed) + [p]
    {
      closed := closed + [p];
    }

    /** Streaks and drawdowns over the realised sequence, in one pass. */
    method Curve(pnls: seq<real>) returns (longest: nat, pct: real, usd: real, low: real)
      ensures IsLongestStreak(pnls, |pnls|, longest) && IsMaxDrawdown(pnls, |pnls|, usd)
      ensures IsMaxDrawdownPct(pnls, |pnls|, pct) && IsTrough(pnls, |pnls|, low)
    {
      hide Tallied, PctAfter, IsLongestStreak, IsMaxDrawdown, IsMaxDrawdownPct, IsTrough;
      var run, peak, equity := 0, 0.0, 0.0;
      longest, pct, usd, low := 0, 0.0, 0.0, 0.0;
      TallyStart(pnls);
      for i := 0 to |pnls|
        invariant Tallied(pnls, i, Tally(equity, peak, low, usd, pct, run, longest))
      {
        TallyStep(pnls, i, Tally(equity, peak, low, usd, pct, run, longest));
        run, longest := Streak(pnls[i], run, longest);
        equity := equity + pnls[i];
        if equity > peak { peak := equity; }
        usd, pct := Drawdown(peak, equity, usd, pct);
        if equity < low { low := equity; }
      }
      TallyEnds(pnls, Tally(equity, peak, low, usd, pct, run, longest));
    }

    method Streak(pnl: real, run: nat, longest: nat) returns (r: nat, best: nat)
      ensures r == (if pnl <= 0.0 then run + 1 else 0) && best == if r > longest then r else longest
    {
      r, best := run, longest;
      if pnl <= 0.0 {
        r := r + 1;
        if r > best { best := r; }
      } else {
        r := 0;
      }
    }

    method Drawdown(peak: real, equity: real, usd: real, pct: real) returns (u: real, p: real)
      ensures u == Max(usd, peak - equity) && p == PctAfter(pct, peak, equity)
    {
      u, p := usd, pct;
      if peak - equity > u { u := peak - equity; }
      if peak > 0.0 {
        var dd := (peak - equity) / peak * 100.0;
        if dd > p { p := dd; }
      }
    }

    method Bucketed(keyOf: Position -> string) returns (buckets: seq<Bucket>)
      ensures buckets == Buckets(closed, keyOf)
    {
      buckets := [];
      assert closed[..0] == [];
      for i := 0 to |closed|
        invariant buckets == Buckets(closed[..i], keyOf)
      {
        assert Front(closed[..i + 1]) == closed[..i];
        buckets := Added(buckets, keyOf(closed[i]), closed[i]);
      }
      assert closed[..|closed|] == closed;
    }

    /**
     * The summary fails exactly when some position has no result: it is put among the losses, whose sum then adds
     * nothing to a number.
     */
    method Summarise() returns (r: Result<Summary, string>)
      ensures r.Err? <==> exists p :: p in closed && p.pnl.None?
      ensures r.Ok? ==> Describes(r.value, closed)
    {
      hide AreFigures, Describes;
      if closed == [] {
        r := Ok(Summary(0, 0, 0, 0.0, 0.0, 0.0, 0.0, 0.0, 0, 0.0, 0.0, 0.0, [], [], []));
        EmptyIsDescribed(r.value);
        return;
      }
      var unset := HasUnset();
      if unset { return Err("unsupported operand type(s) for +: 'float' and 'NoneType'"); }
      var s := Figures();
      FiguresDescribe(s, closed);
      r := Ok(s);
    }

    method HasUnset() returns (unset: bool)
      ensures unset <==> exists p :: p in closed && p.pnl.None?
    {
      for i := 0 to |closed|
        invariant forall k :: 0 <= k < i ==> closed[k].pnl.Some?
      {
        if closed[i].pnl.None? {
          assert closed[i] in closed;
          return true;
        }
      }
      return false;
    }

    method Figures() returns (s: Summary)
      requires closed != []
      ensures AreFigures(s, closed)
    {
      hide IsLongestStreak, IsMaxDrawdown, IsMaxDrawdownPct, IsTrough, Wins, Losses, Pnls, Sum, Buckets;
      var wins, losses, pnls := Split();
      var n := |closed|;
      var gross := Total(pnls);
      var sumWins := Total(wins);
      var sumLosses := Total(losses);
      var avgWin := if wins != [] then sumWins / |wins| as real else 0.0;
      var avgLoss := if losses != [] then sumLosses / |losses| as real else 0.0;
      var winRate := |wins| as real / n as real;
      var expectancy := Mix(winRate, avgWin, avgLoss);
      var longest, pct, usd, low := Curve(pnls);
      var byType := Bucketed(TypeOf);
      var bySession := Bucketed(SessionOf);
      var byReason := Bucketed(ReasonOf);
      s := Summary(n, |wins|, |losses|, winRate, gross, avgWin, avgLoss, expectancy, longest, pct, usd, -low,
                   byType, bySession, byReason);
    }

    method Total(xs: seq<real>) returns (sum: real)
      ensures sum == Sum(xs)
    {
      sum := 0.0;
      assert xs[..0] == [];
      for i := 0 to |xs|
        invariant sum == Sum(xs[..i])
      {
        assert Front(xs[..i + 1]) == xs[..i];
        sum := sum + xs[i];
      }
      assert xs[..|xs|] == xs;
    }

    method Split() returns (wins: seq<real>, losses: seq<real>, pnls: seq<real>)
      ensures wins == Wins(closed) && losses == Losses(closed) && pnls == Pnls(closed)
    {
      wins, losses, pnls := [], [], [];
      assert closed[..0] == [];
      for i := 0 to |closed|
        invariant wins == Wins(closed[..i]) && losses == Losses(closed[..i]) && pnls == Pnls(closed[..i])
      {
        assert Front(closed[..i + 1]) == closed[..i];
        var x := Pnl(closed[i]);
        if x > 0.0 { wins := wins + [x]; } else { losses := losses + [x]; }
        pnls := pnls + [x];
      }
      assert closed[..|closed|] == closed;
    }
  }

  lemma TallyEnds(pnls: seq<real>, t: Tally)
    requires Tallied(pnls, |pnls|, t)
    ensures IsLongestStreak(pnls, |pnls|, t.longest) && IsMaxDrawdown(pnls, |pnls|, t.usd)
    ensures IsMaxDrawdownPct(pnls, |pnls|, t.pct) && IsTrough(pnls, |pnls|, t.low)
  {
  }

  /** Every figure of a summary against its definition on the sequence of results. */
  ghost predicate Describes(s: Summary, closed: seq<Position>) {
    var pnls := Pnls(closed);
    var n := |pnls|;
    && s.total == |closed| == s.wins + s.losses && s.wins == |Wins(closed)|
    && s.gross == Sum(pnls) && s.expectancy * s.total as real == s.gross
    && s.avgWin == Average(Wins(closed)) && s.avgLoss == Average(Losses(closed))
    && s.winRate * s.total as real == s.wins as real
    && IsLongestStreak(pnls, n, s.longestLosing)
    && IsMaxDrawdown(pnls, n, s.maxDdUsd) && IsMaxDrawdownPct(pnls, n, s.maxDdPct)
    && IsTrough(pnls, n, -s.maxLossFromStart)
    && Totals(s.byType) == Totals(s.bySession) == Totals(s.byReason) == (s.total, s.gross, s.wins)
  }

  /** The figures as the one pass and the sums compute them. */
  ghost predicate AreFigures(s: Summary, closed: seq<Position>)
    requires closed != []
  {
    && s.total == |closed| && s.wins == |Wins(closed)| && s.losses == |Losses(closed)|
    && s.gross == Sum(Pnls(closed)) && s.winRate == s.wins as real / s.total as real
    && s.avgWin == Average(Wins(closed)) && s.avgLoss == Average(Losses(closed))
    && s.expectancy == Expectancy(Wins(closed), Losses(closed), |closed|)
    && IsLongestStreak(Pnls(closed), |Pnls(closed)|, s.longestLosing)
    && IsMaxDrawdown(Pnls(closed), |Pnls(closed)|, s.maxDdUsd)
    && IsMaxDrawdownPct(Pnls(closed), |Pnls(closed)|, s.maxDdPct)
    && IsTrough(Pnls(closed), |Pnls(closed)|, -s.maxLossFromStart)
    && s.byType == Buckets(closed, TypeOf) && s.bySession == Buckets(closed, SessionOf)
    && s.byReason == Buckets(closed, ReasonOf)
  }

  lemma FiguresDescribe(s: Summary, closed: seq<Position>)
    requires closed != [] && AreFigures(s, closed)
    ensures Describes(s, closed)
  {
    hide IsLongestStreak, IsMaxDrawdown, IsMaxDrawdownPct, IsTrough, Buckets, Average;
    hide Expectancy, Wins, Losses, Pnls, Sum;
    WinsAndLossesAddUp(closed);
    ExpectancyIsGrossPerTrade(closed);
    BucketsAddUp(closed, TypeOf);
    BucketsAddUp(closed, SessionOf);
    BucketsAddUp(closed, ReasonOf);
  }

  lemma EmptyIsDescribed(s: Summary)
    requires s == Summary(0, 0, 0, 0.0, 0.0, 0.0, 0.0, 0.0, 0, 0.0, 0.0, 0.0, [], [], [])
    ensures Describes(s, [])
  {
    hide IsLongestStreak, IsMaxDrawdown, IsMaxDrawdownPct, IsTrough;
    TallyStart([]);
    TallyEnds([], Tally(0.0, 0.0, 0.0, 0.0, 0.0, 0, 0));
  }
}
