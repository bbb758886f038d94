/** Which signal of each symbol a scan cycle puts forward, and in what order. */
module RankingLaws {
  import opened Common
  import opened HouseMoney
  import opened LiveEngine

  /** Reward and risk in price, by direction. */
  function RewardOf(s: Signal): real {
    match s.dir
    case Buy => s.tp - s.entry
    case Sell => s.entry - s.tp
  }

  function RiskOf(s: Signal): real {
    match s.dir
    case Buy => s.entry - s.sl
    case Sell => s.sl - s.entry
  }

  /** A better grade; else more confidence; else more reward for the risk, the ratios multiplied out. */
  predicate Beats(a: Signal, b: Signal) {
    if a.grade != b.grade then a.grade == A || b.grade == C
    else if a.confidence != b.confidence then a.confidence > b.confidence
    else RewardOf(a) * RiskOf(b) > RewardOf(b) * RiskOf(a)
  }

  lemma RatiosCompare(x: real, y: real, u: real, v: real)
    requires y > 0.0 && v > 0.0
    ensures x / y > u / v <==> x * v > u * y
  {
    var p, q := x / y, u / v;
    assert x == p * y && u == q * v;
    assert x * v == p * (y * v) && u * y == q * (y * v);
    assert y * v > 0.0;
    if p > q { assert (p - q) * (y * v) > 0.0; } else { assert (q - p) * (y * v) >= 0.0; }
  }

  lemma OutranksIsBeats(a: Signal, b: Signal)
    ensures Outranks(a, b) <==> Beats(a, b)
  {
    RatiosCompare(RewardOf(a), RiskOf(a), RewardOf(b), RiskOf(b));
    assert RiskReward(a) == RewardOf(a) / RiskOf(a) && RiskReward(b) == RewardOf(b) / RiskOf(b);
  }

  /** The symbols of the tradeable signals, in order of first appearance. */
  function Symbols(signals: seq<Signal>): seq<string> {
    if signals == [] then []
    else
      var before, s := Symbols(Front(signals)), Last(signals);
      if s.grade == C || s.symbol in before then before else before + [s.symbol]
  }

  function SymbolsOf(best: seq<Signal>): seq<string> {
    seq(|best|, i requires 0 <= i < |best| => best[i].symbol)
  }

  /** Signal `j` is the first of the best of its symbol. */
  ghost predicate FirstBest(signals: seq<Signal>, j: nat)
    requires j < |signals|
  {
    && signals[j].grade != C
    && (forall k :: 0 <= k < j && Rivals(signals[k], signals[j]) ==> Beats(signals[j], signals[k]))
    && (forall k :: j < k < |signals| && Rivals(signals[k], signals[j]) ==> !Beats(signals[k], signals[j]))
  }

  predicate Rivals(a: Signal, b: Signal) {
    a.symbol == b.symbol && a.grade != C
  }

  ghost predicate IsFirstBest(signals: seq<Signal>, b: Signal) {
    exists j :: 0 <= j < |signals| && signals[j] == b && FirstBest(signals, j)
  }

  lemma BeatsIsTransitive(a: Signal, b: Signal, c: Signal)
    requires Beats(a, b)
    ensures Beats(b, c) ==> Beats(a, c)
    ensures !Beats(c, b) ==> Beats(a, c)
  {
    OutranksIsBeats(a, b);
    OutranksIsBeats(b, c);
    OutranksIsBeats(c, b);
    OutranksIsBeats(a, c);
  }

  lemma StaysFirstBest(signals: seq<Signal>, s: Signal, j: nat)
    requires j < |signals| && FirstBest(signals, j) && (Rivals(s, signals[j]) ==> !Beats(s, signals[j]))
    ensures FirstBest(signals + [s], j)
  {
    hide Beats;
    var all := signals + [s];
    assert forall k :: 0 <= k < |signals| ==> all[k] == signals[k];
  }

  /** One that beats the first best of its symbol so far beats every rival before it. */
  lemma BecomesFirstBest(signals: seq<Signal>, s: Signal, j: nat)
    requires j < |signals| && FirstBest(signals, j) && s.grade != C && s.symbol == signals[j].symbol
    requires Beats(s, signals[j])
    ensures FirstBest(signals + [s], |signals|)
  {
    hide Beats;
    var all := signals + [s];
    forall k | 0 <= k < |signals| && Rivals(all[k], s) ensures Beats(s, all[k]) {
      assert all[k] == signals[k] && Rivals(signals[k], signals[j]);
      BeatsIsTransitive(s, signals[j], signals[k]);
    }
  }

  lemma {:induction false} SymbolsAreOfSignals(signals: seq<Signal>, symbol: string)
    requires symbol !in Symbols(signals)
    ensures forall k :: 0 <= k < |signals| && signals[k].symbol == symbol ==> signals[k].grade == C
  {
    if signals != [] { SymbolsAreOfSignals(Front(signals), symbol); }
  }

  /**
   * The candidates of a cycle are, in the order in which their symbols first come up among the tradeable signals, the
   * first of the best of each symbol.
   */
  lemma {:induction false} CandidatesAreFirstBest(signals: seq<Signal>)
    ensures SymbolsOf(BestPerSymbol(signals)) == Symbols(signals)
    ensures forall b :: b in BestPerSymbol(signals) ==> IsFirstBest(signals, b)
  {
    hide Beats, FirstBest, Outranks;
    if signals != [] {
      var front, s := Front(signals), Last(signals);
      CandidatesAreFirstBest(front);
      assert signals == front + [s];
      var best := BestPerSymbol(front);
      var i := SymbolIndex(best, s.symbol);
      BestPerSymbolIsBest(front);
      if i < |best| {
        OutranksIsBeats(s, best[i]);
        assert s.symbol == SymbolsOf(best)[i];
      } else {
        NotAmong(best, s.symbol);
      }
      forall b | b in BestPerSymbol(signals) ensures IsFirstBest(signals, b) { CandidateStays(front, s, b); }
    }
  }

  lemma NotAmong(best: seq<Signal>, symbol: string)
    requires SymbolIndex(best, symbol) == |best|
    ensures symbol !in SymbolsOf(best)
  {
  }

  /** One more signal. */
  lemma CandidateStays(front: seq<Signal>, s: Signal, b: Signal)
    requires SymbolsOf(BestPerSymbol(front)) == Symbols(front) && DistinctSymbols(BestPerSymbol(front))
    requires forall x :: x in BestPerSymbol(front) ==> IsFirstBest(front, x)
    requires b in BestPerSymbol(front + [s])
    ensures IsFirstBest(front + [s], b)
  {
    hide Beats, FirstBest, Outranks, Symbols;
    assert Front(front + [s]) == front;
    var best := BestPerSymbol(front);
    var i := SymbolIndex(best, s.symbol);
    if b == s && (i == |best| || Outranks(s, best[i])) && s.grade != C {
      if i == |best| {
        NotAmong(best, s.symbol);
        FirstOfItsSymbol(front, s);
      } else {
        OutranksIsBeats(s, best[i]);
        assert IsFirstBest(front, best[i]);
        var j :| 0 <= j < |front| && front[j] == best[i] && FirstBest(front, j);
        BecomesFirstBest(front, s, j);
      }
      assert (front + [s])[|front|] == b;
    } else {
      assert b in best;
      var j :| 0 <= j < |front| && front[j] == b && FirstBest(front, j);
      if Rivals(s, b) {
        var k :| 0 <= k < |best| && best[k] == b;
        assert k == i;
        OutranksIsBeats(s, best[i]);
      }
      StaysFirstBest(front, s, j);
      assert (front + [s])[j] == b;
    }
  }

  lemma FirstOfItsSymbol(front: seq<Signal>, s: Signal)
    requires s.grade != C && s.symbol !in Symbols(front)
    ensures FirstBest(front + [s], |front|)
  {
    hide Beats;
    SymbolsAreOfSignals(front, s.symbol);
    assert forall k :: 0 <= k < |front| ==> (front + [s])[k] == front[k];
  }
}
