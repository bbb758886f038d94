/** Vocabulary shared by the models of the trading bot. */
module Common {

  datatype Option<+T> = None | Some(value: T)

  datatype Result<+T, +E> = Ok(value: T) | Err(error: E)

  /** Trading intent. */
  datatype Direction = Buy | Sell

  function Opposite(dir: Direction): Direction {
    if dir.Buy? then Sell else Buy
  }

  /** Signed price move from `start` to `end`, positive when it favours a position of this direction. */
  function Gain(dir: Direction, start: real, end: real): real {
    if dir.Buy? then end - start else start - end
  }

  /** The price that lies `amount` further in the favourable direction. */
  function Shift(dir: Direction, price: real, amount: real): real {
    if dir.Buy? then price + amount else price - amount
  }

  function Abs(x: real): real {
    if x < 0.0 then -x else x
  }

  function Max(x: real, y: real): real {
    if x < y then y else x
  }

  function Min(x: real, y: real): real {
    if y < x then y else x
  }

  function MaxInt(x: int, y: int): int {
    if x < y then y else x
  }

  function Last<T>(s: seq<T>): T
    requires s != []
  {
    s[|s| - 1]
  }

  function Front<T>(s: seq<T>): seq<T>
    requires s != []
  {
    s[..|s| - 1]
  }

  /** Left-to-right sum. */
  function Sum(xs: seq<real>): real {
    if xs == [] then 0.0 else Sum(Front(xs)) + Last(xs)
  }

  lemma SumOfAppend(xs: seq<real>, x: real)
    ensures Sum(xs + [x]) == Sum(xs) + x
  {
    assert Front(xs + [x]) == xs;
  }

  lemma {:induction false} SumOfConcat(xs: seq<real>, ys: seq<real>)
    ensures Sum(xs + ys) == Sum(xs) + Sum(ys)
  {
    if ys == [] {
      assert xs + ys == xs;
    } else {
      assert Front(xs + ys) == xs + Front(ys);
      SumOfConcat(xs, Front(ys));
    }
  }
}

/** Price bars, as every strategy of the bot consumes them. */
module Market {
  import opened Common

  /** One bar; `time` is the open time in UTC milliseconds. */
  datatype Bar = Bar(
    symbol: string, time: int,
    open: real, high: real, low: real, close: real,
    volume: int, spread: real)

  predicate WellFormed(b: Bar) {
    b.low <= b.open <= b.high && b.low <= b.close <= b.high
  }

  /** The extreme of the bar that is worst for a position of this direction. */
  function Worst(dir: Direction, b: Bar): real {
    if dir.Buy? then b.low else b.high
  }

  /** The extreme of the bar that is best for a position of this direction. */
  function Best(dir: Direction, b: Bar): real {
    if dir.Buy? then b.high else b.low
  }

  /** Within the bar, price has gone against a position of this direction as far as this. */
  predicate FellTo(dir: Direction, price: real, b: Bar) {
    match dir
    case Buy => b.low <= price
    case Sell => b.high >= price
  }

  /** Within the bar, price has gone in its favour as far as this. */
  predicate RoseTo(dir: Direction, price: real, b: Bar) {
    match dir
    case Buy => b.high >= price
    case Sell => b.low <= price
  }

  /** The stop that is nearer to the market: the higher one for a long, the lower one for a short. */
  function NearerStop(dir: Direction, a: real, b: real): real {
    match dir
    case Buy => if b > a then b else a
    case Sell => if b < a then b else a
  }
}

/** UTC time in milliseconds. */
module Clock {
  const MINUTE_MS := 60_000
  const HOUR_MS := 3_600_000
  const DAY_MS := 86_400_000

  /** The UTC day, counted from the epoch. */
  function DateKey(time: int): int {
    time / DAY_MS
  }

  lemma DateKeyIsMonotone(a: int, b: int)
    requires a <= b
    ensures DateKey(a) <= DateKey(b)
  {
  }
}
