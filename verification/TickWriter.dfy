/** The tick consumer (data/tick_writer.py): groups a buffer by UTC date and writes numbered parts. */
module TickWriter {
  import opened Clock
  import opened Common
  import opened Strings
  import opened TickCollector

  const FIVE_DIGITS := 100_000

  // ------------------------------------------------------------------ file names

  /** `part-%05d.parquet`: five digits or more. */
  function PartName(n: nat): string {
    "part-" + (if n < FIVE_DIGITS then Padded(n, 5) else Decimal(n)) + ".parquet"
  }

  /** The part number in a name; the pattern wants exactly five digits. */
  function ParsePart(name: string): Option<nat> {
    if |name| == 18 && name[..5] == "part-" && name[10..] == ".parquet" && AllDigits(name[5..10])
    then Some(Number(name[5..10]))
    else None
  }

  lemma {:induction false} DecimalIsLong(n: nat)
    requires n >= 10_000
    ensures |Decimal(n)| >= 5 && (n >= FIVE_DIGITS ==> |Decimal(n)| >= 6)
  {
    if n >= FIVE_DIGITS {
      DecimalIsLong(n / 10);
    } else {
      assert |Decimal(n / 1_000)| >= 1 && n / 1_000 == n / 10 / 10 / 10 && n / 10_000 == n / 1_000 / 10;
      assert |Decimal(n / 10)| == |Decimal(n / 100)| + 1 by { assert n / 100 == n / 10 / 10; }
      assert |Decimal(n / 100)| == |Decimal(n / 1_000)| + 1 by { assert n / 1_000 == n / 100 / 10; }
    }
  }

  /** A name is recognised exactly when its number has five digits, and then the number comes back. */
  lemma PartNumberRoundTrip(n: nat)
    ensures ParsePart(PartName(n)) == if n < FIVE_DIGITS then Some(n) else None
  {
    hide Padded;
    if n < FIVE_DIGITS {
      PaddedRoundTrip(n, 5);
      assert PartName(n)[5..10] == Padded(n, 5);
    } else {
      DecimalIsLong(n);
    }
  }

  lemma {:induction false} PaddedInOrder(n: nat, m: nat, width: nat, s: string, t: string)
    requires n < m < Pow10(width)
    ensures Before(Padded(n, width) + s, Padded(m, width) + t)
  {
    var p, q := Padded(n / 10, width - 1), Padded(m / 10, width - 1);
    var a, b := [Digit(n % 10)], [Digit(m % 10)];
    assert Padded(n, width) + s == p + (a + s) && Padded(m, width) + t == q + (b + t);
    if n / 10 < m / 10 {
      PaddedInOrder(n / 10, m / 10, width - 1, a + s, b + t);
    } else {
      assert p == q && a[0] < b[0];
      BeforeByFirstDifference(p + (a + s), q + (b + t), |p|);
    }
  }

  lemma FiveDigitNamesInOrder(n: nat, m: nat)
    requires n < m < FIVE_DIGITS
    ensures Before(PartName(n), PartName(m))
  {
    hide Padded, Before;
    PaddedInOrder(n, m, 5, ".parquet", ".parquet");
    BeforeWithPrefix("part-", Padded(n, 5) + ".parquet", Padded(m, 5) + ".parquet");
    assert PartName(n) == "part-" + (Padded(n, 5) + ".parquet") && PartName(m) == "part-" + (Padded(m, 5) + ".parquet");
  }

  /** Name order is part order exactly as long as there are at most a hundred thousand parts. */
  lemma NamesSortByNumber(count: nat)
    ensures count <= FIVE_DIGITS <==> forall n, m :: 0 <= n < m < count ==> Before(PartName(n), PartName(m))
  {
    forall n, m | 0 <= n < m < count && m < FIVE_DIGITS ensures Before(PartName(n), PartName(m)) {
      FiveDigitNamesInOrder(n, m);
    }
    if count > FIVE_DIGITS {
      var a, b := PartName(FIVE_DIGITS), PartName(99_999);
      assert a[..5] == b[..5] == "part-";
      BeforeByFirstDifference(a, b, 5);
    }
  }

  // ------------------------------------------------------------------ the next part number

  function Listing(count: nat): seq<string> {
    seq(count, i requires 0 <= i => PartName(i))
  }

  /** The highest recognised number among these names, or -1. */
  function Highest(names: seq<string>): (h: int)
    ensures h >= -1
  {
    if names == [] then -1
    else
      var p := ParsePart(Last(names));
      if p.Some? then MaxInt(Highest(Front(names)), p.value) else Highest(Front(names))
  }

  /** It is one, whatever order the directory lists its entries in. */
  lemma {:induction false} HighestIsHighest(names: seq<string>)
    ensures var h := Highest(names);
      && (forall x :: x in names && ParsePart(x).Some? ==> ParsePart(x).value <= h)
      && (h >= 0 ==> exists x :: x in names && ParsePart(x) == Some(h))
  {
    hide ParsePart;
    if names != [] {
      HighestIsHighest(Front(names));
      assert names == Front(names) + [Last(names)];
    }
  }

  /** A directory holding the parts 0 to `count` - 1 continues at `count`, but never past a hundred thousand. */
  lemma NextAfterListing(count: nat)
    ensures Highest(Listing(count)) + 1 == if count <= FIVE_DIGITS then count else FIVE_DIGITS
  {
    hide ParsePart, PartName;
    var names := Listing(count);
    HighestIsHighest(names);
    forall i | 0 <= i < count ensures ParsePart(names[i]) == if i < FIVE_DIGITS then Some(i) else None {
      PartNumberRoundTrip(i);
    }
    if count > 0 {
      var top := if count <= FIVE_DIGITS then count - 1 else FIVE_DIGITS - 1;
      assert names[top] in names;
    }
  }

  // ------------------------------------------------------------------ grouping by date

  function DateOf(t: Tick): int {
    DateKey(t.time)
  }

  datatype Group = Group(date: int, ticks: seq<Tick>)

  function OnDate(ticks: seq<Tick>, date: int): seq<Tick> {
    if ticks == [] then []
    else OnDate(Front(ticks), date) + if DateOf(Last(ticks)) == date then [Last(ticks)] else []
  }

  predicate HasDate(groups: seq<Group>, date: int) {
    exists i :: 0 <= i < |groups| && groups[i].date == date
  }

  /** Append to the group of the tick's date, or open that group at the end. */
  function Grouped(groups: seq<Group>, t: Tick): seq<Group> {
    if groups == [] then [Group(DateOf(t), [t])]
    else if groups[0].date == DateOf(t) then [groups[0].(ticks := groups[0].ticks + [t])] + groups[1..]
    else [groups[0]] + Grouped(groups[1..], t)
  }

  /** The groups of a buffer, by first appearance. */
  function Groups(buffer: seq<Tick>): seq<Group> {
    if buffer == [] then [] else Grouped(Groups(Front(buffer)), Last(buffer))
  }

  /** What the groups hold for one date, in order. */
  function Held(groups: seq<Group>, date: int): seq<Tick> {
    if groups == [] then [] else (if groups[0].date == date then groups[0].ticks else []) + Held(groups[1..], date)
  }

  ghost predicate OnePerDate(groups: seq<Group>) {
    forall i, j :: 0 <= i < j < |groups| ==> groups[i].date != groups[j].date
  }

  lemma {:induction false} GroupedDates(groups: seq<Group>, t: Tick, date: int)
    ensures HasDate(Grouped(groups, t), date) <==> HasDate(groups, date) || date == DateOf(t)
  {
    if groups == [] {
      assert Grouped(groups, t)[0].date == DateOf(t);
    } else {
      HasDateSplits(groups, date);
      HasDateSplits(Grouped(groups, t), date);
      if groups[0].date == DateOf(t) {
        assert Grouped(groups, t)[1..] == groups[1..];
      } else {
        GroupedDates(groups[1..], t, date);
        assert Grouped(groups, t)[1..] == Grouped(groups[1..], t);
      }
    }
  }

  lemma HasDateSplits(groups: seq<Group>, date: int)
    requires groups != []
    ensures HasDate(groups, date) <==> groups[0].date == date || HasDate(groups[1..], date)
  {
    if HasDate(groups, date) {
      var i :| 0 <= i < |groups| && groups[i].date == date;
      if i > 0 { assert groups[1..][i - 1].date == date; }
    }
    if HasDate(groups[1..], date) {
      var i :| 0 <= i < |groups[1..]| && groups[1..][i].date == date;
      assert groups[i + 1].date == date;
    }
  }

  lemma {:induction false} GroupedHolds(groups: seq<Group>, t: Tick, date: int)
    requires OnePerDate(groups)
    ensures OnePerDate(Grouped(groups, t))
    ensures Held(Grouped(groups, t), date) == Held(groups, date) + if DateOf(t) == date then [t] else []
  {
    if groups != [] {
      var g := Grouped(groups, t);
      if groups[0].date == DateOf(t) {
        assert g[1..] == groups[1..];
        if date == DateOf(t) { NothingHeld(groups[1..], date); }
      } else {
        GroupedHolds(groups[1..], t, date);
        assert g[1..] == Grouped(groups[1..], t);
        forall i | 0 < i < |g| ensures g[i].date != g[0].date {
          GroupedDates(groups[1..], t, g[0].date);
          assert g[1..][i - 1] == g[i];
        }
        forall i, j | 0 <= i < j < |g| ensures g[i].date != g[j].date {
          if i > 0 { assert g[1..][i - 1] == g[i] && g[1..][j - 1] == g[j]; }
        }
      }
    }
  }

  lemma {:induction false} NothingHeld(groups: seq<Group>, date: int)
    requires forall i :: 0 <= i < |groups| ==> groups[i].date != date
    ensures Held(groups, date) == []
  {
    if groups != [] { NothingHeld(groups[1..], date); }
  }

  /** Grouping splits the buffer by date and keeps the order within each date. */
  lemma {:induction false} GroupingIsExact(buffer: seq<Tick>, date: int)
    ensures OnePerDate(Groups(buffer)) && Held(Groups(buffer), date) == OnDate(buffer, date)
  {
    if buffer != [] {
      GroupingIsExact(Front(buffer), date);
      GroupedHolds(Groups(Front(buffer)), Last(buffer), date);
    }
  }

  // ------------------------------------------------------------------ the writer

  /** Per UTC date the parts on disk; part `n` of a date is element `n`. */
  type Disk = map<int, seq<seq<Tick>>>

  datatype Writer = Writer(disk: Disk, counters: map<int, nat>, writtenTicks: nat, writtenFiles: nat)

  function Parts(w: Writer, date: int): seq<seq<Tick>> {
    if date in w.disk then w.disk[date] else []
  }

  /** No counter is ahead of its directory. */
  ghost predicate Consistent(w: Writer) {
    forall d :: d in w.counters ==> w.counters[d] <= |Parts(w, d)|
  }

  /** The cached counter of the date, or one past the highest recognised part in its directory. */
  function NextPart(w: Writer, date: int): (n: nat)
    requires Consistent(w)
    ensures n <= |Parts(w, date)|
  {
    NextAfterListing(|Parts(w, date)|);
    if date in w.counters then w.counters[date] else Highest(Listing(|Parts(w, date)|)) + 1
  }

  /** A part number that exists already is overwritten. */
  function Store(parts: seq<seq<Tick>>, n: nat, ticks: seq<Tick>): seq<seq<Tick>>
    requires n <= |parts|
  {
    if n < |parts| then parts[n := ticks] else parts + [ticks]
  }

  /** The part is on disk, the counter not yet advanced. */
  function Stored(w: Writer, g: Group, n: nat): (r: Writer)
    requires n <= |Parts(w, g.date)|
    ensures Parts(r, g.date) == Store(Parts(w, g.date), n, g.ticks)
    ensures forall d :: d != g.date ==> Parts(r, d) == Parts(w, d)
  {
    w.(disk := w.disk[g.date := Store(Parts(w, g.date), n, g.ticks)])
  }

  function Counted(w: Writer, g: Group, n: nat): Writer {
    w.(counters := w.counters[g.date := n + 1],
       writtenTicks := w.writtenTicks + |g.ticks|, writtenFiles := w.writtenFiles + 1)
  }

  /** A write that runs on its own: choose the number, store the part, advance the counter. */
  function Wrote(w: Writer, g: Group): (r: Writer)
    requires Consistent(w)
    ensures Consistent(r)
  {
    var n := NextPart(w, g.date);
    Counted(Stored(w, g, n), g, n)
  }

  function WroteAll(w: Writer, groups: seq<Group>): (r: Writer)
    requires Consistent(w)
    ensures Consistent(r)
  {
    if groups == [] then w else Wrote(WroteAll(w, Front(groups)), Last(groups))
  }

  class TickWriter {
    var disk: Disk
    var counters: map<int, nat>
    var writtenTicks: nat
    var writtenFiles: nat

    function View(): Writer
      reads this
    {
      Writer(disk, counters, writtenTicks, writtenFiles)
    }

    /** A new process finds whatever earlier ones left on disk. */
    constructor (disk: Disk)
      ensures View() == Writer(disk, map[], 0, 0) && Consistent(View())
    {
      this.disk, counters, writtenTicks, writtenFiles := disk, map[], 0, 0;
    }

    method ScanDirectory(names: seq<string>) returns (highest: int)
      ensures highest == Highest(names)
    {
      highest := -1;
      assert names[..0] == [];
      for i := 0 to |names|
        invariant highest == Highest(names[..i])
      {
        assert Front(names[..i + 1]) == names[..i];
        var m := ParsePart(names[i]);
        if m.Some? { highest := MaxInt(highest, m.value); }
      }
      assert names[..|names|] == names;
    }

    method NextPartNumber(date: int) returns (n: nat)
      requires Consistent(View())
      ensures n == NextPart(View(), date)
    {
      if date in counters { return counters[date]; }
      var highest := ScanDirectory(Listing(if date in disk then |disk[date]| else 0));
      n := highest + 1;
    }

    /** A write that no other write of this process overlaps. */
    method WritePartition(date: int, ticks: seq<Tick>)
      requires Consistent(View())
      modifies this
      ensures View() == Wrote(old(View()), Group(date, ticks))
    {
      var parts := if date in disk then disk[date] else [];
      var n := NextPartNumber(date);
      disk := disk[date := if n < |parts| then parts[n := ticks] else parts + [ticks]];
      counters := counters[date := n + 1];
      writtenTicks := writtenTicks + |ticks|;
      writtenFiles := writtenFiles + 1;
    }

    /** A flush that nothing interrupts. */
    method Flush(buffer: seq<Tick>)
      requires Consistent(View())
      modifies this
      ensures View() == WroteAll(old(View()), Groups(buffer))
    {
      var groups: seq<Group> := [];
      assert buffer[..0] == [];
      for i := 0 to |buffer|
        invariant View() == old(View()) && groups == Groups(buffer[..i])
      {
        assert Front(buffer[..i + 1]) == buffer[..i];
        groups := Grouped(groups, buffer[i]);
      }
      assert buffer[..|buffer|] == buffer;
      assert groups[..0] == [];
      for i := 0 to |groups|
        invariant Consistent(View()) && View() == WroteAll(old(View()), groups[..i])
      {
        assert Front(groups[..i + 1]) == groups[..i];
        WritePartition(groups[i].date, groups[i].ticks);
      }
      assert groups[..|groups|] == groups;
    }
  }

  // ------------------------------------------------------------------ part numbers over restarts

  /**
   * The first write of a process to a date replaces an existing part, instead of adding one, exactly when the
   * directory already holds more than a hundred thousand parts.
   */
  lemma OverwritesExactlyBeyondFiveDigits(w: Writer, g: Group)
    requires Consistent(w) && g.date !in w.counters
    ensures NextPart(w, g.date) < |Parts(w, g.date)| <==> |Parts(w, g.date)| > FIVE_DIGITS
    ensures Parts(Wrote(w, g), g.date) == Parts(w, g.date) + [g.ticks] <==> |Parts(w, g.date)| <= FIVE_DIGITS
  {
    NextAfterListing(|Parts(w, g.date)|);
  }

  /** The counter is level with its directory, or there is none yet and the directory can be scanned. */
  predicate LevelAt(w: Writer, d: int) {
    if d in w.counters then w.counters[d] == |Parts(w, d)| else |Parts(w, d)| <= FIVE_DIGITS
  }

  /** A write that nothing overlaps then adds a part and leaves the counter level, however many parts there are. */
  lemma LevelWriteAppends(w: Writer, g: Group)
    requires Consistent(w) && LevelAt(w, g.date)
    ensures NextPart(w, g.date) == |Parts(w, g.date)|
    ensures LevelAt(Wrote(w, g), g.date) && Parts(Wrote(w, g), g.date) == Parts(w, g.date) + [g.ticks]
  {
    NextAfterListing(|Parts(w, g.date)|);
  }

  lemma {:induction false} GroupsAreFull(buffer: seq<Tick>)
    ensures forall g :: g in Groups(buffer) ==> g.ticks != []
  {
    if buffer != [] {
      GroupsAreFull(Front(buffer));
      GroupedAreFull(Groups(Front(buffer)), Last(buffer));
    }
  }

  lemma {:induction false} GroupedAreFull(groups: seq<Group>, t: Tick)
    requires forall g :: g in groups ==> g.ticks != []
    ensures forall g :: g in Grouped(groups, t) ==> g.ticks != []
  {
    if groups != [] && groups[0].date != DateOf(t) { GroupedAreFull(groups[1..], t); }
  }

  /** The groups of a flush are written one after the other, each to its date. */
  lemma {:induction false} WritingAllAppends(w: Writer, groups: seq<Group>, d: int)
    requires Consistent(w) && LevelAt(w, d) && OnePerDate(groups) && forall g :: g in groups ==> g.ticks != []
    ensures var r, held := WroteAll(w, groups), Held(groups, d);
      LevelAt(r, d) && Parts(r, d) == Parts(w, d) + if held == [] then [] else [held]
  {
    hide Wrote, LevelAt;
    if groups != [] {
      var front, g := Front(groups), Last(groups);
      var before := WroteAll(w, front);
      WritingAllAppends(w, front, d);
      assert groups == front + [g];
      HeldOfAppend(front, g, d);
      if g.date == d {
        NothingHeld(front, d);
        LevelWriteAppends(before, g);
        assert Held(groups, d) == [] + g.ticks == g.ticks;
        assert Parts(before, d) == Parts(w, d) + [] == Parts(w, d);
      } else {
        OtherDateStays(before, g, d);
        assert Held(groups, d) == Held(front, d);
      }
    }
  }

  lemma {:induction false} HeldOfAppend(groups: seq<Group>, g: Group, d: int)
    ensures Held(groups + [g], d) == Held(groups, d) + if g.date == d then g.ticks else []
  {
    if groups != [] {
      assert (groups + [g])[1..] == groups[1..] + [g];
      HeldOfAppend(groups[1..], g, d);
    } else {
      assert ([] + [g])[1..] == [];
    }
  }

  lemma OtherDateStays(w: Writer, g: Group, d: int)
    requires Consistent(w) && g.date != d
    ensures Parts(Wrote(w, g), d) == Parts(w, d) && LevelAt(Wrote(w, g), d) == LevelAt(w, d)
  {
  }

  /**
   * A flush that nothing interrupts adds one part to every date its buffer has ticks of, with those ticks in order, and
   * nothing to any other.
   */
  lemma FlushAddsOnePartPerDate(w: Writer, buffer: seq<Tick>, d: int)
    requires Consistent(w) && LevelAt(w, d)
    ensures var r, ticks := WroteAll(w, Groups(buffer)), OnDate(buffer, d);
      LevelAt(r, d) && Parts(r, d) == Parts(w, d) + if ticks == [] then [] else [ticks]
  {
    hide WroteAll, LevelAt;
    GroupingIsExact(buffer, d);
    GroupsAreFull(buffer);
    WritingAllAppends(w, Groups(buffer), d);
  }

  // ------------------------------------------------------------------ a write in progress

  /** A write whose number is chosen; its part may be on disk already, its counter is not advanced yet. */
  datatype Write = Write(group: Group, n: nat, stored: bool)

  /** Its number was the next one, and no other write has touched the date since. */
  predicate Undisturbed(w: Writer, x: Write) {
    var parts, d := Parts(w, x.group.date), x.group.date;
    && (if x.stored then |parts| == x.n + 1 && parts[x.n] == x.group.ticks else |parts| == x.n)
    && (if d in w.counters then w.counters[d] == x.n else x.n <= FIVE_DIGITS)
  }

  /** The next write of its date gets the same number, unless its part is there and a directory scan sees it. */
  predicate SharesNumber(w: Writer, x: Write) {
    x.stored ==> x.group.date in w.counters || x.n == FIVE_DIGITS
  }

  lemma NextBesideWrite(w: Writer, x: Write)
    requires Consistent(w) && Undisturbed(w, x)
    ensures NextPart(w, x.group.date) == if SharesNumber(w, x) then x.n else x.n + 1
  {
    NextAfterListing(|Parts(w, x.group.date)|);
  }
}
