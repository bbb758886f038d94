/**
 * Producer, queue and writer as interleaved steps, and the replay of what they leave on disk. Nothing in a poll
 * suspends once the batch is fetched, so a poll is one step. A part is written in a thread while the writer waits: the
 * number is chosen, the part stored, the counter advanced, with polls in between. A cancellation abandons the write in
 * progress, wherever its thread is: a write that has not chosen its number yet chooses it at some later moment, and
 * stores and counts its part after that, beside the writes of the final flush.
 */
module TickPipeline {
  import opened Common
  import opened Replay
  import opened TickCollector
  import opened TickWriter

  /** Where the writer stands; `again` are the groups that will be on disk twice. */
  datatype Phase =
    | Collecting
    | Flushing(pending: seq<Group>)
    | Draining(pending: seq<Group>, again: seq<Group>)
    | Stopped(again: seq<Group>)

  /**
   * `fetched` counts the new ticks polls have seen; `sent` and `taken` log what entered and left the queue. `job` is
   * the write the writer waits for, `orphan` one that a cancellation abandoned, `late` an abandoned one whose thread
   * has not chosen its number yet; `numbers` logs every number chosen.
   */
  datatype State = State(
    p: Producer, fetched: nat, sent: seq<Tick>, taken: seq<Tick>, buffer: seq<Tick>, phase: Phase,
    job: Option<Write>, orphan: Option<Write>, late: Option<Group>, numbers: seq<(int, nat)>, w: Writer)

  /** At a cancellation the thread of the next write may be running already. */
  datatype Event =
    | Poll(ticks: seq<Tick>) | Get | Timeout | BeginWrite | StoreWrite | CountWrite | EndFlush | Cancel(running: bool)
    | OrphanChooses | OrphanStores | OrphanCounts

  datatype Config = Config(maxSize: nat, flushSize: nat)

  function AfterPoll(cfg: Config, st: State, ticks: seq<Tick>): State {
    var q := Polled(st.p, ticks, cfg.maxSize);
    var n := |Newer(ticks, st.p.cursor)|;
    st.(p := q, fetched := st.fetched + n,
        sent := st.sent + Newer(ticks, st.p.cursor)[..Room(st.p.queue, cfg.maxSize, n)])
  }

  /** The writer takes the oldest tick; a full buffer is flushed at once. */
  function AfterGet(cfg: Config, st: State): State {
    if !st.phase.Collecting? || st.p.queue == [] then st
    else
      var t := st.p.queue[0];
      var buffer := st.buffer + [t];
      st.(p := st.p.(queue := st.p.queue[1..]), taken := st.taken + [t], buffer := buffer,
          phase := if |buffer| >= cfg.flushSize then Flushing(Groups(buffer)) else Collecting)
  }

  function AfterTimeout(st: State): State {
    if st.phase.Collecting? && st.buffer != [] then st.(phase := Flushing(Groups(st.buffer))) else st
  }

  /** The groups no write of this round was begun for. */
  function Pending(st: State): seq<Group> {
    match st.phase
    case Collecting => Groups(st.buffer)
    case Flushing(pending) => pending
    case Draining(pending, _) => pending
    case Stopped(_) => []
  }

  function Again(st: State): seq<Group> {
    match st.phase
    case Draining(_, again) => again
    case Stopped(again) => again
    case _ => []
  }

  /** The writer is about to begin a part. */
  predicate Ready(st: State) {
    st.job.None? && (st.phase.Flushing? || st.phase.Draining?) && Pending(st) != []
  }

  /**
   * A write that chooses a number for this date now gets that of the other: the other has chosen and not stored, or has
   * stored and not counted where no directory scan shows its part.
   */
  predicate Meets(w: Writer, date: int, other: Option<Write>) {
    other.Some? && other.value.group.date == date && SharesNumber(w, other.value)
  }

  /** The part the writer is about to begin takes the number of the abandoned write. */
  predicate Reuses(st: State) {
    Ready(st) && Meets(st.w, Pending(st)[0].date, st.orphan)
  }

  /** The abandoned write is about to take the number of the part the final flush is writing. */
  predicate OrphanReuses(st: State) {
    st.late.Some? && Meets(st.w, st.late.value.date, st.job)
  }

  function AfterBegin(st: State): State
    requires Consistent(st.w)
  {
    if !Ready(st) then st
    else
      var g, rest := Pending(st)[0], Pending(st)[1..];
      var n := NextPart(st.w, g.date);
      st.(job := Some(Write(g, n, false)), numbers := st.numbers + [(g.date, n)],
          phase := if st.phase.Flushing? then Flushing(rest)
                   else Draining(rest, if Reuses(st) && Again(st) != [] then Front(Again(st)) else Again(st)))
  }

  function AfterStore(st: State): State
    requires Sane(st)
  {
    if st.job.None? then st
    else
      var x := st.job.value;
      st.(w := Stored(st.w, x.group, x.n), job := Some(x.(stored := true)))
  }

  function AfterCount(st: State): State {
    if st.job.None? || !st.job.value.stored then st
    else st.(w := Counted(st.w, st.job.value.group, st.job.value.n), job := None)
  }

  function WithAgain(phase: Phase, again: seq<Group>): Phase {
    match phase
    case Draining(pending, _) => Draining(pending, again)
    case Stopped(_) => Stopped(again)
    case _ => phase
  }

  /** The group will be on disk twice, unless both writes put it in the same part. */
  function AfterOrphanChooses(st: State): State
    requires Consistent(st.w)
  {
    if st.late.None? then st
    else
      var g := st.late.value;
      var n := NextPart(st.w, g.date);
      st.(late := None, orphan := Some(Write(g, n, false)), numbers := st.numbers + [(g.date, n)],
          phase := if OrphanReuses(st) then st.phase else WithAgain(st.phase, Again(st) + [g]))
  }

  function AfterOrphanStores(st: State): State
    requires Sane(st)
  {
    if st.orphan.None? then st
    else
      var x := st.orphan.value;
      st.(w := Stored(st.w, x.group, x.n), orphan := Some(x.(stored := true)))
  }

  function AfterOrphanCounts(st: State): State {
    if st.orphan.None? || !st.orphan.value.stored then st
    else st.(w := Counted(st.w, st.orphan.value.group, st.orphan.value.n), orphan := None)
  }

  function AfterEndFlush(st: State): State {
    if st.job.Some? || Pending(st) != [] then st
    else
      match st.phase
      case Flushing(_) => st.(phase := Collecting, buffer := [])
      case Draining(_, again) => st.(phase := Stopped(again))
      case _ => st
  }

  /**
   * Cancelled in the middle of a flush, the writer abandons the write it waits for and starts over with the whole
   * buffer. A write whose thread is not running is called off with it.
   */
  function AfterCancel(st: State, running: bool): State {
    match st.phase
    case Collecting => st.(phase := if st.buffer == [] then Stopped([]) else Draining(Groups(st.buffer), []))
    case Flushing(pending) =>
      var all := Groups(st.buffer);
      st.(phase := Draining(all, all[..if |pending| <= |all| then |all| - |pending| else 0]),
          job := None, orphan := st.job, late := if Ready(st) && running then Some(pending[0]) else None)
    case _ => st
  }

  /** The directories reach up to the number of every write in progress. */
  ghost predicate Sane(st: State) {
    && Consistent(st.w)
    && (st.job.Some? ==> Reaches(st.w, st.job.value)) && (st.orphan.Some? ==> Reaches(st.w, st.orphan.value))
  }

  predicate Reaches(w: Writer, x: Write) {
    var parts := Parts(w, x.group.date);
    x.n <= |parts| && (x.stored ==> x.n < |parts|)
  }

  function Step(cfg: Config, st: State, e: Event): (r: State)
    requires Sane(st)
    ensures Sane(r)
  {
    match e
    case Poll(ticks) => AfterPoll(cfg, st, ticks)
    case Get => AfterGet(cfg, st)
    case Timeout => AfterTimeout(st)
    case BeginWrite => AfterBegin(st)
    case StoreWrite => AfterStore(st)
    case CountWrite => AfterCount(st)
    case EndFlush => AfterEndFlush(st)
    case Cancel(running) => AfterCancel(st, running)
    case OrphanChooses => AfterOrphanChooses(st)
    case OrphanStores => AfterOrphanStores(st)
    case OrphanCounts => AfterOrphanCounts(st)
  }

  /** A new process: nothing cached, the disk as earlier processes left it. */
  function Start(disk: Disk, cursor: int): (st: State)
    ensures Sane(st)
  {
    State(Producer([], cursor, 0, 0), 0, [], [], [], Collecting, None, None, None, [], Writer(disk, map[], 0, 0))
  }

  function After(cfg: Config, disk: Disk, cursor: int, events: seq<Event>): (st: State)
    ensures Sane(st)
  {
    if events == [] then Start(disk, cursor) else Step(cfg, After(cfg, disk, cursor, Front(events)), Last(events))
  }

  // ------------------------------------------------------------------ the invariant

  /** The parts of a date that were on disk when the process started. */
  function Before(disk: Disk, d: int): seq<seq<Tick>> {
    if d in disk then disk[d] else []
  }

  /** The parts of a date once a write has stored its own. */
  function With(parts: seq<seq<Tick>>, x: Option<Write>, d: int): seq<seq<Tick>>
    requires x.Some? && x.value.group.date == d ==> x.value.n <= |parts|
  {
    if x.Some? && x.value.group.date == d then Store(parts, x.value.n, x.value.group.ticks) else parts
  }

  /** The parts of a date once every write in progress has stored its own. */
  function Settled(st: State, d: int): seq<seq<Tick>>
    requires Sane(st)
  {
    With(With(Parts(st.w, d), st.orphan, d), st.job, d)
  }

  /** The queue is FIFO, and what it was offered is counted. */
  ghost predicate Flows(st: State) {
    && st.sent == st.taken + st.p.queue
    && st.p.collected + st.p.dropped == st.fetched && |st.sent| == st.p.collected
    && (forall t :: t in st.buffer ==> t in st.taken)
  }

  ghost predicate EndsWith<T(!new)>(all: seq<T>, tail: seq<T>) {
    |tail| <= |all| && all[|all| - |tail|..] == tail
  }

  /** The groups not yet on disk in this round. */
  function Unwritten(st: State): seq<Group> {
    (if st.job.Some? then [st.job.value.group] else []) + Pending(st)
  }

  /** How far the round has come. */
  ghost predicate Proceeds(st: State) {
    var all := Groups(st.buffer);
    && EndsWith(all, Unwritten(st))
    && (st.job.Some? ==> st.phase.Flushing? || st.phase.Draining?)
    && (st.orphan.Some? ==> st.phase.Draining? || st.phase.Stopped?)
    && (st.orphan.Some? ==> st.orphan.value.group in all)
    && (st.late.Some? ==> st.orphan.None? && (st.phase.Draining? || st.phase.Stopped?) && st.late.value in all)
    && (forall g :: g in Again(st) ==> g in all)
  }

  /** No write of a chosen number is in progress on this date, and a number may still be chosen for it. */
  predicate Open(st: State, d: int) {
    && (st.job.Some? ==> st.job.value.group.date != d)
    && (st.orphan.Some? ==> st.orphan.value.group.date != d)
    && (st.phase.Collecting? || st.phase.Flushing? || HasDate(Pending(st), d) || IsLate(st, d))
  }

  predicate IsLate(st: State, d: int) {
    st.late.Some? && st.late.value.date == d
  }

  /** A write in progress leaves the parts of earlier processes alone, and what it stored is still there. */
  predicate Sound(w: Writer, disk: Disk, x: Write) {
    && |Before(disk, x.group.date)| <= x.n && Reaches(w, x)
    && (x.stored ==> Parts(w, x.group.date)[x.n] == x.group.ticks)
  }

  ghost predicate Numbered(st: State, disk: Disk) {
    && (forall d :: Open(st, d) ==> LevelAt(st.w, d))
    && (st.job.Some? ==> Sound(st.w, disk, st.job.value))
    && (st.job.Some? && (st.phase.Flushing? || st.late.Some?) ==> Undisturbed(st.w, st.job.value))
    && (st.orphan.Some? ==> Sound(st.w, disk, st.orphan.value))
    && (st.orphan.Some? && HasDate(Pending(st), st.orphan.value.group.date) ==> Beside(st))
    && (st.orphan.Some? && st.job.Some? && st.orphan.value.group.date == st.job.value.group.date ==> Paired(st))
  }

  /** The final flush has still to come to the date of the abandoned write. */
  predicate Beside(st: State)
    requires st.orphan.Some?
  {
    Undisturbed(st.w, st.orphan.value) && Again(st) != [] && Last(Again(st)) == st.orphan.value.group
  }

  /** Both write the same group, to one part or to two in a row. */
  predicate Paired(st: State)
    requires st.orphan.Some? && st.job.Some?
  {
    var x, y := st.orphan.value, st.job.value;
    x.group == y.group && (y.n == x.n || (x.stored && y.n == x.n + 1) || (y.stored && x.n == y.n + 1))
  }

  /**
   * Per date, the parts on disk or being stored, and the groups still to come, are what was there before, what was
   * taken, and the repeats. The parts of earlier processes are untouched.
   */
  ghost predicate Balanced(st: State, disk: Disk, d: int)
    requires Sane(st)
  {
    && Flat(Settled(st, d)) + Held(Pending(st), d) == Flat(Before(disk, d)) + OnDate(st.taken, d) + Held(Again(st), d)
    && Before(disk, d) <= Parts(st.w, d)
  }

  ghost predicate Accounted(st: State, disk: Disk) {
    Sane(st) && Flows(st) && Proceeds(st) && Numbered(st, disk) && forall d :: Balanced(st, disk, d)
  }

  /** Every directory can be scanned when the process starts. */
  ghost predicate Scannable(disk: Disk) {
    forall d :: d in disk ==> |disk[d]| <= FIVE_DIGITS
  }

  // ------------------------------------------------------------------ groups of one buffer

  lemma {:induction false} HeldOfConcat(a: seq<Group>, b: seq<Group>, d: int)
    ensures Held(a + b, d) == Held(a, d) + Held(b, d)
  {
    if a == [] {
      assert a + b == b;
    } else {
      assert (a + b)[1..] == a[1..] + b;
      HeldOfConcat(a[1..], b, d);
      var g := if a[0].date == d then a[0].ticks else [];
      assert g + (Held(a[1..], d) + Held(b, d)) == (g + Held(a[1..], d)) + Held(b, d);
    }
  }

  /** A date is in one part of a split only. */
  lemma HeldOnOneSide(a: seq<Group>, b: seq<Group>, d: int)
    requires OnePerDate(a + b)
    ensures Held(a, d) == [] || Held(b, d) == []
  {
    if forall i :: 0 <= i < |a| ==> a[i].date != d {
      NothingHeld(a, d);
    } else {
      var k :| 0 <= k < |a| && a[k].date == d;
      forall i | 0 <= i < |b| ensures b[i].date != d {
        assert (a + b)[k] == a[k] && (a + b)[|a| + i] == b[i];
      }
      NothingHeld(b, d);
    }
  }

  lemma FlatOfAppend(parts: seq<seq<Tick>>, ticks: seq<Tick>)
    ensures Flat(parts + [ticks]) == Flat(parts) + ticks
  {
    assert Front(parts + [ticks]) == parts;
  }

  /** A buffer has one group per date, so those still to come are of other dates than those before them. */
  lemma DatesAreSplit(st: State, g: Group)
    requires Proceeds(st) && Unwritten(st) != [] && Unwritten(st)[0] == g
    ensures !HasDate(Unwritten(st)[1..], g.date) && Held(Unwritten(st)[1..], g.date) == [] && g in Groups(st.buffer)
    ensures forall h :: h in Groups(st.buffer) && h.date == g.date ==> h == g
  {
    hide Groups;
    var all, left := Groups(st.buffer), Unwritten(st);
    GroupingIsExact(st.buffer, g.date);
    var k := |all| - |left|;
    assert all[k] == all[k..][0] == g;
    forall i | 0 <= i < |left[1..]| ensures left[1..][i].date != g.date {
      assert left[1..][i] == all[k..][i + 1] == all[k + i + 1];
    }
    NothingHeld(left[1..], g.date);
  }

  // ------------------------------------------------------------------ steps of the producer and of the round

  lemma PollKeeps(cfg: Config, st: State, disk: Disk, ticks: seq<Tick>)
    requires Accounted(st, disk)
    ensures Accounted(AfterPoll(cfg, st, ticks), disk)
  {
    hide LevelAt, Undisturbed, Sound, Newer, OfferAll, Held, OnDate, Flat, Groups, Store;
    var recent := Newer(ticks, st.p.cursor);
    var r := AfterPoll(cfg, st, ticks);
    OfferingTakesPrefix(st.p, recent, cfg.maxSize);
    forall d ensures Balanced(r, disk, d) { assert Balanced(st, disk, d); }
    assert forall d :: Open(r, d) ==> Open(st, d);
  }

  lemma {:induction false} OnDateOfAppend(ticks: seq<Tick>, t: Tick, d: int)
    ensures OnDate(ticks + [t], d) == OnDate(ticks, d) + if DateOf(t) == d then [t] else []
    ensures Groups(ticks + [t]) == Grouped(Groups(ticks), t)
  {
    assert Front(ticks + [t]) == ticks;
  }

  lemma TakingKeepsBalance(st: State, r: State, t: Tick, disk: Disk, d: int)
    requires Sane(st) && Sane(r) && st.phase.Collecting? && Balanced(st, disk, d)
    requires r.w == st.w && r.job == st.job && r.orphan == st.orphan && r.taken == st.taken + [t]
    requires Pending(r) == Groups(st.buffer + [t]) && Again(r) == []
    ensures Balanced(r, disk, d)
  {
    hide Groups, Grouped, Flat, DateOf, OnDate, Held, Store;
    OnDateOfAppend(st.taken, t, d);
    OnDateOfAppend(st.buffer, t, d);
    GroupingIsExact(st.buffer, d);
    GroupingIsExact(st.buffer + [t], d);
    assert Held([], d) == [] by { NothingHeld([], d); }
    var one := if DateOf(t) == d then [t] else [];
    var c := Flat(Settled(st, d));
    assert c + (OnDate(st.buffer, d) + one) == (c + OnDate(st.buffer, d)) + one;
  }

  lemma GetKeeps(cfg: Config, st: State, disk: Disk)
    requires Accounted(st, disk)
    ensures Accounted(AfterGet(cfg, st), disk)
  {
    hide LevelAt, Groups, Balanced, Undisturbed, Sound;
    var r := AfterGet(cfg, st);
    if st.phase.Collecting? && st.p.queue != [] {
      var t := st.p.queue[0];
      assert st.p.queue == [t] + r.p.queue;
      assert forall d :: Open(r, d) ==> Open(st, d);
      forall d ensures Balanced(r, disk, d) {
        assert Balanced(st, disk, d);
        TakingKeepsBalance(st, r, t, disk, d);
      }
    }
  }

  lemma TimeoutKeeps(st: State, disk: Disk)
    requires Accounted(st, disk)
    ensures Accounted(AfterTimeout(st), disk)
  {
    hide LevelAt, Flat, OnDate, Held, Groups, Undisturbed, Sound, Store;
    var r := AfterTimeout(st);
    assert forall d :: Open(r, d) ==> Open(st, d);
    forall d ensures Balanced(r, disk, d) { assert Balanced(st, disk, d); }
  }

  lemma EndFlushKeeps(st: State, disk: Disk)
    requires Accounted(st, disk)
    ensures Accounted(AfterEndFlush(st), disk)
  {
    hide LevelAt, Flat, OnDate, Held, Undisturbed, Sound, Store;
    var r := AfterEndFlush(st);
    assert Groups([]) == [];
    assert forall d :: Open(r, d) ==> Open(st, d);
    forall d ensures Balanced(r, disk, d) { assert Balanced(st, disk, d); }
  }

  // ------------------------------------------------------------------ cancellation

  /** Starting the flush over repeats exactly the groups that were begun before. */
  lemma StartedOver(all: seq<Group>, pending: seq<Group>, parts: seq<Tick>, base: seq<Tick>, d: int)
    requires OnePerDate(all) && EndsWith(all, pending) && parts + Held(pending, d) == base
    ensures parts + Held(all, d) == base + Held(all[..|all| - |pending|], d)
  {
    hide Held;
    var done := all[..|all| - |pending|];
    assert all == done + pending;
    HeldOfConcat(done, pending, d);
    HeldOnOneSide(done, pending, d);
    if Held(pending, d) == [] {
      assert parts + [] == parts && Held(done, d) + [] == Held(done, d);
    } else {
      assert [] + Held(pending, d) == Held(pending, d) && base + [] == base;
    }
  }

  lemma CancelKeepsBalance(st: State, running: bool, disk: Disk, d: int)
    requires Sane(st) && st.phase.Flushing? && st.orphan.None? && Balanced(st, disk, d)
    requires EndsWith(Groups(st.buffer), st.phase.pending)
    ensures Balanced(AfterCancel(st, running), disk, d)
  {
    hide Groups, Flat, OnDate, Store, Held;
    var all, pending, r := Groups(st.buffer), st.phase.pending, AfterCancel(st, running);
    var base := Flat(Before(disk, d)) + OnDate(st.taken, d);
    GroupingIsExact(st.buffer, d);
    assert Held([], d) == [] by { NothingHeld([], d); }
    assert base + [] == base;
    assert Settled(r, d) == Settled(st, d);
    StartedOver(all, pending, Flat(Settled(st, d)), base, d);
  }

  lemma CancelIdleKeepsBalance(st: State, running: bool, disk: Disk, d: int)
    requires Sane(st) && st.phase.Collecting? && Balanced(st, disk, d)
    ensures Balanced(AfterCancel(st, running), disk, d)
  {
    hide Flat, OnDate, Store;
    assert Groups([]) == [];
  }

  lemma FirstOfTail(all: seq<Group>, tail: seq<Group>)
    requires EndsWith(all, tail) && tail != []
    ensures tail[0] in all && all[|all| - |tail|] == tail[0]
  {
    assert all[|all| - |tail|..][0] == all[|all| - |tail|];
  }

  lemma CancelProceeds(st: State, running: bool)
    requires Sane(st) && Proceeds(st) && st.phase.Flushing?
    ensures Proceeds(AfterCancel(st, running))
  {
    hide Groups;
    var r := AfterCancel(st, running);
    if Unwritten(st) != [] { FirstOfTail(Groups(st.buffer), Unwritten(st)); }
    assert Unwritten(r) == Groups(st.buffer) && EndsWith(Groups(st.buffer), Groups(st.buffer));
  }

  /** The abandoned write is the last of the groups that will be there twice. */
  lemma CancelAbandons(st: State, running: bool)
    requires Proceeds(st) && st.phase.Flushing? && st.job.Some?
    ensures var again := Again(AfterCancel(st, running)); again != [] && Last(again) == st.job.value.group
  {
    hide Groups;
    FirstOfTail(Groups(st.buffer), Unwritten(st));
  }

  lemma CancelNumbers(st: State, running: bool, disk: Disk)
    requires Sane(st) && Proceeds(st) && Numbered(st, disk) && st.phase.Flushing?
    ensures Numbered(AfterCancel(st, running), disk)
  {
    hide LevelAt, Undisturbed, Sound, Groups, HasDate;
    if st.job.Some? { CancelAbandons(st, running); }
    var r := AfterCancel(st, running);
    forall d | Open(r, d) ensures Open(st, d) {}
  }

  lemma CancelKeeps(st: State, running: bool, disk: Disk)
    requires Accounted(st, disk)
    ensures Accounted(AfterCancel(st, running), disk)
  {
    hide LevelAt, Undisturbed, Sound, Balanced, Groups, HasDate;
    var r := AfterCancel(st, running);
    if st.phase.Flushing? {
      CancelProceeds(st, running);
      CancelNumbers(st, running, disk);
      assert EndsWith(Groups(st.buffer), st.phase.pending) by { AfterJob(st); }
      forall d ensures Balanced(r, disk, d) {
        assert Balanced(st, disk, d);
        CancelKeepsBalance(st, running, disk, d);
      }
    } else if st.phase.Collecting? {
      assert forall d :: Open(r, d) ==> Open(st, d);
      assert Groups([]) == [] by { NothingGrouped(); }
      forall d ensures Balanced(r, disk, d) {
        assert Balanced(st, disk, d);
        CancelIdleKeepsBalance(st, running, disk, d);
      }
    }
  }

  lemma NothingGrouped()
    ensures Groups([]) == []
  {
  }

  lemma AfterJob(st: State)
    requires Proceeds(st)
    ensures EndsWith(Groups(st.buffer), Pending(st))
  {
    hide Groups;
    var all := Groups(st.buffer);
    if st.job.Some? {
      var k := |all| - |Unwritten(st)|;
      assert Unwritten(st)[1..] == Pending(st) && all[k..][1..] == all[k + 1..];
    }
  }

  // ------------------------------------------------------------------ steps of a write

  lemma BeginNumber(st: State, disk: Disk)
    requires Accounted(st, disk) && Ready(st)
    ensures var g, n := Pending(st)[0], NextPart(st.w, Pending(st)[0].date);
      && n == (if Reuses(st) then st.orphan.value.n else |Settled(st, g.date)|)
      && |Before(disk, g.date)| <= n <= |Parts(st.w, g.date)|
      && (Reuses(st) ==>
            && st.orphan.value.group == g && Again(st) != [] && Last(Again(st)) == g
            && n < |Settled(st, g.date)| && Settled(st, g.date)[n] == g.ticks)
  {
    hide Groups, Flat, Held, OnDate, NextPart;
    var g := Pending(st)[0];
    DatesAreSplit(st, g);
    assert HasDate(Pending(st), g.date);
    assert Balanced(st, disk, g.date);
    if st.orphan.Some? && st.orphan.value.group.date == g.date {
      NextBesideWrite(st.w, st.orphan.value);
    } else {
      assert Open(st, g.date);
      LevelWriteAppends(st.w, g);
    }
  }

  /** Another date sees nothing of it. */
  lemma BeginKeepsOtherDates(st: State, disk: Disk, d: int)
    requires Accounted(st, disk) && Ready(st) && d != Pending(st)[0].date
    ensures Balanced(AfterBegin(st), disk, d)
  {
    hide Groups, Flat, OnDate, NextPart, Proceeds, Numbered, Flows, SharesNumber;
    hide Sound, DateOf, Store, Settled, Held, Reuses;
    BeginNumber(st, disk);
    assert Balanced(st, disk, d);
    BeginSettlesOtherDates(st, d);
    FirstOfOtherDate(Pending(st), d);
    if Reuses(st) { LastOfOtherDate(Again(st), d); }
  }

  lemma FirstOfOtherDate(groups: seq<Group>, d: int)
    requires groups != [] && groups[0].date != d
    ensures Held(groups, d) == Held(groups[1..], d)
  {
    assert [] + Held(groups[1..], d) == Held(groups[1..], d);
  }

  lemma BeginSettlesOtherDates(st: State, d: int)
    requires Sane(st) && Ready(st) && d != Pending(st)[0].date
    ensures Settled(AfterBegin(st), d) == Settled(st, d)
  {
    hide Groups, NextPart, SharesNumber, Store;
  }

  lemma LastOfOtherDate(groups: seq<Group>, d: int)
    requires groups != [] && Last(groups).date != d
    ensures Held(groups, d) == Held(Front(groups), d)
  {
    HeldOfConcat(Front(groups), [Last(groups)], d);
    assert groups == Front(groups) + [Last(groups)];
    assert Held(Front(groups), d) + [] == Held(Front(groups), d);
  }

  lemma SameBefore(a: seq<Tick>, b: seq<Tick>, tail: seq<Tick>)
    requires a + tail == b + tail
    ensures a == b
  {
    assert a == (a + tail)[..|a|] && b == (b + tail)[..|b|];
  }

  /** Taking the number of the abandoned write puts one part where there would have been two. */
  lemma ReusedDateBalances(before: seq<Tick>, parts: seq<Tick>, again: seq<Group>, pending: seq<Group>, g: Group)
    requires again != [] && Last(again) == g && pending != [] && pending[0] == g && Held(pending[1..], g.date) == []
    requires parts + Held(pending, g.date) == before + Held(again, g.date)
    ensures parts + Held(pending[1..], g.date) == before + Held(Front(again), g.date)
  {
    HeldOfConcat(Front(again), [g], g.date);
    assert again == Front(again) + [g] && g.ticks + [] == g.ticks;
    var rest := before + Held(Front(again), g.date);
    assert before + (Held(Front(again), g.date) + g.ticks) == rest + g.ticks;
    SameBefore(parts, rest, g.ticks);
    assert parts + [] == parts;
  }

  lemma BeginKeepsReusedDate(st: State, disk: Disk)
    requires Accounted(st, disk) && Reuses(st)
    ensures Balanced(AfterBegin(st), disk, Pending(st)[0].date)
  {
    hide Groups, Flat, OnDate, NextPart, Numbered, Flows, SharesNumber, Sound, DateOf, Undisturbed, Held, Proceeds;
    var g := Pending(st)[0];
    BeginNumber(st, disk);
    DatesAreSplit(st, g);
    assert Unwritten(st) == Pending(st);
    assert Balanced(st, disk, g.date);
    assert Settled(AfterBegin(st), g.date) == Settled(st, g.date);
    var base := Flat(Before(disk, g.date)) + OnDate(st.taken, g.date);
    ReusedDateBalances(base, Flat(Settled(st, g.date)), Again(st), Pending(st), g);
  }

  lemma BeginKeepsNewPart(st: State, disk: Disk)
    requires Accounted(st, disk) && Ready(st) && !Reuses(st)
    ensures Balanced(AfterBegin(st), disk, Pending(st)[0].date)
  {
    hide Groups, Flat, OnDate, NextPart, Numbered, Flows, SharesNumber, Sound, DateOf, Undisturbed;
    var g, rest := Pending(st)[0], Pending(st)[1..];
    var d, parts := g.date, Settled(st, g.date);
    BeginNumber(st, disk);
    assert Balanced(st, disk, d);
    assert Settled(AfterBegin(st), d) == parts + [g.ticks];
    FlatOfAppend(parts, g.ticks);
    assert (Flat(parts) + g.ticks) + Held(rest, d) == Flat(parts) + (g.ticks + Held(rest, d));
  }

  lemma BeginProceeds(st: State, disk: Disk)
    requires Accounted(st, disk) && Ready(st)
    ensures Proceeds(AfterBegin(st))
  {
    hide Groups, NextPart, Balanced, Numbered, Flows, Reuses;
    assert Unwritten(AfterBegin(st)) == Unwritten(st);
  }

  lemma BeginNumbers(st: State, disk: Disk)
    requires Accounted(st, disk) && Ready(st)
    ensures Numbered(AfterBegin(st), disk)
  {
    hide Groups, NextPart, Balanced, Flows, LevelAt, Proceeds, HasDate, Reuses, Open, Beside, Paired, Undisturbed;
    BeginNumber(st, disk);
    BeginOpens(st, disk);
    if st.phase.Flushing? || st.late.Some? { BeginUndisturbed(st, disk); }
    if st.orphan.Some? { BeginBesideOrphan(st, disk); }
  }

  lemma BeginOpens(st: State, disk: Disk)
    requires Accounted(st, disk) && Ready(st)
    ensures forall d :: Open(AfterBegin(st), d) ==> Open(st, d) && LevelAt(AfterBegin(st).w, d)
  {
    hide Groups, NextPart, Balanced, Flows, LevelAt, Proceeds, HasDate, Reuses, Beside, Paired, Undisturbed, Sound;
    forall d | Open(AfterBegin(st), d) ensures Open(st, d) && LevelAt(AfterBegin(st).w, d) {
      HasDateSplits(Pending(st), d);
    }
  }

  lemma BeginBesideOrphan(st: State, disk: Disk)
    requires Accounted(st, disk) && Ready(st) && st.orphan.Some?
    ensures var r, d := AfterBegin(st), st.orphan.value.group.date;
      && (HasDate(Pending(r), d) ==> Beside(r))
      && (d == r.job.value.group.date ==> Paired(r))
  {
    hide Groups, NextPart, Balanced, Flows, LevelAt, Proceeds, HasDate, Reuses, Open, Paired, Undisturbed, Sound;
    var g := Pending(st)[0];
    HasDateSplits(Pending(st), st.orphan.value.group.date);
    if st.orphan.value.group.date == g.date {
      DatesAreSplit(st, g);
      assert Unwritten(st) == Pending(st);
      BeginPairs(st, disk);
    } else {
      NotReused(st);
    }
  }

  lemma NotReused(st: State)
    requires Ready(st) && st.orphan.Some? && st.orphan.value.group.date != Pending(st)[0].date
    ensures !Reuses(st)
  {
  }

  lemma BeginUndisturbed(st: State, disk: Disk)
    requires Accounted(st, disk) && Ready(st) && (st.phase.Flushing? || st.late.Some?)
    ensures Undisturbed(AfterBegin(st).w, AfterBegin(st).job.value)
  {
    hide Groups, NextPart, Balanced, Flows, Sound;
    assert HasDate(Pending(st), Pending(st)[0].date);
    assert Open(st, Pending(st)[0].date);
    LevelWriteAppends(st.w, Pending(st)[0]);
  }

  lemma BeginPairs(st: State, disk: Disk)
    requires Accounted(st, disk) && Ready(st) && st.orphan.Some? && st.orphan.value.group.date == Pending(st)[0].date
    ensures Paired(AfterBegin(st))
  {
    hide Groups, NextPart, Balanced, Flows, LevelAt;
    DatesAreSplit(st, Pending(st)[0]);
    assert HasDate(Pending(st), st.orphan.value.group.date);
    NextBesideWrite(st.w, st.orphan.value);
  }

  lemma BeginKeeps(st: State, disk: Disk)
    requires Accounted(st, disk)
    ensures Accounted(AfterBegin(st), disk)
  {
    hide Groups, NextPart, DateOf, Balanced, Numbered, Proceeds, Reuses;
    if Ready(st) {
      BeginProceeds(st, disk);
      BeginNumbers(st, disk);
      forall d ensures Balanced(AfterBegin(st), disk, d) {
        if d != Pending(st)[0].date { BeginKeepsOtherDates(st, disk, d); }
        else if Reuses(st) { BeginKeepsReusedDate(st, disk); }
        else { BeginKeepsNewPart(st, disk); }
      }
    }
  }

  /** Storing a part is what was settled already. */
  lemma StoreSettles(st: State, disk: Disk, d: int)
    requires Sane(st) && Numbered(st, disk)
    ensures Settled(AfterStore(st), d) == Settled(st, d)
  {
    hide LevelAt, Undisturbed, HasDate, Before, Beside, Open;
  }

  lemma OrphanStoreSettles(st: State, d: int)
    requires Sane(st)
    ensures Settled(AfterOrphanStores(st), d) == Settled(st, d)
  {
    hide LevelAt, Undisturbed, HasDate, Before, Beside, Open;
  }

  lemma StoreKeepsOldParts(st: State, disk: Disk, d: int)
    requires Sane(st) && Numbered(st, disk) && Before(disk, d) <= Parts(st.w, d)
    ensures Before(disk, d) <= Parts(AfterStore(st).w, d) && Before(disk, d) <= Parts(AfterOrphanStores(st).w, d)
  {
    hide LevelAt, Undisturbed, HasDate, Paired, Beside, Open;
  }

  lemma CountSettles(st: State, disk: Disk, d: int)
    requires Sane(st) && Numbered(st, disk)
    ensures Settled(AfterCount(st), d) == Settled(st, d)
    ensures Settled(AfterOrphanCounts(st), d) == Settled(st, d)
  {
    hide LevelAt, Undisturbed, HasDate, Before;
  }

  /** The date of the write in progress does not come again in this round. */
  lemma JobDateIsPast(st: State)
    requires Proceeds(st) && st.job.Some?
    ensures !HasDate(Pending(st), st.job.value.group.date)
    ensures forall h :: h in Groups(st.buffer) && h.date == st.job.value.group.date ==> h == st.job.value.group
  {
    hide Groups, Held;
    DatesAreSplit(st, st.job.value.group);
    assert Unwritten(st)[1..] == Pending(st);
  }

  lemma StoreNumbers(st: State, disk: Disk)
    requires Accounted(st, disk) && st.job.Some?
    ensures Numbered(AfterStore(st), disk)
  {
    hide HasDate, Before, Balanced, Flows, Groups, Proceeds, LevelAt, Open;
    JobDateIsPast(st);
    StoreOpens(st, disk);
  }

  lemma StoreOpens(st: State, disk: Disk)
    requires Sane(st) && Numbered(st, disk)
    ensures forall d :: Open(AfterStore(st), d) ==> LevelAt(AfterStore(st).w, d)
  {
    hide HasDate, Before, Undisturbed, Sound, Beside, Paired, Store;
    assert forall d :: Open(AfterStore(st), d) ==> Open(st, d);
  }

  lemma OrphanStoreNumbers(st: State, disk: Disk)
    requires Accounted(st, disk) && st.orphan.Some?
    ensures Numbered(AfterOrphanStores(st), disk)
  {
    hide HasDate, Before, Balanced, Flows, Groups, LevelAt, Open;
    if st.job.Some? { JobDateIsPast(st); }
    OrphanStoreOpens(st, disk);
  }

  lemma OrphanStoreOpens(st: State, disk: Disk)
    requires Sane(st) && Numbered(st, disk)
    ensures forall d :: Open(AfterOrphanStores(st), d) ==> LevelAt(AfterOrphanStores(st).w, d)
  {
    hide HasDate, Before, Undisturbed, Sound, Beside, Paired, Store;
    assert forall d :: Open(AfterOrphanStores(st), d) ==> Open(st, d);
  }

  lemma CountNumbers(st: State, disk: Disk)
    requires Accounted(st, disk) && st.job.Some?
    ensures Numbered(AfterCount(st), disk)
  {
    hide HasDate, Before, Balanced, Flows, Groups;
    JobDateIsPast(st);
    var r := AfterCount(st);
    forall d | Open(r, d) && d != st.job.value.group.date ensures Open(st, d) {}
  }

  lemma OrphanCountNumbers(st: State, disk: Disk)
    requires Accounted(st, disk) && st.orphan.Some?
    ensures Numbered(AfterOrphanCounts(st), disk)
  {
    hide HasDate, Before, Balanced, Flows, Groups;
    if st.job.Some? { JobDateIsPast(st); }
    var r := AfterOrphanCounts(st);
    forall d | Open(r, d) && d != st.orphan.value.group.date ensures Open(st, d) {}
  }

  lemma StoreKeeps(st: State, disk: Disk)
    requires Accounted(st, disk)
    ensures Accounted(AfterStore(st), disk)
  {
    hide Groups, Flat, OnDate, Held, Settled, Numbered, HasDate;
    if st.job.Some? {
      StoreNumbers(st, disk);
      forall d ensures Balanced(AfterStore(st), disk, d) {
        assert Balanced(st, disk, d);
        StoreSettles(st, disk, d);
        StoreKeepsOldParts(st, disk, d);
      }
    }
  }

  lemma CountKeeps(st: State, disk: Disk)
    requires Accounted(st, disk)
    ensures Accounted(AfterCount(st), disk)
  {
    hide Groups, Flat, OnDate, Held, Settled, Numbered, HasDate;
    if st.job.Some? {
      CountNumbers(st, disk);
      forall d ensures Balanced(AfterCount(st), disk, d) {
        assert Balanced(st, disk, d);
        CountSettles(st, disk, d);
      }
    }
  }

  lemma OrphanStoreKeeps(st: State, disk: Disk)
    requires Accounted(st, disk)
    ensures Accounted(AfterOrphanStores(st), disk)
  {
    hide Groups, Flat, OnDate, Held, Settled, Numbered, HasDate;
    if st.orphan.Some? {
      OrphanStoreNumbers(st, disk);
      forall d ensures Balanced(AfterOrphanStores(st), disk, d) {
        assert Balanced(st, disk, d);
        OrphanStoreSettles(st, d);
        StoreKeepsOldParts(st, disk, d);
      }
    }
  }

  lemma OrphanCountKeeps(st: State, disk: Disk)
    requires Accounted(st, disk)
    ensures Accounted(AfterOrphanCounts(st), disk)
  {
    hide Groups, Flat, OnDate, Held, Settled, Numbered, HasDate;
    if st.orphan.Some? {
      OrphanCountNumbers(st, disk);
      forall d ensures Balanced(AfterOrphanCounts(st), disk, d) {
        assert Balanced(st, disk, d);
        CountSettles(st, disk, d);
      }
    }
  }

  // ------------------------------------------------------------------ the abandoned write chooses late

  /** It gets the number of the final flush's part of its date, or the next free one. */
  lemma LateNumber(st: State, disk: Disk)
    requires Accounted(st, disk) && st.late.Some?
    ensures var g, n := st.late.value, NextPart(st.w, st.late.value.date);
      && n == (if OrphanReuses(st) then st.job.value.n else |Settled(st, g.date)|)
      && |Before(disk, g.date)| <= n <= |Parts(st.w, g.date)|
      && (st.job.Some? && st.job.value.group.date == g.date ==>
            && st.job.value.group == g
            && if OrphanReuses(st) then n == st.job.value.n && n < |Settled(st, g.date)|
               else st.job.value.stored && n == st.job.value.n + 1)
  {
    hide Groups, Flat, Held, OnDate, NextPart, HasDate;
    var g := st.late.value;
    assert Balanced(st, disk, g.date);
    if st.job.Some? && st.job.value.group.date == g.date {
      JobDateIsPast(st);
      NextBesideWrite(st.w, st.job.value);
    } else {
      assert Open(st, g.date);
      LevelWriteAppends(st.w, g);
    }
  }

  /** The parts of its date gain its own, unless it writes over the other's. */
  lemma LateSettles(st: State, disk: Disk, d: int)
    requires Accounted(st, disk) && st.late.Some?
    ensures var g := st.late.value;
      Settled(AfterOrphanChooses(st), d) ==
      if d == g.date && !OrphanReuses(st) then Settled(st, d) + [g.ticks] else Settled(st, d)
  {
    hide Groups, Flat, Held, OnDate, NextPart, HasDate, OrphanReuses, Balanced, Flows, LevelAt, Undisturbed;
    LateNumber(st, disk);
    assert OrphanReuses(st) ==> st.job.Some? && st.job.value.group.date == st.late.value.date by { LateReuse(st); }
  }

  lemma LateReuse(st: State)
    requires st.late.Some?
    ensures OrphanReuses(st) ==> st.job.Some? && st.job.value.group.date == st.late.value.date
  {
  }

  lemma LateKeepsBalance(st: State, disk: Disk, d: int)
    requires Accounted(st, disk) && st.late.Some?
    ensures Balanced(AfterOrphanChooses(st), disk, d)
  {
    hide Groups, Flat, Held, OnDate, NextPart, HasDate, OrphanReuses, Settled, Flows, Numbered;
    assert Balanced(st, disk, d);
    LateSettles(st, disk, d);
    var g, r := st.late.value, AfterOrphanChooses(st);
    assert Pending(r) == Pending(st);
    if !OrphanReuses(st) {
      HeldOfConcat(Again(st), [g], d);
      HeldOfOne(g, d);
      if d == g.date { LateAppends(st, disk); }
      else { assert Held(Again(st), d) + [] == Held(Again(st), d); }
    }
  }

  lemma HeldOfOne(g: Group, d: int)
    ensures Held([g], d) == if g.date == d then g.ticks else []
  {
    assert [g][1..] == [] && g.ticks + [] == g.ticks;
  }

  /** Whether its group is still to come or written already, one more part is one more repeat at the end. */
  lemma LateAppends(st: State, disk: Disk)
    requires Accounted(st, disk) && st.late.Some?
    ensures var g := st.late.value;
      Flat(Settled(st, g.date) + [g.ticks]) + Held(Pending(st), g.date) ==
      Flat(Before(disk, g.date)) + OnDate(st.taken, g.date) + (Held(Again(st), g.date) + g.ticks)
  {
    hide Groups, Flat, OnDate, NextPart, Settled, Flows, Numbered;
    var g := st.late.value;
    assert Balanced(st, disk, g.date);
    FlatOfAppend(Settled(st, g.date), g.ticks);
    var x, base := Flat(Settled(st, g.date)), Flat(Before(disk, g.date)) + OnDate(st.taken, g.date);
    assert Held(Pending(st), g.date) == g.ticks || Held(Pending(st), g.date) == [] by { PendingIsLate(st); }
    if Held(Pending(st), g.date) == [] { assert x + [] == x && (x + g.ticks) + [] == x + g.ticks; }
    assert (base + Held(Again(st), g.date)) + g.ticks == base + (Held(Again(st), g.date) + g.ticks);
  }

  lemma PendingIsLate(st: State)
    requires Proceeds(st) && st.late.Some?
    ensures Held(Pending(st), st.late.value.date) in [[], st.late.value.ticks]
  {
    hide Groups, Held;
    AfterJob(st);
    GroupingIsExact(st.buffer, st.late.value.date);
    TailHolds(Groups(st.buffer), Pending(st), st.late.value);
  }

  lemma TailHolds(all: seq<Group>, left: seq<Group>, g: Group)
    requires OnePerDate(all) && EndsWith(all, left) && g in all
    ensures Held(left, g.date) in [[], g.ticks]
  {
    hide Held;
    if HasDate(left, g.date) {
      var i :| 0 <= i < |left| && left[i].date == g.date;
      var k := |all| - |left|;
      assert left[i] == all[k + i] == g;
      OnlyOneHeld(left, i, k, all);
    } else {
      NothingHeld(left, g.date);
    }
  }

  lemma OnlyOneHeld(left: seq<Group>, i: nat, k: nat, all: seq<Group>)
    requires OnePerDate(all) && k <= |all| && left == all[k..] && i < |left|
    ensures Held(left, left[i].date) == left[i].ticks
  {
    var a, b := left[..i], left[i + 1..];
    var d := left[i].date;
    assert left == a + ([left[i]] + b);
    HeldOfConcat(a, [left[i]] + b, d);
    HeldOfConcat([left[i]], b, d);
    HeldOfOne(left[i], d);
    forall j | 0 <= j < |a| ensures a[j].date != d { assert all[k + j] == a[j] && all[k + i] == left[i]; }
    forall j | 0 <= j < |b| ensures b[j].date != d { assert all[k + i + 1 + j] == b[j] && all[k + i] == left[i]; }
    NothingHeld(a, d);
    NothingHeld(b, d);
    assert left[i].ticks + [] == left[i].ticks && [] + left[i].ticks == left[i].ticks;
  }

  lemma LateNumbers(st: State, disk: Disk)
    requires Accounted(st, disk) && st.late.Some?
    ensures Numbered(AfterOrphanChooses(st), disk)
  {
    hide Groups, Flat, Held, OnDate, NextPart, HasDate, OrphanReuses, Balanced, Flows, LevelAt;
    LateNumber(st, disk);
    var g, r := st.late.value, AfterOrphanChooses(st);
    forall d | Open(r, d) ensures Open(st, d) {}
    if HasDate(Pending(r), g.date) { LateIsBeside(st, disk); }
  }

  lemma LateIsBeside(st: State, disk: Disk)
    requires Accounted(st, disk) && st.late.Some? && HasDate(Pending(st), st.late.value.date)
    ensures Beside(AfterOrphanChooses(st))
  {
    hide Groups, Flat, Held, OnDate, NextPart, HasDate, Balanced, Flows;
    LateNumber(st, disk);
    if st.job.Some? { JobDateIsPast(st); }
    assert Open(st, st.late.value.date);
    LevelWriteAppends(st.w, st.late.value);
  }

  lemma LateKeeps(st: State, disk: Disk)
    requires Accounted(st, disk)
    ensures Accounted(AfterOrphanChooses(st), disk)
  {
    hide Groups, NextPart, DateOf, Balanced, Numbered, OrphanReuses;
    if st.late.Some? {
      LateNumbers(st, disk);
      forall d ensures Balanced(AfterOrphanChooses(st), disk, d) { LateKeepsBalance(st, disk, d); }
    }
  }

  // ------------------------------------------------------------------ every interleaving

  lemma StartIsAccounted(disk: Disk, cursor: int)
    requires Scannable(disk)
    ensures Accounted(Start(disk, cursor), disk)
  {
    assert Groups([]) == [];
  }

  lemma StepKeeps(cfg: Config, st: State, disk: Disk, e: Event)
    requires Accounted(st, disk)
    ensures Accounted(Step(cfg, st, e), disk)
  {
    hide AfterPoll, AfterGet, AfterTimeout, AfterBegin, AfterStore, AfterCount, AfterEndFlush, AfterCancel;
    hide AfterOrphanChooses, AfterOrphanStores, AfterOrphanCounts, Flows, Proceeds, Numbered, Balanced;
    match e {
      case Poll(ticks) => PollKeeps(cfg, st, disk, ticks);
      case Get => GetKeeps(cfg, st, disk);
      case Timeout => TimeoutKeeps(st, disk);
      case BeginWrite => BeginKeeps(st, disk);
      case StoreWrite => StoreKeeps(st, disk);
      case CountWrite => CountKeeps(st, disk);
      case EndFlush => EndFlushKeeps(st, disk);
      case Cancel(running) => CancelKeeps(st, running, disk);
      case OrphanChooses => LateKeeps(st, disk);
      case OrphanStores => OrphanStoreKeeps(st, disk);
      case OrphanCounts => OrphanCountKeeps(st, disk);
    }
  }

  /** Whatever the batches and the interleaving of polls, writes and a cancellation, every tick stays accounted for. */
  lemma {:induction false} EveryInterleavingAccounts(cfg: Config, disk: Disk, cursor: int, events: seq<Event>)
    requires Scannable(disk)
    ensures Accounted(After(cfg, disk, cursor, events), disk)
  {
    hide Accounted, Step;
    if events == [] {
      StartIsAccounted(disk, cursor);
    } else {
      EveryInterleavingAccounts(cfg, disk, cursor, Front(events));
      StepKeeps(cfg, After(cfg, disk, cursor, Front(events)), disk, Last(events));
    }
  }

  lemma {:induction false} HeldAreOfDate(groups: seq<Group>, all: seq<Group>, ticks: seq<Tick>, d: int)
    requires forall g :: g in groups ==> g in all
    requires forall t :: t in Held(all, d) ==> t in ticks
    ensures forall t :: t in Held(groups, d) ==> t in ticks
  {
    if groups != [] {
      HeldAreOfDate(groups[1..], all, ticks, d);
      if groups[0].date == d { GroupWithin(all, groups[0], d); }
    }
  }

  lemma {:induction false} GroupWithin(all: seq<Group>, g: Group, d: int)
    requires g in all && g.date == d
    ensures forall t :: t in g.ticks ==> t in Held(all, d)
  {
    if all[0] != g { GroupWithin(all[1..], g, d); }
  }

  lemma {:induction false} OnDateMembers(ticks: seq<Tick>, d: int)
    ensures forall t :: t in OnDate(ticks, d) <==> t in ticks && DateOf(t) == d
  {
    if ticks != [] {
      OnDateMembers(Front(ticks), d);
      assert ticks == Front(ticks) + [Last(ticks)];
    }
  }

  /** What is on disk twice was already part of what was taken. */
  lemma RepeatsWereTaken(st: State, disk: Disk, d: int)
    requires Accounted(st, disk)
    ensures forall t :: t in Held(Again(st), d) ==> t in OnDate(st.taken, d)
  {
    hide Numbered, Balanced, Groups;
    GroupingIsExact(st.buffer, d);
    OnDateMembers(st.buffer, d);
    OnDateMembers(st.taken, d);
    HeldAreOfDate(Again(st), Groups(st.buffer), OnDate(st.taken, d), d);
  }

  /**
   * A session that has stopped with an empty queue leaves, per date, exactly what the producer sent, in order, after
   * what was there before, once the abandoned write has stored its part; only a cancellation in the middle of a flush
   * adds repeats at the end. Either way a replay of the date gives the same ticks as a replay of what was sent. This
   * holds while the abandoned write has still to choose its number as well as after.
   */
  lemma StoppedSessionIsComplete(cfg: Config, disk: Disk, cursor: int, events: seq<Event>, d: int)
    requires Scannable(disk)
    requires var st := After(cfg, disk, cursor, events); st.phase.Stopped? && st.p.queue == []
    ensures var st := After(cfg, disk, cursor, events);
      var all, sent := Flat(Settled(st, d)), Flat(Before(disk, d)) + OnDate(st.sent, d);
      && (st.orphan.None? ==> Settled(st, d) == Parts(st.w, d))
      && all == sent + Held(Again(st), d)
      && Maxima(all) == Maxima(sent)
  {
    hide After, Numbered, Flat, OnDate, Maxima, Groups;
    EveryInterleavingAccounts(cfg, disk, cursor, events);
    var st := After(cfg, disk, cursor, events);
    assert Balanced(st, disk, d);
    RepeatsWereTaken(st, disk, d);
    assert st.sent == st.taken && Flat(Settled(st, d)) + [] == Flat(Settled(st, d));
    MaximaIgnoreRepeats(Flat(Before(disk, d)) + OnDate(st.sent, d), Held(Again(st), d));
  }

  lemma OnlyBrokenFlushesRepeat(cfg: Config, st: State, e: Event)
    requires Sane(st) && Again(st) == [] && st.orphan.None? && st.late.None? && !(e.Cancel? && st.phase.Flushing?)
    ensures var r := Step(cfg, st, e); Again(r) == [] && r.orphan.None? && r.late.None?
  {
    hide Polled, Newer, NextPart, Groups, Stored, Counted, DateOf;
  }

  /** A session nobody cancelled in the middle of a flush repeats nothing and abandons nothing. */
  lemma {:induction false} NoRepeatsWithoutBrokenFlush(cfg: Config, disk: Disk, cursor: int, events: seq<Event>)
    requires forall i :: 0 <= i < |events| && events[i].Cancel? ==>
        !After(cfg, disk, cursor, events[..i]).phase.Flushing?
    ensures var st := After(cfg, disk, cursor, events); Again(st) == [] && st.orphan.None? && st.late.None?
  {
    hide Step;
    if events != [] {
      var before := Front(events);
      forall i | 0 <= i < |before| && before[i].Cancel?
        ensures !After(cfg, disk, cursor, before[..i]).phase.Flushing?
      {
        assert events[i].Cancel? && before[..i] == events[..i];
      }
      NoRepeatsWithoutBrokenFlush(cfg, disk, cursor, before);
      assert events[..|events| - 1] == before;
      OnlyBrokenFlushesRepeat(cfg, After(cfg, disk, cursor, before), Last(events));
    }
  }

  // ------------------------------------------------------------------ part numbers

  /** Every number chosen belongs to a part that is there or about to be; those of writes in progress are logged. */
  ghost predicate Logged(st: State)
    requires Sane(st)
  {
    && (forall k :: k in st.numbers ==> k.1 < |Settled(st, k.0)|)
    && (st.job.Some? ==> (st.job.value.group.date, st.job.value.n) in st.numbers)
    && (st.orphan.Some? ==> (st.orphan.value.group.date, st.orphan.value.n) in st.numbers)
  }

  ghost predicate AllDifferent(s: seq<(int, nat)>) {
    forall i, j :: 0 <= i < j < |s| ==> s[i] != s[j]
  }

  /** The number of a new part is one that was chosen before exactly when the final flush meets the abandoned write. */
  lemma BeginLogs(st: State, disk: Disk)
    requires Accounted(st, disk) && Ready(st) && Logged(st)
    ensures var k, r := (Pending(st)[0].date, NextPart(st.w, Pending(st)[0].date)), AfterBegin(st);
      && r.numbers == st.numbers + [k] && (k in st.numbers <==> Reuses(st))
      && (Reuses(st) ==> st.orphan.value.group == Pending(st)[0])
      && Logged(r)
  {
    hide Groups, Flat, OnDate, Held, Flows, Proceeds, Numbered, Balanced, NextPart, Reuses, HasDate, Undisturbed;
    var g, r := Pending(st)[0], AfterBegin(st);
    BeginNumber(st, disk);
    assert Reuses(st) ==> st.orphan.Some? by { if Reuses(st) { ReusedIsOrphan(st); } }
    forall k | k in r.numbers ensures k.1 < |Settled(r, k.0)| {}
  }

  lemma ReusedIsOrphan(st: State)
    requires Reuses(st)
    ensures st.orphan.Some?
  {
  }

  /** The same of a number that the abandoned write chooses late. */
  lemma LateLogs(st: State, disk: Disk)
    requires Accounted(st, disk) && st.late.Some? && Logged(st)
    ensures var g, r := st.late.value, AfterOrphanChooses(st);
      var k := (g.date, NextPart(st.w, g.date));
      && r.numbers == st.numbers + [k] && (k in st.numbers <==> OrphanReuses(st))
      && (OrphanReuses(st) ==> st.job.value.group == g)
      && Logged(r)
  {
    hide Groups, Flat, OnDate, Held, Flows, Proceeds, Numbered, Balanced, NextPart, OrphanReuses, Settled;
    var r := AfterOrphanChooses(st);
    LateNumber(st, disk);
    LateReuse(st);
    forall k | k in r.numbers ensures k.1 < |Settled(r, k.0)| { LateSettles(st, disk, k.0); }
  }

  lemma OthersLog(cfg: Config, st: State, disk: Disk, e: Event)
    requires Accounted(st, disk) && Logged(st) && !(e.BeginWrite? && Ready(st)) && !(e.OrphanChooses? && st.late.Some?)
    ensures Logged(Step(cfg, st, e)) && Step(cfg, st, e).numbers == st.numbers
  {
    hide Groups, Flat, OnDate, Held, Flows, Numbered, Balanced, NextPart;
    hide HasDate, Newer, OfferAll, Polled, Store, Reaches;
    forall d ensures Settled(Step(cfg, st, e), d) == Settled(st, d) {
      StoreSettles(st, disk, d);
      OrphanStoreSettles(st, d);
      CountSettles(st, disk, d);
    }
  }

  /** With this event a write chooses a number while the other one of its date can still be given the same. */
  predicate ChoosesTwice(st: State, e: Event) {
    (e.BeginWrite? && Reuses(st)) || (e.OrphanChooses? && OrphanReuses(st))
  }

  /**
   * Over a whole session no part number is used twice, unless and only unless of the abandoned write and the final
   * flush's write of the same date one chooses its number while the other has chosen and not stored its part, or has
   * stored it and not counted it where no directory scan shows the part.
   */
  lemma {:induction false} NumberUsedTwiceExactly(cfg: Config, disk: Disk, cursor: int, events: seq<Event>)
    requires Scannable(disk)
    ensures Logged(After(cfg, disk, cursor, events))
    ensures AllDifferent(After(cfg, disk, cursor, events).numbers) <==>
            forall i :: 0 <= i < |events| ==> !ChoosesTwice(After(cfg, disk, cursor, events[..i]), events[i])
  {
    hide Accounted, Step, ChoosesTwice, Logged, AllDifferent;
    if events == [] {
      StartLogs(disk, cursor);
    } else {
      FirstAndLastChoices(cfg, disk, cursor, events);
      var before, e := Front(events), Last(events);
      var st := After(cfg, disk, cursor, before);
      NumberUsedTwiceExactly(cfg, disk, cursor, before);
      EveryInterleavingAccounts(cfg, disk, cursor, before);
      NumbersGrow(cfg, st, disk, e);
    }
  }

  lemma FirstAndLastChoices(cfg: Config, disk: Disk, cursor: int, events: seq<Event>)
    requires events != []
    ensures var before := Front(events);
      (forall i :: 0 <= i < |events| ==> !ChoosesTwice(After(cfg, disk, cursor, events[..i]), events[i])) <==>
      && (forall i :: 0 <= i < |before| ==> !ChoosesTwice(After(cfg, disk, cursor, before[..i]), before[i]))
      && !ChoosesTwice(After(cfg, disk, cursor, before), Last(events))
  {
    hide After, ChoosesTwice;
    var before := Front(events);
    assert events[..|events| - 1] == before;
    assert forall i :: 0 <= i < |before| ==> before[..i] == events[..i] && before[i] == events[i];
  }

  lemma StartLogs(disk: Disk, cursor: int)
    ensures Logged(Start(disk, cursor)) && AllDifferent(Start(disk, cursor).numbers)
  {
  }

  /** One event logs at most one number, which is among those logged before exactly when it is chosen twice. */
  lemma NumbersGrow(cfg: Config, st: State, disk: Disk, e: Event)
    requires Accounted(st, disk) && Logged(st)
    ensures var r := Step(cfg, st, e);
      Logged(r) && (AllDifferent(r.numbers) <==> AllDifferent(st.numbers) && !ChoosesTwice(st, e))
  {
    hide Flows, Proceeds, Numbered, Balanced, Step, Reuses, OrphanReuses, Logged, AllDifferent;
    var r := Step(cfg, st, e);
    StepIs(cfg, st);
    if e.BeginWrite? && Ready(st) {
      BeginLogs(st, disk);
      LastIsNew(st.numbers, Last(r.numbers));
    } else if e.OrphanChooses? && st.late.Some? {
      LateLogs(st, disk);
      LastIsNew(st.numbers, Last(r.numbers));
    } else {
      OthersLog(cfg, st, disk, e);
      ReusedIsReady(st);
    }
  }

  lemma StepIs(cfg: Config, st: State)
    requires Sane(st)
    ensures Step(cfg, st, BeginWrite) == AfterBegin(st) && Step(cfg, st, OrphanChooses) == AfterOrphanChooses(st)
  {
  }

  lemma ReusedIsReady(st: State)
    ensures (Reuses(st) ==> Ready(st)) && (OrphanReuses(st) ==> st.late.Some?)
  {
  }

  lemma LastIsNew(s: seq<(int, nat)>, k: (int, nat))
    ensures AllDifferent(s + [k]) <==> AllDifferent(s) && k !in s
  {
    var t := s + [k];
    assert forall i :: 0 <= i < |s| ==> t[i] == s[i];
    if AllDifferent(t) {
      forall i | 0 <= i < |s| ensures s[i] != k { assert t[i] != t[|s|]; }
    }
  }

  /** A session of one tick, cancelled when its part was begun, up to the start of the final flush. */
  function CutShort(t: Tick): State {
    var g := Group(DateOf(t), [t]);
    OneTaken(t).(phase := Draining([g], [g]), orphan := Some(Write(g, 0, false)), numbers := [(g.date, 0)])
  }

  /** The same session cancelled when the thread was running and had no number yet. */
  function CutEarlier(t: Tick): State {
    var g := Group(DateOf(t), [t]);
    OneTaken(t).(phase := Draining([g], []), late := Some(g))
  }

  /** What the session has when its one tick waits in the queue, and when it is to be flushed. */
  function OneSent(t: Tick): State {
    Start(map[], 0).(p := Producer([t], t.time, 1, 0), fetched := 1, sent := [t])
  }

  function OneTaken(t: Tick): State {
    var flush := Flushing([Group(DateOf(t), [t])]);
    OneSent(t).(p := Producer([], t.time, 1, 0), taken := [t], buffer := [t], phase := flush)
  }

  lemma OneMoreEvent(cfg: Config, disk: Disk, cursor: int, events: seq<Event>, e: Event)
    ensures After(cfg, disk, cursor, events + [e]) == Step(cfg, After(cfg, disk, cursor, events), e)
  {
    assert Front(events + [e]) == events;
  }

  lemma OneTakenIsReached(t: Tick)
    requires t.time > 0
    ensures After(Config(0, 1), map[], 0, [Poll([t]), Get]) == OneTaken(t)
  {
    hide DateOf, After, AfterPoll, AfterGet;
    var cfg := Config(0, 1);
    assert [Poll([t])] + [Get] == [Poll([t]), Get] && [] + [Poll([t])] == [Poll([t])];
    OneMoreEvent(cfg, map[], 0, [Poll([t])], Get);
    OneMoreEvent(cfg, map[], 0, [], Poll([t]));
    assert After(cfg, map[], 0, []) == Start(map[], 0) by { NoEvents(cfg); }
    FirstSteps(t);
  }

  lemma CutShortIsReached(t: Tick)
    requires t.time > 0
    ensures After(Config(0, 1), map[], 0, [Poll([t]), Get, BeginWrite, Cancel(true)]) == CutShort(t)
    ensures After(Config(0, 1), map[], 0, [Poll([t]), Get, Cancel(true)]) == CutEarlier(t)
  {
    hide DateOf, After, AfterBegin, AfterCancel, OneTaken, CutShort, CutEarlier;
    var cfg, taken := Config(0, 1), [Poll([t]), Get];
    assert taken + [BeginWrite] + [Cancel(true)] == [Poll([t]), Get, BeginWrite, Cancel(true)];
    assert taken + [Cancel(true)] == [Poll([t]), Get, Cancel(true)];
    OneMoreEvent(cfg, map[], 0, taken + [BeginWrite], Cancel(true));
    OneMoreEvent(cfg, map[], 0, taken, BeginWrite);
    OneMoreEvent(cfg, map[], 0, taken, Cancel(true));
    OneTakenIsReached(t);
    LastSteps(t);
  }

  lemma FirstSteps(t: Tick)
    requires t.time > 0
    ensures AfterPoll(Config(0, 1), Start(map[], 0), [t]) == OneSent(t)
    ensures AfterGet(Config(0, 1), OneSent(t)) == OneTaken(t)
  {
    hide DateOf, Polled, Newer;
    OfferOne(Start(map[], 0).p, t);
    assert [t][..1] == [t] && [] + [t] == [t] && [t][1..] == [];
    assert Groups([t]) == [Group(DateOf(t), [t])] by { OnDateOfAppend([], t, 0); }
  }

  lemma LastSteps(t: Tick)
    ensures Sane(OneTaken(t)) && AfterCancel(AfterBegin(OneTaken(t)), true) == CutShort(t)
    ensures AfterCancel(OneTaken(t), true) == CutEarlier(t)
  {
    hide DateOf;
    var g := Group(DateOf(t), [t]);
    NextAfterListing(0);
    assert Groups([t]) == [g] by { OnDateOfAppend([], t, 0); assert [] + [t] == [t]; }
    assert [g][1..] == [] && [g][..1] == [g] && [g][..0] == [];
  }

  lemma NoEvents(cfg: Config)
    ensures After(cfg, map[], 0, []) == Start(map[], 0)
  {
  }

  lemma OfferOne(p: Producer, t: Tick)
    requires p.queue == [] && t.time > p.cursor
    ensures Newer([t], p.cursor) == [t]
    ensures Polled(p, [t], 0) == p.(queue := [t], cursor := t.time, collected := p.collected + 1)
  {
    assert Front([t]) == [] && [] + [t] == [t];
    assert Newer([], p.cursor) == [] && OfferAll(p, [], 0) == p;
  }

  /** Here the final flush begins first: part 0 is written twice, and holds the tick once. */
  lemma FinalFlushFirst(t: Tick)
    ensures var st := CutShort(t);
      && Sane(st) && Reuses(st)
      && var r := AfterOrphanCounts(AfterOrphanStores(AfterEndFlush(AfterCount(AfterStore(AfterBegin(st))))));
      && r.phase == Stopped([]) && r.orphan.None?
      && r.numbers == [(DateOf(t), 0), (DateOf(t), 0)] && Parts(r.w, DateOf(t)) == [[t]]
  {
    hide DateOf;
    NextAfterListing(0);
  }

  /** Here the abandoned write ends first: the tick is on disk twice, in parts 0 and 1. */
  lemma AbandonedWriteFirst(t: Tick)
    ensures var st := CutShort(t);
      && Sane(st) && !Reuses(AfterOrphanCounts(AfterOrphanStores(st)))
      && var r := AfterEndFlush(AfterCount(AfterStore(AfterBegin(AfterOrphanCounts(AfterOrphanStores(st))))));
      && r.phase == Stopped([Group(DateOf(t), [t])]) && r.orphan.None?
      && r.numbers == [(DateOf(t), 0), (DateOf(t), 1)] && Parts(r.w, DateOf(t)) == [[t], [t]]
  {
    hide DateOf;
    NextAfterListing(1);
  }

  /** Here the abandoned write chooses when the final flush is over: the tick is on disk twice, and no number is. */
  lemma ChosenAfterTheFlush(t: Tick)
    ensures var st := CutEarlier(t);
      && Sane(st) && !Reuses(st)
      && var ended := AfterEndFlush(AfterCount(AfterStore(AfterBegin(st))));
      && ended.phase == Stopped([]) && Parts(ended.w, DateOf(t)) == [[t]] && !OrphanReuses(ended)
      && var r := AfterOrphanCounts(AfterOrphanStores(AfterOrphanChooses(ended)));
      && r.phase == Stopped([Group(DateOf(t), [t])]) && r.orphan.None? && r.late.None?
      && r.numbers == [(DateOf(t), 0), (DateOf(t), 1)] && Parts(r.w, DateOf(t)) == [[t], [t]]
  {
    hide DateOf;
    NextAfterListing(0);
  }

  /** Here it chooses while the final flush has chosen and not stored: part 0 is written twice, the tick there once. */
  lemma ChosenDuringTheFlush(t: Tick)
    ensures var begun := AfterBegin(CutEarlier(t));
      && Sane(begun) && OrphanReuses(begun)
      && var r :=
          AfterOrphanCounts(AfterEndFlush(AfterCount(AfterOrphanStores(AfterStore(AfterOrphanChooses(begun))))));
      && r.phase == Stopped([]) && r.orphan.None? && r.late.None?
      && r.numbers == [(DateOf(t), 0), (DateOf(t), 0)] && Parts(r.w, DateOf(t)) == [[t]]
  {
    hide DateOf;
    NextAfterListing(0);
  }

  /** A poll only ever sends ticks newer than everything sent before it, so time-ordered batches stay in order. */
  ghost predicate InOrderUpTo(st: State) {
    InTimeOrder(st.sent) && forall t :: t in st.sent ==> t.time <= st.p.cursor
  }

  lemma PollKeepsOrder(cfg: Config, st: State, ticks: seq<Tick>)
    requires InOrderUpTo(st) && InTimeOrder(ticks)
    ensures InOrderUpTo(AfterPoll(cfg, st, ticks))
  {
    hide Newer, OfferAll;
    var recent := Newer(ticks, st.p.cursor);
    NewerIsNewer(ticks, st.p.cursor);
    OfferingTakesPrefix(st.p, recent, cfg.maxSize);
    if recent != [] {
      MaxTimeIsMax(recent);
      assert recent[0] in recent;
      var n := Room(st.p.queue, cfg.maxSize, |recent|);
    }
  }

  lemma OnlyPollsSend(cfg: Config, st: State, e: Event)
    requires Sane(st)
    ensures var r := Step(cfg, st, e);
      if e.Poll? then r == AfterPoll(cfg, st, e.ticks) else r.sent == st.sent && r.p.cursor == st.p.cursor
  {
    hide AfterPoll, NextPart, Groups, Reuses, OrphanReuses, Stored, Counted;
  }

  lemma {:induction false} SentInTimeOrder(cfg: Config, disk: Disk, cursor: int, events: seq<Event>)
    requires forall e :: e in events && e.Poll? ==> InTimeOrder(e.ticks)
    ensures InOrderUpTo(After(cfg, disk, cursor, events))
  {
    hide AfterPoll, Groups, Step;
    if events != [] {
      SentInTimeOrder(cfg, disk, cursor, Front(events));
      assert Last(events) in events;
      var st := After(cfg, disk, cursor, Front(events));
      if Last(events).Poll? { PollKeepsOrder(cfg, st, Last(events).ticks); }
      OnlyPollsSend(cfg, st, Last(events));
    }
  }

  // ------------------------------------------------------------------ a session and its replay

  /**
   * A replay of a date after a stopped session gives back exactly what earlier processes left of it and what the
   * producer sent, however the session was cut short, if and only if their times are positive and strictly increasing.
   */
  lemma ReplayIsLosslessExactly(cfg: Config, disk: Disk, cursor: int, events: seq<Event>, d: int)
    requires Scannable(disk)
    requires var st := After(cfg, disk, cursor, events); st.phase.Stopped? && st.p.queue == []
    ensures var st := After(cfg, disk, cursor, events);
      var sent := Flat(Before(disk, d)) + OnDate(st.sent, d);
      Maxima(Flat(Settled(st, d))) == sent <==> forall i :: 0 <= i < |sent| ==> IsMaximum(sent, i)
  {
    hide After, Flat, OnDate, Maxima, IsMaximum, Settled;
    StoppedSessionIsComplete(cfg, disk, cursor, events, d);
    LosslessExactlyWhenStrict(Flat(Before(disk, d)) + OnDate(After(cfg, disk, cursor, events).sent, d));
  }

  predicate InStrictOrder(ticks: seq<Tick>) {
    forall i, j :: 0 <= i < j < |ticks| ==> ticks[i].time < ticks[j].time
  }

  lemma StrictWithLast(ticks: seq<Tick>, t: Tick)
    requires InStrictOrder(ticks) && forall x :: x in ticks ==> x.time < t.time
    ensures InStrictOrder(ticks + [t])
  {
    assert forall i :: 0 <= i < |ticks| ==> ticks[i] in ticks;
  }

  lemma {:induction false} FilteredStayStrict(ticks: seq<Tick>, cursor: int, d: int)
    requires InStrictOrder(ticks)
    ensures InStrictOrder(Newer(ticks, cursor)) && InStrictOrder(OnDate(ticks, d))
  {
    if ticks != [] {
      var before, t := Front(ticks), Last(ticks);
      FilteredStayStrict(before, cursor, d);
      forall x | x in before ensures x.time < t.time {}
      StrictParts(before, t, cursor, d);
      assert Newer(before, cursor) + [] == Newer(before, cursor) && OnDate(before, d) + [] == OnDate(before, d);
    }
  }

  lemma StrictParts(before: seq<Tick>, t: Tick, cursor: int, d: int)
    requires InStrictOrder(Newer(before, cursor)) && InStrictOrder(OnDate(before, d))
    requires forall x :: x in before ==> x.time < t.time
    ensures InStrictOrder(Newer(before, cursor) + [t]) && InStrictOrder(OnDate(before, d) + [t])
  {
    hide InStrictOrder, Newer, OnDate, DateOf;
    NewerIsNewer(before, cursor);
    OnDateMembers(before, d);
    StrictWithLast(Newer(before, cursor), t);
    StrictWithLast(OnDate(before, d), t);
  }

  /** What was sent is strictly ordered and newer than the cursor the producer started with. */
  ghost predicate StrictUpTo(st: State, start: int) {
    InStrictOrder(st.sent) && start <= st.p.cursor && forall t :: t in st.sent ==> start < t.time <= st.p.cursor
  }

  lemma PollKeepsStrict(cfg: Config, st: State, start: int, ticks: seq<Tick>)
    requires StrictUpTo(st, start) && InStrictOrder(ticks)
    ensures StrictUpTo(AfterPoll(cfg, st, ticks), start)
  {
    hide Newer, OfferAll;
    var recent := Newer(ticks, st.p.cursor);
    FilteredStayStrict(ticks, st.p.cursor, 0);
    NewerIsNewer(ticks, st.p.cursor);
    OfferingTakesPrefix(st.p, recent, cfg.maxSize);
    if recent != [] {
      MaxTimeIsMax(recent);
      assert recent[0] in recent;
      assert forall i :: 0 <= i < |recent| ==> recent[i] in recent;
    }
  }

  lemma {:induction false} SentIsStrict(cfg: Config, disk: Disk, cursor: int, events: seq<Event>)
    requires forall e :: e in events && e.Poll? ==> InStrictOrder(e.ticks)
    ensures StrictUpTo(After(cfg, disk, cursor, events), cursor)
  {
    hide AfterPoll, Groups, Step;
    if events != [] {
      SentIsStrict(cfg, disk, cursor, Front(events));
      assert Last(events) in events;
      var st := After(cfg, disk, cursor, Front(events));
      if Last(events).Poll? { PollKeepsStrict(cfg, st, cursor, Last(events).ticks); }
      OnlyPollsSend(cfg, st, Last(events));
    }
  }

  /**
   * From batch to replay: if every polled batch is strictly ordered, the start is not before the epoch and the date is
   * new on disk, a replay of that date emits exactly the ticks the producer sent on it, whatever was interleaved and
   * wherever the session was cancelled.
   */
  lemma ReplayGivesWhatWasSent(cfg: Config, disk: Disk, cursor: nat, events: seq<Event>, d: int)
    requires Scannable(disk) && Before(disk, d) == []
    requires forall e :: e in events && e.Poll? ==> InStrictOrder(e.ticks)
    requires var st := After(cfg, disk, cursor, events); st.phase.Stopped? && st.p.queue == []
    ensures var st := After(cfg, disk, cursor, events);
      Maxima(Flat(Settled(st, d))) == OnDate(st.sent, d) && (st.orphan.None? ==> Settled(st, d) == Parts(st.w, d))
  {
    hide After, OnDate, Maxima, Settled;
    var st := After(cfg, disk, cursor, events);
    SentIsStrict(cfg, disk, cursor, events);
    FilteredStayStrict(st.sent, 0, d);
    OnDateMembers(st.sent, d);
    var sent := OnDate(st.sent, d);
    assert Flat(Before(disk, d)) + sent == sent;
    forall i | 0 <= i < |sent| ensures IsMaximum(sent, i) { assert sent[i] in sent; }
    ReplayIsLosslessExactly(cfg, disk, cursor, events, d);
    StoppedSessionIsComplete(cfg, disk, cursor, events, d);
  }

  // ------------------------------------------------------------------ when a flush begins

  /**
   * The writer goes from collecting to flushing on the tick that fills the buffer, or on a timeout with ticks in it.
   */
  lemma FlushBeginsExactly(cfg: Config, st: State, e: Event)
    requires Sane(st) && st.phase.Collecting?
    ensures Step(cfg, st, e).phase.Flushing? <==>
        || (e.Get? && st.p.queue != [] && |st.buffer| + 1 >= cfg.flushSize)
        || (e.Timeout? && st.buffer != [])
  {
    hide Groups, Polled, Newer, NextPart, Stored, Counted, Sane, Meets;
  }

  /** So it never collects with a full buffer, and never holds more than one. */
  lemma {:induction false} BufferStaysSmall(cfg: Config, disk: Disk, cursor: int, events: seq<Event>)
    requires cfg.flushSize > 0
    ensures var st := After(cfg, disk, cursor, events);
      |st.buffer| <= cfg.flushSize && (st.phase.Collecting? ==> |st.buffer| < cfg.flushSize)
  {
    hide Groups, Polled, Newer, NextPart, Stored, Counted, Sane, Meets;
    if events != [] { BufferStaysSmall(cfg, disk, cursor, Front(events)); }
  }
}
