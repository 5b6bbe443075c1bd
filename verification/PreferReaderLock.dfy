/** The reader/writer lock that prefers readers (the `RwPreferReader` branches of read_write_lock.c and the class
    ReadWriteLockPreferReader of cread_write_lock.cpp), used by any number of threads. The steps are as in
    PreferWriterLock.
  */
module PreferReaderLock {
  import opened FreeRtos
  import opened Counting
  import opened ReadWriteLockSpec

  datatype Section = Read | Write

  // The statements of ReaderLock and ReaderUnlock; WriterLock and WriterUnlock have one statement each.
  datatype Rl = TakeRead | Increment | TakeResource | GiveRead
  datatype Ru = TakeRead | Decrement | GiveResource | GiveRead

  datatype Pc =
    | Idle
    | RLock(rl: Rl)
    | Reading
    | RUnlock(ru: Ru)
    | WLock
    | Writing
    | WUnlock

  datatype State = State(
    readCount: int,
    readLock: Mutex,
    resourceLock: bool,
    pcs: seq<Pc>, todo: seq<seq<Section>>)
  {
    predicate Shaped() {
      |todo| == |pcs|
    }

    function Go(t: nat, pc: Pc): State
      requires t < |pcs|
    {
      this.(pcs := pcs[t := pc])
    }
  }

  function Initial(programs: seq<seq<Section>>): State {
    State(0, None, true, seq(|programs|, i => Idle), programs)
  }

  predicate Enabled(s: State, t: nat) {
    s.Shaped() && t < |s.pcs| &&
    match s.pcs[t]
    case Idle => s.todo[t] != []
    case RLock(at) => (at.TakeRead? ==> s.readLock.None?) && (at.TakeResource? ==> s.resourceLock)
    case RUnlock(at) => at.TakeRead? ==> s.readLock.None?
    case WLock => s.resourceLock
    case _ => true
  }

  function ReaderLock(s: State, t: nat, at: Rl): State
    requires t < |s.pcs|
  {
    match at
    case TakeRead => s.Go(t, RLock(Rl.Increment)).(readLock := Some(t))
    case Increment =>
      s.Go(t, RLock(if s.readCount + 1 == 1 then Rl.TakeResource else Rl.GiveRead)).(readCount := s.readCount + 1)
    case TakeResource => s.Go(t, RLock(Rl.GiveRead)).(resourceLock := false)
    case GiveRead => s.Go(t, Reading).(readLock := None)
  }

  function ReaderUnlock(s: State, t: nat, at: Ru): State
    requires t < |s.pcs|
  {
    match at
    case TakeRead => s.Go(t, RUnlock(Ru.Decrement)).(readLock := Some(t))
    case Decrement =>
      s.Go(t, RUnlock(if s.readCount - 1 == 0 then Ru.GiveResource else Ru.GiveRead)).(readCount := s.readCount - 1)
    case GiveResource => s.Go(t, RUnlock(Ru.GiveRead)).(resourceLock := true)
    case GiveRead => s.Go(t, Idle).(readLock := None)
  }

  /** The state after thread `t` executes the statement it is at. */
  function Next(s: State, t: nat): State
    requires Enabled(s, t)
  {
    match s.pcs[t]
    case Idle =>
      var entry := if s.todo[t][0] == Read then RLock(Rl.TakeRead) else WLock;
      s.Go(t, entry).(todo := s.todo[t := s.todo[t][1..]])
    case RLock(at) => ReaderLock(s, t, at)
    case Reading => s.Go(t, RUnlock(Ru.TakeRead))
    case RUnlock(at) => ReaderUnlock(s, t, at)
    case WLock => s.Go(t, Writing).(resourceLock := false)
    case Writing => s.Go(t, WUnlock)
    case WUnlock => s.Go(t, Idle).(resourceLock := true)
  }

  // ---------- The invariant ----------

  predicate HoldsReadLock(pc: Pc) {
    (pc.RLock? && !pc.rl.TakeRead?) || (pc.RUnlock? && !pc.ru.TakeRead?)
  }

  /** Readers that ReadCount stands for. */
  predicate CountedReader(pc: Pc) {
    || (pc.RLock? && (pc.rl.TakeResource? || pc.rl.GiveRead?))
    || pc.Reading?
    || (pc.RUnlock? && (pc.ru.TakeRead? || pc.ru.Decrement?))
  }

  predicate WriterInside(pc: Pc) {
    pc.Writing? || pc.WUnlock?
  }

  function ReadOwner(s: State): Option<Pc> { Owner(s.readLock, s.pcs) }

  /** Whether the readers, as a group, have ResourceLock. */
  predicate ReadersOwnResource(s: State) {
    ReadOwner(s) == Some(RUnlock(Ru.GiveResource)) ||
    (s.readCount > 0 && ReadOwner(s) != Some(RLock(Rl.TakeResource)))
  }

  ghost predicate Mutexes(s: State) {
    s.Shaped() && Owned(s.readLock, s.pcs, HoldsReadLock)
  }

  ghost predicate Counters(s: State) {
    && s.readCount == Count(s.pcs, CountedReader)
    && (ReadOwner(s) == Some(RLock(Rl.TakeResource)) ==> s.readCount == 1)
    && (ReadOwner(s) == Some(RUnlock(Ru.GiveResource)) ==> s.readCount == 0)
  }

  ghost predicate Tokens(s: State) {
    Bit(s.resourceLock) + Bit(ReadersOwnResource(s)) + Count(s.pcs, WriterInside) == 1
  }

  ghost predicate Invariant(s: State) {
    Mutexes(s) && Counters(s) && Tokens(s)
  }

  lemma InvariantInitially(programs: seq<seq<Section>>)
    ensures Invariant(Initial(programs))
  {
    var s := Initial(programs);
    CountNone(s.pcs, CountedReader);
    CountNone(s.pcs, WriterInside);
  }

  /** How the counts and the owner of the mutex change when a thread goes from `a` to `b`. */
  ghost predicate Moved(s: State, a: Pc, b: Pc, s': State) {
    && Count(s'.pcs, CountedReader) == Count(s.pcs, CountedReader) - Bit(CountedReader(a)) + Bit(CountedReader(b))
    && Count(s'.pcs, WriterInside) == Count(s.pcs, WriterInside) - Bit(WriterInside(a)) + Bit(WriterInside(b))
    && (CountedReader(a) ==> Count(s.pcs, CountedReader) > 0)
    && (HoldsReadLock(a) ==> ReadOwner(s) == Some(a))
    && (HoldsReadLock(b) && !HoldsReadLock(a) ==> ReadOwner(s) == None)
    && ReadOwner(s') == (if HoldsReadLock(b) then Some(b) else if HoldsReadLock(a) then None else ReadOwner(s))
  }

  lemma Recount(s: State, t: nat, b: Pc, s': State)
    requires Mutexes(s) && t < |s.pcs| && s'.pcs == s.pcs[t := b] && s'.Shaped()
    requires Follows(s.readLock, t, s.pcs[t], b, s'.readLock, HoldsReadLock)
    ensures Mutexes(s') && Moved(s, s.pcs[t], b, s')
  {
    CountUpdate(s.pcs, t, b, CountedReader);
    CountUpdate(s.pcs, t, b, WriterInside);
    OwnedKept(s.readLock, s.pcs, t, b, s'.readLock, HoldsReadLock);
    if CountedReader(s.pcs[t]) {
      CountMember(s.pcs, t, CountedReader);
    }
  }

  lemma ReadersKeep(s: State, t: nat)
    requires Invariant(s) && Enabled(s, t) && (s.pcs[t].RLock? || s.pcs[t].RUnlock?)
    ensures Invariant(Next(s, t))
  {
    Recount(s, t, Next(s, t).pcs[t], Next(s, t));
  }

  lemma OthersKeep(s: State, t: nat)
    requires Invariant(s) && Enabled(s, t) && !s.pcs[t].RLock? && !s.pcs[t].RUnlock?
    ensures Invariant(Next(s, t))
  {
    Recount(s, t, Next(s, t).pcs[t], Next(s, t));
  }

  lemma InvariantKept(s: State, t: nat)
    requires Invariant(s) && Enabled(s, t)
    ensures Invariant(Next(s, t))
  {
    if s.pcs[t].RLock? || s.pcs[t].RUnlock? {
      ReadersKeep(s, t);
      return;
    } else {
      OthersKeep(s, t);
      return;
    }
  }

  // ---------- Whole runs ----------

  ghost predicate Legal(s: State, schedule: seq<nat>)
    decreases |schedule|
  {
    schedule == [] || (Enabled(s, schedule[0]) && Legal(Next(s, schedule[0]), schedule[1..]))
  }

  ghost function Run(s: State, schedule: seq<nat>): State
    requires Legal(s, schedule)
    decreases |schedule|
  {
    if schedule == [] then s else Run(Next(s, schedule[0]), schedule[1..])
  }

  lemma {:induction false} InvariantAlways(s: State, schedule: seq<nat>)
    requires Invariant(s) && Legal(s, schedule)
    ensures Invariant(Run(s, schedule)) && |Run(s, schedule).pcs| == |s.pcs|
    decreases |schedule|
  {
    if schedule != [] {
      InvariantKept(s, schedule[0]);
      InvariantAlways(Next(s, schedule[0]), schedule[1..]);
    }
  }

  // ---------- It is a reader/writer lock ----------

  predicate HoldsRead(pc: Pc) {
    CountedReader(pc) && pc != RLock(Rl.TakeResource)
  }

  ghost function HeldBy(s: State): Held {
    Held(set i | 0 <= i < |s.pcs| && HoldsRead(s.pcs[i]), set i | 0 <= i < |s.pcs| && WriterInside(s.pcs[i]))
  }

  /** The step at which the lock is acquired or released. */
  function EventOf(s: State, t: nat): Event
    requires t < |s.pcs|
  {
    match s.pcs[t]
    case RLock(Increment) => if s.readCount + 1 == 1 then Silent else AcquireRead
    case RLock(TakeResource) => AcquireRead
    case RUnlock(Decrement) => ReleaseRead
    case WLock => AcquireWrite
    case WUnlock => ReleaseWrite
    case _ => Silent
  }

  lemma ReaderOwnsResource(s: State, i: nat)
    requires Invariant(s) && i < |s.pcs| && HoldsRead(s.pcs[i])
    ensures ReadersOwnResource(s) && Count(s.pcs, WriterInside) == 0
  {
    CountMember(s.pcs, i, CountedReader);
    if ReadOwner(s) == Some(RLock(Rl.TakeResource)) {
      var o := s.readLock.value;
      CountTwo(s.pcs, if i < o then i else o, if i < o then o else i, CountedReader);
    }
  }

  lemma Safety(s: State)
    requires Invariant(s)
    ensures Exclusive(HeldBy(s))
  {
    var a := HeldBy(s);
    if w :| w in a.writers {
      CountMember(s.pcs, w, WriterInside);
      forall i | i in a.readers ensures false {
        ReaderOwnsResource(s, i);
      }
      forall v | v in a.writers ensures v == w {
        if v != w {
          CountTwo(s.pcs, if v < w then v else w, if v < w then w else v, WriterInside);
        }
      }
      assert a.writers == {w};
    }
  }

  /** Over every interleaving from creation on: readers only, or one writer and nobody else; and the counter is exact.
    */
  lemma ExclusiveAlways(programs: seq<seq<Section>>, schedule: seq<nat>)
    requires Legal(Initial(programs), schedule)
    ensures var s := Run(Initial(programs), schedule);
      Exclusive(HeldBy(s)) && s.readCount == Count(s.pcs, CountedReader)
  {
    InvariantInitially(programs);
    InvariantAlways(Initial(programs), schedule);
    Safety(Run(Initial(programs), schedule));
  }

  lemma EventGuard(s: State, t: nat)
    requires Invariant(s) && Enabled(s, t)
    ensures EventOf(s, t).AcquireRead? ==> HeldBy(s).writers == {}
    ensures EventOf(s, t).AcquireWrite? ==> HeldBy(s) == Held({}, {})
    ensures EventOf(s, t).ReleaseWrite? ==> HeldBy(s) == Held({}, {t})
  {
    var e, a := EventOf(s, t), HeldBy(s);
    if e.AcquireRead? || e.AcquireWrite? {
      if w :| w in a.writers {
        CountMember(s.pcs, w, WriterInside);
      }
      if r :| e.AcquireWrite? && r in a.readers {
        ReaderOwnsResource(s, r);
      }
    } else if e.ReleaseWrite? {
      Safety(s);
      assert t in a.writers;
      assert |a.writers - {t}| == 0;
    }
  }

  lemma HeldMoves(s: State, t: nat, s': State)
    requires t < |s.pcs| == |s'.pcs| && s'.pcs == s.pcs[t := s'.pcs[t]]
    ensures HeldBy(s') == HeldBy(s).Change(t, HoldsRead(s'.pcs[t]), WriterInside(s'.pcs[t]))
  {
    var a, b, pc := HeldBy(s), HeldBy(s'), s'.pcs[t];
    assert b.readers == if HoldsRead(pc) then a.readers + {t} else a.readers - {t};
    assert b.writers == if WriterInside(pc) then a.writers + {t} else a.writers - {t};
  }

  /** The event of a step says how its thread's hold on the lock changes. */
  lemma EventTells(s: State, t: nat)
    requires Enabled(s, t)
    ensures Next(s, t).pcs == s.pcs[t := Next(s, t).pcs[t]]
    ensures var e, a, b := EventOf(s, t), s.pcs[t], Next(s, t).pcs[t];
      && HoldsRead(b) == (if e.AcquireRead? then true else if e.ReleaseRead? then false else HoldsRead(a))
      && WriterInside(b) == (if e.AcquireWrite? then true else if e.ReleaseWrite? then false else WriterInside(a))
      && (e.AcquireRead? ==> !HoldsRead(a) && !WriterInside(a))
      && (e.ReleaseRead? ==> HoldsRead(a))
  {
  }

  lemma Refines(s: State, t: nat)
    requires Invariant(s) && Enabled(s, t)
    ensures Allowed(HeldBy(s), EventOf(s, t), t, HeldBy(Next(s, t)))
  {
    EventTells(s, t);
    HeldMoves(s, t, Next(s, t));
    EventGuard(s, t);
  }

  /** No semaphore is given while it is full, and a mutex is given only by the thread that took it. */
  lemma GivesMatchTakes(s: State, t: nat)
    requires Invariant(s) && t < |s.pcs|
    ensures s.pcs[t] == RUnlock(Ru.GiveResource) || s.pcs[t].WUnlock? ==> !s.resourceLock
    ensures s.pcs[t] == RLock(Rl.GiveRead) || s.pcs[t] == RUnlock(Ru.GiveRead) ==> s.readLock == Some(t)
    ensures s.pcs[t] == RLock(Rl.Increment) || s.pcs[t] == RUnlock(Ru.Decrement) ==> s.readLock == Some(t)
    ensures s.pcs[t] == RUnlock(Ru.Decrement) ==> s.readCount > 0
  {
    if WriterInside(s.pcs[t]) {
      CountMember(s.pcs, t, WriterInside);
    } else if CountedReader(s.pcs[t]) {
      CountMember(s.pcs, t, CountedReader);
    }
  }

  // ---------- Deadlock freedom and completion ----------

  ghost predicate Done(s: State) {
    s.Shaped() && forall i :: 0 <= i < |s.pcs| ==> s.pcs[i].Idle? && s.todo[i] == []
  }

  /** The owner of ReadLock can move, or waits for a writer that can. */
  lemma ReadOwnerMoves(s: State) returns (t: nat)
    requires Invariant(s) && s.readLock.Some?
    ensures Enabled(s, t)
  {
    t := s.readLock.value;
    if s.pcs[t] == RLock(Rl.TakeResource) && !s.resourceLock {
      t := CountWitness(s.pcs, WriterInside);
    }
  }

  lemma NeverStuck(s: State) returns (t: nat)
    requires Invariant(s) && !Done(s)
    ensures Enabled(s, t)
  {
    t :| t < |s.pcs| && !(s.pcs[t].Idle? && s.todo[t] == []);
    if s.readLock.Some? {
      t := ReadOwnerMoves(s);
    } else if s.pcs[t].WLock? && !s.resourceLock {
      if Count(s.pcs, WriterInside) > 0 {
        t := CountWitness(s.pcs, WriterInside);
      } else {
        t := CountWitness(s.pcs, CountedReader);
      }
    }
  }

  /** How many steps are left of the section a thread is in. */
  function Rank(pc: Pc): nat {
    match pc
    case Idle => 0
    case RLock(at) => (match at case TakeRead => 9 case Increment => 8 case TakeResource => 7 case GiveRead => 6)
    case Reading => 5
    case RUnlock(at) => (match at case TakeRead => 4 case Decrement => 3 case GiveResource => 2 case GiveRead => 1)
    case WLock => 3
    case Writing => 2
    case WUnlock => 1
  }

  /** An upper bound of the steps left: a whole section takes at most ten. */
  ghost function Work(pcs: seq<Pc>, todo: seq<seq<Section>>): nat
    requires |pcs| == |todo|
  {
    if pcs == [] then 0 else Rank(pcs[0]) + 10 * |todo[0]| + Work(pcs[1..], todo[1..])
  }

  lemma {:induction false} WorkUpdate(pcs: seq<Pc>, todo: seq<seq<Section>>, t: nat, pc: Pc, rest: seq<Section>)
    requires |pcs| == |todo| && t < |pcs|
    ensures Work(pcs[t := pc], todo[t := rest]) ==
      Work(pcs, todo) - Rank(pcs[t]) - 10 * |todo[t]| + Rank(pc) + 10 * |rest|
  {
    var pcs', todo' := pcs[t := pc], todo[t := rest];
    if t == 0 {
      assert pcs'[1..] == pcs[1..] && todo'[1..] == todo[1..];
    } else {
      assert pcs'[1..] == pcs[1..][t - 1 := pc] && todo'[1..] == todo[1..][t - 1 := rest];
      WorkUpdate(pcs[1..], todo[1..], t - 1, pc, rest);
    }
  }

  lemma WorkDecreases(s: State, t: nat)
    requires Enabled(s, t)
    ensures Next(s, t).Shaped()
    ensures Work(Next(s, t).pcs, Next(s, t).todo) < Work(s.pcs, s.todo)
  {
    var s' := Next(s, t);
    assert s'.todo == s.todo[t := s'.todo[t]];
    WorkUpdate(s.pcs, s.todo, t, s'.pcs[t], s'.todo[t]);
  }

  lemma {:induction false} WorkBoundsSteps(s: State, schedule: seq<nat>)
    requires s.Shaped() && Legal(s, schedule)
    ensures |schedule| <= Work(s.pcs, s.todo)
    decreases |schedule|
  {
    if schedule != [] {
      WorkDecreases(s, schedule[0]);
      WorkBoundsSteps(Next(s, schedule[0]), schedule[1..]);
    }
  }

  function Sections(programs: seq<seq<Section>>): nat {
    if programs == [] then 0 else |programs[0]| + Sections(programs[1..])
  }

  lemma {:induction false} InitialWork(programs: seq<seq<Section>>)
    ensures Work(Initial(programs).pcs, programs) == 10 * Sections(programs)
  {
    if programs != [] {
      assert Initial(programs).pcs[1..] == Initial(programs[1..]).pcs;
      InitialWork(programs[1..]);
    }
  }

  /** No run goes on forever: a section takes ten steps at most, however the threads are interleaved. */
  lemma RunsEnd(programs: seq<seq<Section>>, schedule: seq<nat>)
    requires Legal(Initial(programs), schedule)
    ensures |schedule| <= 10 * Sections(programs)
  {
    WorkBoundsSteps(Initial(programs), schedule);
    InitialWork(programs);
  }

  /** A run that cannot be continued has run every section, and leaves the lock as it was created. */
  lemma Completion(programs: seq<seq<Section>>, schedule: seq<nat>)
    requires Legal(Initial(programs), schedule)
    requires forall t :: !Enabled(Run(Initial(programs), schedule), t)
    ensures Run(Initial(programs), schedule) == Initial(seq(|programs|, i => []))
  {
    var s := Run(Initial(programs), schedule);
    InvariantInitially(programs);
    InvariantAlways(Initial(programs), schedule);
    if !Done(s) {
      var t := NeverStuck(s);
    }
    CountNone(s.pcs, CountedReader);
    CountNone(s.pcs, WriterInside);
    assert s.pcs == seq(|programs|, i => Idle) && s.todo == seq(|programs|, i => []);
  }

  lemma {:induction false} Then(s: State, a: seq<nat>, b: seq<nat>)
    requires Legal(s, a) && Legal(Run(s, a), b)
    ensures Legal(s, a + b) && Run(s, a + b) == Run(Run(s, a), b)
    decreases |a|
  {
    if a == [] {
      assert a + b == b;
    } else {
      assert (a + b)[1..] == a[1..] + b;
      Then(Next(s, a[0]), a[1..], b);
    }
  }

  lemma First(s: State, t: nat, rest: seq<nat>)
    requires Enabled(s, t) && Legal(Next(s, t), rest)
    ensures Legal(s, [t] + rest) && Run(s, [t] + rest) == Run(Next(s, t), rest)
  {
    assert ([t] + rest)[1..] == rest;
  }

  // ---------- The sections of the programs ----------

  /** The section of its program that a thread has called for and has not been through. */
  function Asked(pc: Pc): seq<Section> {
    match pc case RLock(_) | Reading => [Read] case WLock | Writing => [Write] case _ => []
  }

  /** The section whose code a thread executes when it moves. */
  function Entered(pc: Pc): seq<Section> {
    match pc case Reading => [Read] case Writing => [Write] case _ => []
  }

  /** The sections whose code thread `t` executes in a run. */
  ghost function Visits(s: State, schedule: seq<nat>, t: nat): seq<Section>
    requires Legal(s, schedule)
    decreases |schedule|
  {
    if schedule == [] then []
    else (if schedule[0] == t then Entered(s.pcs[t]) else []) + Visits(Next(s, schedule[0]), schedule[1..], t)
  }

  lemma ReaderSection(s: State, t: nat)
    requires Enabled(s, t) && (s.pcs[t].RLock? || s.pcs[t].RUnlock? || s.pcs[t].Reading?)
    ensures var s' := Next(s, t);
      && s'.pcs == s.pcs[t := s'.pcs[t]] && s'.todo == s.todo
      && Asked(s.pcs[t]) == Entered(s.pcs[t]) + Asked(s'.pcs[t])
  {
  }

  lemma WriterSection(s: State, t: nat)
    requires Enabled(s, t) && (s.pcs[t].WLock? || s.pcs[t].WUnlock? || s.pcs[t].Writing?)
    ensures var s' := Next(s, t);
      && s'.pcs == s.pcs[t := s'.pcs[t]] && s'.todo == s.todo
      && Asked(s.pcs[t]) == Entered(s.pcs[t]) + Asked(s'.pcs[t])
  {
  }

  lemma CalledSection(s: State, t: nat)
    requires Enabled(s, t) && s.pcs[t].Idle?
    ensures var s' := Next(s, t);
      && s'.pcs == s.pcs[t := s'.pcs[t]] && s'.todo == s.todo[t := s.todo[t][1..]]
      && Asked(s'.pcs[t]) == [s.todo[t][0]]
  {
  }

  lemma SectionStep(s: State, t: nat, i: nat)
    requires Enabled(s, t) && i < |s.pcs|
    ensures var s' := Next(s, t);
      && s'.Shaped() && |s'.pcs| == |s.pcs|
      && Asked(s.pcs[i]) + s.todo[i] ==
         (if i == t then Entered(s.pcs[t]) else []) + (Asked(s'.pcs[i]) + s'.todo[i])
  {
    if s.pcs[t].Idle? {
      CalledSection(s, t);
      assert s.todo[t] == [s.todo[t][0]] + s.todo[t][1..];
      return;
    } else if s.pcs[t].RLock? || s.pcs[t].RUnlock? || s.pcs[t].Reading? {
      ReaderSection(s, t);
      return;
    } else {
      WriterSection(s, t);
      return;
    }
  }

  lemma {:induction false} SectionsAlways(s: State, schedule: seq<nat>, t: nat)
    requires s.Shaped() && Legal(s, schedule) && t < |s.pcs|
    ensures var s' := Run(s, schedule);
      && s'.Shaped() && |s'.pcs| == |s.pcs|
      && Asked(s.pcs[t]) + s.todo[t] == Visits(s, schedule, t) + (Asked(s'.pcs[t]) + s'.todo[t])
    decreases |schedule|
  {
    if schedule != [] {
      SectionStep(s, schedule[0], t);
      SectionsAlways(Next(s, schedule[0]), schedule[1..], t);
    }
  }

  /** Over every interleaving: the sections a thread has been through, the one it is in, and those it has still to run
      are its program.
    */
  lemma SectionsAsAsked(programs: seq<seq<Section>>, schedule: seq<nat>, t: nat)
    requires Legal(Initial(programs), schedule) && t < |programs|
    ensures var s := Run(Initial(programs), schedule);
      && s.Shaped() && |s.pcs| == |programs|
      && programs[t] == Visits(Initial(programs), schedule, t) + (Asked(s.pcs[t]) + s.todo[t])
  {
    SectionsAlways(Initial(programs), schedule, t);
  }

  /** In the client's own code between lock and unlock. */
  predicate InSection(pc: Pc) { pc.Reading? || pc.Writing? }

  /** The section of its program that a thread is in. */
  ghost function SectionOf(programs: seq<seq<Section>>, schedule: seq<nat>, t: nat): (n: nat)
    requires Legal(Initial(programs), schedule) && t < |programs|
  {
    |Visits(Initial(programs), schedule, t)|
  }

  lemma OneOnly(a: set<nat>, i: nat, j: nat)
    requires |a| == 1 && i in a && j in a
    ensures i == j
  {
    assert |a - {i}| == 0;
  }

  /** Two threads are in sections of their programs at once only if both sections are Read. */
  lemma OnlyReadsShare(programs: seq<seq<Section>>, schedule: seq<nat>, i: nat, j: nat)
    requires Legal(Initial(programs), schedule) && i < |programs| && j < |programs| && i != j
    requires var s := Run(Initial(programs), schedule);
      |s.pcs| == |programs| && InSection(s.pcs[i]) && InSection(s.pcs[j])
    ensures var n, m := SectionOf(programs, schedule, i), SectionOf(programs, schedule, j);
      n < |programs[i]| && programs[i][n] == Read && m < |programs[j]| && programs[j][m] == Read
  {
    SectionsAsAsked(programs, schedule, i);
    SectionsAsAsked(programs, schedule, j);
    ExclusiveAlways(programs, schedule);
    var a := HeldBy(Run(Initial(programs), schedule));
    assert Run(Initial(programs), schedule).pcs[i].Writing? ==> i in a.writers;
    assert Run(Initial(programs), schedule).pcs[j].Writing? ==> j in a.writers;
    assert Run(Initial(programs), schedule).pcs[i].Reading? ==> i in a.readers;
    assert Run(Initial(programs), schedule).pcs[j].Reading? ==> j in a.readers;
    if i in a.writers && j in a.writers {
      OneOnly(a.writers, i, j);
    }
  }

  /** A run that cannot be continued has executed the code of every section of every program, in order. */
  lemma AllSectionsVisited(programs: seq<seq<Section>>, schedule: seq<nat>, t: nat)
    requires Legal(Initial(programs), schedule) && t < |programs|
    requires forall u :: !Enabled(Run(Initial(programs), schedule), u)
    ensures Visits(Initial(programs), schedule, t) == programs[t]
  {
    Completion(programs, schedule);
    SectionsAsAsked(programs, schedule, t);
  }

  /** No thread holds or waits for anything but the readers inside. */
  ghost predicate OnlyReaders(s: State) {
    && s.Shaped() && s.readCount >= 0 && s.readLock.None? && s.resourceLock == (s.readCount == 0)
  }

  /** A reader that calls when only readers are inside joins them. */
  lemma ReaderJoins(s: State, t: nat) returns (schedule: seq<nat>)
    requires OnlyReaders(s) && t < |s.pcs| && s.pcs[t].Idle? && s.todo[t] != [] && s.todo[t][0] == Read
    ensures Legal(s, schedule)
    ensures Run(s, schedule) ==
      s.(pcs := s.pcs[t := Reading], todo := s.todo[t := s.todo[t][1..]], readCount := s.readCount + 1,
         resourceLock := false)
  {
    var s1 := Next(s, t);
    var s2 := Next(s1, t);
    var s3 := Next(s2, t);
    var s4 := Next(s3, t);
    if s.readCount > 0 {
      First(s3, t, []);
      First(s2, t, [t]);
      First(s1, t, [t, t]);
      First(s, t, [t, t, t]);
      return [t] + [t, t, t];
    }
    var s5 := Next(s4, t);
    First(s4, t, []);
    First(s3, t, [t]);
    First(s2, t, [t, t]);
    First(s1, t, [t, t, t]);
    First(s, t, [t, t, t, t]);
    return [t] + [t, t, t, t];
  }

  lemma {:induction false} ReadersJoin(s: State, k: nat) returns (schedule: seq<nat>)
    requires OnlyReaders(s) && k <= |s.pcs|
    requires forall i :: 0 <= i < k ==> s.pcs[i].Idle? && s.todo[i] != [] && s.todo[i][0] == Read
    ensures Legal(s, schedule) && Run(s, schedule).Shaped() && |Run(s, schedule).pcs| == |s.pcs|
    ensures forall i :: 0 <= i < k ==> Run(s, schedule).pcs[i].Reading?
    ensures forall i :: k <= i < |s.pcs| ==> Run(s, schedule).pcs[i] == s.pcs[i]
    decreases k
  {
    if k == 0 {
      return [];
    }
    var a := ReaderJoins(s, k - 1);
    var s1 := Run(s, a);
    var b := ReadersJoin(s1, k - 1);
    Then(s, a, b);
    schedule := a + b;
  }

  /** Any number of Read sections can be inside together. */
  lemma ReadsShare(n: nat) returns (schedule: seq<nat>)
    ensures var programs := seq(n, i => [Read]);
      && Legal(Initial(programs), schedule) && |Run(Initial(programs), schedule).pcs| == n
      && (forall i :: 0 <= i < n ==> Run(Initial(programs), schedule).pcs[i].Reading?)
  {
    schedule := ReadersJoin(Initial(seq(n, i => [Read])), n);
  }

  // ---------- Readers are preferred: a writer can starve ----------

  /** Thread `w` waits for ResourceLock in vain in every state of the run. */
  ghost predicate Starves(s: State, schedule: seq<nat>, w: nat)
    requires Legal(s, schedule)
    decreases |schedule|
  {
    && w < |s.pcs| && s.pcs[w].WLock? && !s.resourceLock
    && (schedule != [] ==> schedule[0] != w && Starves(Next(s, schedule[0]), schedule[1..], w))
  }

  /** Reader `r` is inside, reader `q` has not come yet, and writer `w` waits. */
  ghost predicate HandOver(s: State, r: nat, q: nat, w: nat) {
    && s.Shaped() && r < |s.pcs| && q < |s.pcs| && w < |s.pcs| && r != q
    && s.pcs[r].Reading? && s.pcs[q].Idle? && s.pcs[w].WLock?
    && s.readCount == 1 && s.readLock.None? && !s.resourceLock
  }

  /** Reader `q` comes in before reader `r` leaves. */
  lemma Comes(s: State, r: nat, q: nat, w: nat)
    requires HandOver(s, r, q, w) && s.todo[q] != [] && s.todo[q][0] == Read
    ensures Legal(s, [q, q, q, q]) && Starves(s, [q, q, q, q], w)
    ensures Run(s, [q, q, q, q]) ==
      s.(pcs := s.pcs[q := Reading], todo := s.todo[q := s.todo[q][1..]], readCount := 2)
  {
    var s1 := Next(s, q);
    var s2 := Next(s1, q);
    var s3 := Next(s2, q);
    var s4 := Next(s3, q);
    assert s4 == s.(pcs := s.pcs[q := Reading], todo := s.todo[q := s.todo[q][1..]], readCount := 2);
    Prepend(s3, q, [], w);
    Prepend(s2, q, [q], w);
    Prepend(s1, q, [q, q], w);
    Prepend(s, q, [q, q, q], w);
  }

  lemma Leaves(s: State, r: nat, w: nat)
    requires s.Shaped() && r < |s.pcs| && w < |s.pcs|
    requires s.pcs[r].Reading? && s.pcs[w].WLock? && s.readCount == 2 && s.readLock.None? && !s.resourceLock
    ensures Legal(s, [r, r, r, r]) && Starves(s, [r, r, r, r], w)
    ensures Run(s, [r, r, r, r]) == s.(pcs := s.pcs[r := Idle], readCount := 1)
  {
    var s1 := Next(s, r);
    var s2 := Next(s1, r);
    var s3 := Next(s2, r);
    var s4 := Next(s3, r);
    assert s4 == s.(pcs := s.pcs[r := Idle], readCount := 1);
    Prepend(s3, r, [], w);
    Prepend(s2, r, [r], w);
    Prepend(s1, r, [r, r], w);
    Prepend(s, r, [r, r, r], w);
  }

  lemma Prepend(s: State, t: nat, rest: seq<nat>, w: nat)
    requires Enabled(s, t) && t != w && w < |s.pcs| && s.pcs[w].WLock? && !s.resourceLock
    requires Legal(Next(s, t), rest) && Starves(Next(s, t), rest, w)
    ensures Legal(s, [t] + rest) && Run(s, [t] + rest) == Run(Next(s, t), rest) && Starves(s, [t] + rest, w)
  {
    First(s, t, rest);
    assert ([t] + rest)[1..] == rest;
  }

  lemma {:induction false} RunsCompose(s: State, a: seq<nat>, b: seq<nat>, w: nat)
    requires Legal(s, a) && Legal(Run(s, a), b) && Starves(s, a, w) && Starves(Run(s, a), b, w)
    ensures Legal(s, a + b) && Run(s, a + b) == Run(Run(s, a), b) && Starves(s, a + b, w)
    decreases |a|
  {
    if a == [] {
      assert a + b == b;
    } else {
      assert (a + b)[1..] == a[1..] + b;
      RunsCompose(Next(s, a[0]), a[1..], b, w);
    }
  }

  /** Two readers that take turns keep a waiting writer out for as long as they have sections to run: with `n`
      sections each, for 16 * n steps.
    */
  lemma {:induction false} TakeTurns(s: State, r: nat, q: nat, w: nat, n: nat) returns (schedule: seq<nat>)
    requires HandOver(s, r, q, w) && |s.todo[r]| >= n && |s.todo[q]| >= n
    requires (forall i :: 0 <= i < n ==> s.todo[r][i] == Read && s.todo[q][i] == Read)
    ensures |schedule| == 16 * n && Legal(s, schedule) && Starves(s, schedule, w)
    decreases n
  {
    if n == 0 {
      return [];
    }
    var s1, turn1 := HandOverOnce(s, r, q, w);
    var s2, turn2 := HandOverOnce(s1, q, r, w);
    var rest := TakeTurns(s2, r, q, w, n - 1);
    RunsCompose(s1, turn2, rest, w);
    RunsCompose(s, turn1, turn2 + rest, w);
    schedule := turn1 + (turn2 + rest);
  }

  lemma HandOverOnce(s: State, r: nat, q: nat, w: nat) returns (s': State, schedule: seq<nat>)
    requires HandOver(s, r, q, w) && s.todo[q] != [] && s.todo[q][0] == Read
    ensures |schedule| == 8 && Legal(s, schedule) && s' == Run(s, schedule) && Starves(s, schedule, w)
    ensures HandOver(s', q, r, w) && s'.todo == s.todo[q := s.todo[q][1..]]
  {
    Comes(s, r, q, w);
    var m := Run(s, [q, q, q, q]);
    Leaves(m, r, w);
    RunsCompose(s, [q, q, q, q], [r, r, r, r], w);
    schedule := [q, q, q, q] + [r, r, r, r];
    s' := Run(s, schedule);
  }

  function Reads(n: nat): seq<Section> { seq(n, i => Read) }

  /** Two readers and a writer. */
  function Starving(n: nat): seq<seq<Section>> { [Reads(n + 1), Reads(n), [Write]] }

  /** Reader 0 comes in, and then writer 2 calls WriterLock. */
  const OPENING: seq<nat> := [0, 0, 0, 0, 0, 2]

  lemma Opens(n: nat)
    ensures Legal(Initial(Starving(n)), OPENING)
    ensures var s := Run(Initial(Starving(n)), OPENING);
      HandOver(s, 0, 1, 2) && s.todo == [Reads(n), Reads(n), []]
  {
    var s0 := Initial(Starving(n));
    assert s0.pcs == [Idle, Idle, Idle];
    assert Reads(n + 1)[1..] == Reads(n) && [Write][1..] == [];
    var s1 := Next(s0, 0);
    assert s1.todo == [Reads(n), Reads(n), [Write]];
    var s2 := Next(s1, 0);
    var s3 := Next(s2, 0);
    var s4 := Next(s3, 0);
    var s5 := Next(s4, 0);
    var s6 := Next(s5, 2);
    assert s6.pcs == [Reading, Idle, WLock];
    First(s5, 2, []);
    First(s4, 0, [2]);
    First(s3, 0, [0, 2]);
    First(s2, 0, [0, 0, 2]);
    First(s1, 0, [0, 0, 0, 2]);
    First(s0, 0, [0, 0, 0, 0, 2]);
  }

  /** For every n, from creation: a writer that waits for 16 * n steps, in which readers that came after it are let
      in.
    */
  lemma WriterStarves(n: nat) returns (schedule: seq<nat>)
    ensures Legal(Initial(Starving(n)), OPENING)
    ensures var s := Run(Initial(Starving(n)), OPENING);
      |schedule| == 16 * n && Legal(s, schedule) && Starves(s, schedule, 2)
  {
    Opens(n);
    schedule := TakeTurns(Run(Initial(Starving(n)), OPENING), 0, 1, 2, n);
  }

  // ---------- The lock itself ----------

  /** The lock and the threads that use it, changed in place one statement at a time. */
  class Lock {
    var readCount: int
    var readLock: Mutex
    var resourceLock: bool
    var pcs: seq<Pc>
    var todo: seq<seq<Section>>

    ghost function Value(): State
      reads this
    {
      State(readCount, readLock, resourceLock, pcs, todo)
    }

    constructor (programs: seq<seq<Section>>)
      ensures Value() == Initial(programs)
    {
      readCount, readLock, resourceLock := 0, None, true;
      pcs, todo := seq(|programs|, i => Idle), programs;
    }

    method ReaderLockStep(t: nat)
      requires Enabled(Value(), t) && pcs[t].RLock?
      modifies this
      ensures Value() == Next(old(Value()), t)
    {
      match pcs[t].rl
      case TakeRead =>
        readLock := Some(t);
        pcs := pcs[t := RLock(Rl.Increment)];
      case Increment =>
        readCount := readCount + 1;
        pcs := pcs[t := RLock(if readCount == 1 then Rl.TakeResource else Rl.GiveRead)];
      case TakeResource =>
        resourceLock := false;
        pcs := pcs[t := RLock(Rl.GiveRead)];
      case GiveRead =>
        readLock := None;
        pcs := pcs[t := Reading];
    }

    method ReaderUnlockStep(t: nat)
      requires Enabled(Value(), t) && pcs[t].RUnlock?
      modifies this
      ensures Value() == Next(old(Value()), t)
    {
      match pcs[t].ru
      case TakeRead =>
        readLock := Some(t);
        pcs := pcs[t := RUnlock(Ru.Decrement)];
      case Decrement =>
        readCount := readCount - 1;
        pcs := pcs[t := RUnlock(if readCount == 0 then Ru.GiveResource else Ru.GiveRead)];
      case GiveResource =>
        resourceLock := true;
        pcs := pcs[t := RUnlock(Ru.GiveRead)];
      case GiveRead =>
        readLock := None;
        pcs := pcs[t := Idle];
    }

    /** WriterLock, WriterUnlock and the client's own steps. */
    method OtherStep(t: nat)
      requires Enabled(Value(), t) && !pcs[t].RLock? && !pcs[t].RUnlock?
      modifies this
      ensures Value() == Next(old(Value()), t)
    {
      match pcs[t]
      case Idle =>
        pcs := pcs[t := if todo[t][0] == Read then RLock(Rl.TakeRead) else WLock];
        todo := todo[t := todo[t][1..]];
      case Reading =>
        pcs := pcs[t := RUnlock(Ru.TakeRead)];
      case WLock =>
        resourceLock := false;
        pcs := pcs[t := Writing];
      case Writing =>
        pcs := pcs[t := WUnlock];
      case WUnlock =>
        resourceLock := true;
        pcs := pcs[t := Idle];
    }

    method Step(t: nat)
      requires Invariant(Value()) && Enabled(Value(), t)
      modifies this
      ensures Value() == Next(old(Value()), t) && Invariant(Value())
    {
      InvariantKept(Value(), t);
      match pcs[t]
      case RLock(_) => ReaderLockStep(t);
      case RUnlock(_) => ReaderUnlockStep(t);
      case _ => OtherStep(t);
    }

    /** Runs any interleaving. */
    method Execute(schedule: seq<nat>)
      requires Invariant(Value()) && Legal(Value(), schedule)
      modifies this
      ensures Value() == Run(old(Value()), schedule)
      ensures Exclusive(HeldBy(Value()))
    {
      var k := 0;
      while k < |schedule|
        invariant k <= |schedule| && Invariant(Value()) && Legal(Value(), schedule[k..])
        invariant Run(Value(), schedule[k..]) == Run(old(Value()), schedule)
      {
        Step(schedule[k]);
        k := k + 1;
      }
      Safety(Value());
    }
  }
}
