/** The reader/writer lock that prefers writers (the `RwPreferWriter` branches of read_write_lock.c and the class
    ReadWriteLockPreferWriter of cread_write_lock.cpp), used by any number of threads.

    Every take, every give and every change of a counter (with the test of the new value that follows it) is one atomic
    step of one thread, so a schedule, the sequence of the threads that move, stands for one interleaving. Each thread
    runs a finite program of matched read and write sections.
  */
module PreferWriterLock {
  import opened FreeRtos
  import opened Counting
  import opened ReadWriteLockSpec

  datatype Section = Read | Write

  // The statements of the four functions, each named after what it is about to do.
  datatype Rl = TakeBlock | TakeRead | Increment | TakeResource | GiveRead | GiveBlock
  datatype Ru = TakeRead | Decrement | GiveResource | GiveRead
  datatype Wl = TakeWrite | Increment | TakeBlock | GiveWrite | TakeResource
  datatype Wu = GiveResource | TakeWrite | Decrement | GiveBlock | GiveWrite

  /** Where a thread is; `Reading` and `Writing` are the client's own code between lock and unlock. */
  datatype Pc =
    | Idle
    | RLock(rl: Rl)
    | Reading
    | RUnlock(ru: Ru)
    | WLock(wl: Wl)
    | Writing
    | WUnlock(wu: Wu)

  datatype State = State(
    readCount: int, writeCount: int,
    readLock: Mutex, writeLock: Mutex,
    resourceLock: bool, blockReadersLock: bool,
    pcs: seq<Pc>, todo: seq<seq<Section>>)
  {
    predicate Shaped() {
      |todo| == |pcs|
    }

    function Go(t: nat, pc: Pc): State
      requires t < |pcs|
    {
      this.(pcs := pcs[t := pc])
    }
  }

  function Initial(programs: seq<seq<Section>>): State {
    State(0, 0, None, None, true, true, seq(|programs|, i => Idle), programs)
  }

  /** Whether thread `t` can move; a thread at a take waits for the token, and a finished thread has nothing to do. */
  predicate Enabled(s: State, t: nat) {
    s.Shaped() && t < |s.pcs| &&
    match s.pcs[t]
    case Idle => s.todo[t] != []
    case RLock(at) =>
      && (at.TakeBlock? ==> s.blockReadersLock)
      && (at.TakeRead? ==> s.readLock.None?)
      && (at.TakeResource? ==> s.resourceLock)
    case RUnlock(at) => at.TakeRead? ==> s.readLock.None?
    case WLock(at) =>
      && (at.TakeWrite? ==> s.writeLock.None?)
      && (at.TakeBlock? ==> s.blockReadersLock)
      && (at.TakeResource? ==> s.resourceLock)
    case WUnlock(at) => at.TakeWrite? ==> s.writeLock.None?
    case _ => true
  }

  function ReaderLock(s: State, t: nat, at: Rl): State
    requires t < |s.pcs|
  {
    match at
    case TakeBlock => s.Go(t, RLock(Rl.TakeRead)).(blockReadersLock := false)
    case TakeRead => s.Go(t, RLock(Rl.Increment)).(readLock := Some(t))
    case Increment =>
      s.Go(t, RLock(if s.readCount + 1 == 1 then Rl.TakeResource else Rl.GiveRead)).(readCount := s.readCount + 1)
    case TakeResource => s.Go(t, RLock(Rl.GiveRead)).(resourceLock := false)
    case GiveRead => s.Go(t, RLock(Rl.GiveBlock)).(readLock := None)
    case GiveBlock => s.Go(t, Reading).(blockReadersLock := true)
  }

  function ReaderUnlock(s: State, t: nat, at: Ru): State
    requires t < |s.pcs|
  {
    match at
    case TakeRead => s.Go(t, RUnlock(Ru.Decrement)).(readLock := Some(t))
    case Decrement =>
      s.Go(t, RUnlock(if s.readCount - 1 == 0 then Ru.GiveResource else Ru.GiveRead)).(readCount := s.readCount - 1)
    case GiveResource => s.Go(t, RUnlock(Ru.GiveRead)).(resourceLock := true)
    case GiveRead => s.Go(t, Idle).(readLock := None)
  }

  function WriterLock(s: State, t: nat, at: Wl): State
    requires t < |s.pcs|
  {
    match at
    case TakeWrite => s.Go(t, WLock(Wl.Increment)).(writeLock := Some(t))
    case Increment =>
      s.Go(t, WLock(if s.writeCount + 1 == 1 then Wl.TakeBlock else Wl.GiveWrite)).(writeCount := s.writeCount + 1)
    case TakeBlock => s.Go(t, WLock(Wl.GiveWrite)).(blockReadersLock := false)
    case GiveWrite => s.Go(t, WLock(Wl.TakeResource)).(writeLock := None)
    case TakeResource => s.Go(t, Writing).(resourceLock := false)
  }

  function WriterUnlock(s: State, t: nat, at: Wu): State
    requires t < |s.pcs|
  {
    match at
    case GiveResource => s.Go(t, WUnlock(Wu.TakeWrite)).(resourceLock := true)
    case TakeWrite => s.Go(t, WUnlock(Wu.Decrement)).(writeLock := Some(t))
    case Decrement =>
      s.Go(t, WUnlock(if s.writeCount - 1 == 0 then Wu.GiveBlock else Wu.GiveWrite)).(writeCount := s.writeCount - 1)
    case GiveBlock => s.Go(t, WUnlock(Wu.GiveWrite)).(blockReadersLock := true)
    case GiveWrite => s.Go(t, Idle).(writeLock := None)
  }

  /** The state after thread `t` executes the statement it is at. */
  function Next(s: State, t: nat): State
    requires Enabled(s, t)
  {
    match s.pcs[t]
    case Idle =>
      var entry := if s.todo[t][0] == Read then RLock(Rl.TakeBlock) else WLock(Wl.TakeWrite);
      s.Go(t, entry).(todo := s.todo[t := s.todo[t][1..]])
    case RLock(at) => ReaderLock(s, t, at)
    case Reading => s.Go(t, RUnlock(Ru.TakeRead))
    case RUnlock(at) => ReaderUnlock(s, t, at)
    case WLock(at) => WriterLock(s, t, at)
    case Writing => s.Go(t, WUnlock(Wu.GiveResource))
    case WUnlock(at) => WriterUnlock(s, t, at)
  }

  // ---------- The invariant ----------

  predicate HoldsReadLock(pc: Pc) {
    || (pc.RLock? && (pc.rl.Increment? || pc.rl.TakeResource? || pc.rl.GiveRead?))
    || (pc.RUnlock? && !pc.ru.TakeRead?)
  }

  predicate HoldsWriteLock(pc: Pc) {
    || (pc.WLock? && (pc.wl.Increment? || pc.wl.TakeBlock? || pc.wl.GiveWrite?))
    || (pc.WUnlock? && (pc.wu.Decrement? || pc.wu.GiveBlock? || pc.wu.GiveWrite?))
  }

  /** Readers that ReadCount stands for. */
  predicate CountedReader(pc: Pc) {
    || (pc.RLock? && (pc.rl.TakeResource? || pc.rl.GiveRead? || pc.rl.GiveBlock?))
    || pc.Reading?
    || (pc.RUnlock? && (pc.ru.TakeRead? || pc.ru.Decrement?))
  }

  /** Writers that WriteCount stands for. */
  predicate CountedWriter(pc: Pc) {
    || (pc.WLock? && (pc.wl.TakeBlock? || pc.wl.GiveWrite? || pc.wl.TakeResource?))
    || pc.Writing?
    || (pc.WUnlock? && (pc.wu.GiveResource? || pc.wu.TakeWrite? || pc.wu.Decrement?))
  }

  /** Readers between taking BlockReadersLock and giving it back. */
  predicate EnteringReader(pc: Pc) {
    pc.RLock? && !pc.rl.TakeBlock?
  }

  /** Writers between taking ResourceLock and giving it back. */
  predicate WriterInside(pc: Pc) {
    pc.Writing? || (pc.WUnlock? && pc.wu.GiveResource?)
  }

  function ReadOwner(s: State): Option<Pc> { Owner(s.readLock, s.pcs) }

  function WriteOwner(s: State): Option<Pc> { Owner(s.writeLock, s.pcs) }

  /** Whether the readers, as a group, have ResourceLock. */
  predicate ReadersOwnResource(s: State) {
    ReadOwner(s) == Some(RUnlock(Ru.GiveResource)) ||
    (s.readCount > 0 && ReadOwner(s) != Some(RLock(Rl.TakeResource)))
  }

  /** Whether the writers, as a group, have BlockReadersLock. */
  predicate WritersBlockReaders(s: State) {
    WriteOwner(s) == Some(WUnlock(Wu.GiveBlock)) ||
    (s.writeCount > 0 && WriteOwner(s) != Some(WLock(Wl.TakeBlock)))
  }

  /** Each mutex belongs to the one thread inside its section. */
  ghost predicate Mutexes(s: State) {
    && s.Shaped()
    && Owned(s.readLock, s.pcs, HoldsReadLock)
    && Owned(s.writeLock, s.pcs, HoldsWriteLock)
  }

  /** The counters are exact, and the branches taken on them still hold. */
  ghost predicate Counters(s: State) {
    && s.readCount == Count(s.pcs, CountedReader)
    && s.writeCount == Count(s.pcs, CountedWriter)
    && (ReadOwner(s) == Some(RLock(Rl.TakeResource)) ==> s.readCount == 1)
    && (ReadOwner(s) == Some(RUnlock(Ru.GiveResource)) ==> s.readCount == 0)
    && (WriteOwner(s) == Some(WLock(Wl.TakeBlock)) ==> s.writeCount == 1)
    && (WriteOwner(s) == Some(WUnlock(Wu.GiveBlock)) ==> s.writeCount == 0)
  }

  /** The token of each semaphore is in exactly one place. */
  ghost predicate Tokens(s: State) {
    && Bit(s.resourceLock) + Bit(ReadersOwnResource(s)) + Count(s.pcs, WriterInside) == 1
    && Bit(s.blockReadersLock) + Bit(WritersBlockReaders(s)) + Count(s.pcs, EnteringReader) == 1
  }

  ghost predicate Invariant(s: State) {
    Mutexes(s) && Counters(s) && Tokens(s)
  }

  lemma InvariantInitially(programs: seq<seq<Section>>)
    ensures Invariant(Initial(programs))
  {
    var s := Initial(programs);
    CountNone(s.pcs, CountedReader);
    CountNone(s.pcs, CountedWriter);
    CountNone(s.pcs, EnteringReader);
    CountNone(s.pcs, WriterInside);
  }

  /** How the counts and the owners of the mutexes change when a thread goes from `a` to `b`. */
  ghost predicate Moved(s: State, a: Pc, b: Pc, s': State) {
    && Count(s'.pcs, CountedReader) == Count(s.pcs, CountedReader) - Bit(CountedReader(a)) + Bit(CountedReader(b))
    && Count(s'.pcs, CountedWriter) == Count(s.pcs, CountedWriter) - Bit(CountedWriter(a)) + Bit(CountedWriter(b))
    && Count(s'.pcs, WriterInside) == Count(s.pcs, WriterInside) - Bit(WriterInside(a)) + Bit(WriterInside(b))
    && Count(s'.pcs, EnteringReader) == Count(s.pcs, EnteringReader) - Bit(EnteringReader(a)) + Bit(EnteringReader(b))
    && (CountedReader(a) ==> Count(s.pcs, CountedReader) > 0)
    && (CountedWriter(a) ==> Count(s.pcs, CountedWriter) > 0)
    && (HoldsReadLock(a) ==> ReadOwner(s) == Some(a))
    && (HoldsReadLock(b) && !HoldsReadLock(a) ==> ReadOwner(s) == None)
    && (HoldsWriteLock(a) ==> WriteOwner(s) == Some(a))
    && (HoldsWriteLock(b) && !HoldsWriteLock(a) ==> WriteOwner(s) == None)
    && ReadOwner(s') == (if HoldsReadLock(b) then Some(b) else if HoldsReadLock(a) then None else ReadOwner(s))
    && WriteOwner(s') == (if HoldsWriteLock(b) then Some(b) else if HoldsWriteLock(a) then None else WriteOwner(s))
  }

  lemma Recount(s: State, t: nat, b: Pc, s': State)
    requires Mutexes(s) && t < |s.pcs| && s'.pcs == s.pcs[t := b] && s'.Shaped()
    requires Follows(s.readLock, t, s.pcs[t], b, s'.readLock, HoldsReadLock)
    requires Follows(s.writeLock, t, s.pcs[t], b, s'.writeLock, HoldsWriteLock)
    ensures Mutexes(s') && Moved(s, s.pcs[t], b, s')
  {
    CountUpdate(s.pcs, t, b, CountedReader);
    CountUpdate(s.pcs, t, b, CountedWriter);
    CountUpdate(s.pcs, t, b, WriterInside);
    CountUpdate(s.pcs, t, b, EnteringReader);
    OwnedKept(s.readLock, s.pcs, t, b, s'.readLock, HoldsReadLock);
    OwnedKept(s.writeLock, s.pcs, t, b, s'.writeLock, HoldsWriteLock);
    if CountedReader(s.pcs[t]) {
      CountMember(s.pcs, t, CountedReader);
    }
    if CountedWriter(s.pcs[t]) {
      CountMember(s.pcs, t, CountedWriter);
    }
  }

  // For each function: its statements respect the mutexes, and then keep the counters and tokens right.

  lemma ReaderLockMoves(s: State, t: nat, at: Rl)
    requires Mutexes(s) && Enabled(s, t) && s.pcs[t] == RLock(at)
    ensures var s' := Next(s, t); Mutexes(s') && Moved(s, RLock(at), s'.pcs[t], s')
  {
    Recount(s, t, Next(s, t).pcs[t], Next(s, t));
  }

  lemma ReaderLockCounts(s: State, t: nat, at: Rl)
    requires t < |s.pcs| && Counters(s)
    requires var s' := ReaderLock(s, t, at); Moved(s, RLock(at), s'.pcs[t], s')
    ensures Counters(ReaderLock(s, t, at))
  {
  }

  lemma ReaderLockTokens(s: State, t: nat, at: Rl)
    requires t < |s.pcs| && Counters(s) && Tokens(s)
    requires (at.TakeBlock? ==> s.blockReadersLock) && (at.TakeResource? ==> s.resourceLock)
    requires var s' := ReaderLock(s, t, at); Moved(s, RLock(at), s'.pcs[t], s')
    ensures Tokens(ReaderLock(s, t, at))
  {
  }

  lemma ReaderUnlockMoves(s: State, t: nat, at: Ru)
    requires Mutexes(s) && Enabled(s, t) && s.pcs[t] == RUnlock(at)
    ensures var s' := Next(s, t); Mutexes(s') && Moved(s, RUnlock(at), s'.pcs[t], s')
  {
    Recount(s, t, Next(s, t).pcs[t], Next(s, t));
  }

  lemma ReaderUnlockCounts(s: State, t: nat, at: Ru)
    requires t < |s.pcs| && Counters(s)
    requires var s' := ReaderUnlock(s, t, at); Moved(s, RUnlock(at), s'.pcs[t], s')
    ensures Counters(ReaderUnlock(s, t, at))
  {
  }

  lemma ReaderUnlockTokens(s: State, t: nat, at: Ru)
    requires t < |s.pcs| && Counters(s) && Tokens(s)
    requires var s' := ReaderUnlock(s, t, at); Moved(s, RUnlock(at), s'.pcs[t], s')
    ensures Tokens(ReaderUnlock(s, t, at))
  {
  }

  lemma WriterLockMoves(s: State, t: nat, at: Wl)
    requires Mutexes(s) && Enabled(s, t) && s.pcs[t] == WLock(at)
    ensures var s' := Next(s, t); Mutexes(s') && Moved(s, WLock(at), s'.pcs[t], s')
  {
    Recount(s, t, Next(s, t).pcs[t], Next(s, t));
  }

  lemma WriterLockCounts(s: State, t: nat, at: Wl)
    requires t < |s.pcs| && Counters(s)
    requires var s' := WriterLock(s, t, at); Moved(s, WLock(at), s'.pcs[t], s')
    ensures Counters(WriterLock(s, t, at))
  {
  }

  lemma WriterLockTokens(s: State, t: nat, at: Wl)
    requires t < |s.pcs| && Counters(s) && Tokens(s)
    requires (at.TakeBlock? ==> s.blockReadersLock) && (at.TakeResource? ==> s.resourceLock)
    requires var s' := WriterLock(s, t, at); Moved(s, WLock(at), s'.pcs[t], s')
    ensures Tokens(WriterLock(s, t, at))
  {
  }

  lemma WriterUnlockMoves(s: State, t: nat, at: Wu)
    requires Mutexes(s) && Enabled(s, t) && s.pcs[t] == WUnlock(at)
    ensures var s' := Next(s, t); Mutexes(s') && Moved(s, WUnlock(at), s'.pcs[t], s')
  {
    Recount(s, t, Next(s, t).pcs[t], Next(s, t));
  }

  lemma WriterUnlockCounts(s: State, t: nat, at: Wu)
    requires t < |s.pcs| && Counters(s)
    requires var s' := WriterUnlock(s, t, at); Moved(s, WUnlock(at), s'.pcs[t], s')
    ensures Counters(WriterUnlock(s, t, at))
  {
  }

  lemma WriterUnlockTokens(s: State, t: nat, at: Wu)
    requires t < |s.pcs| && Counters(s) && Tokens(s)
    requires var s' := WriterUnlock(s, t, at); Moved(s, WUnlock(at), s'.pcs[t], s')
    ensures Tokens(WriterUnlock(s, t, at))
  {
  }

  lemma ClientMoves(s: State, t: nat)
    requires Mutexes(s) && Enabled(s, t) && (s.pcs[t].Idle? || s.pcs[t].Reading? || s.pcs[t].Writing?)
    ensures var s' := Next(s, t); Mutexes(s') && Moved(s, s.pcs[t], s'.pcs[t], s')
  {
    Recount(s, t, Next(s, t).pcs[t], Next(s, t));
  }

  lemma ClientKeeps(s: State, t: nat)
    requires Counters(s) && Tokens(s) && Enabled(s, t) && (s.pcs[t].Idle? || s.pcs[t].Reading? || s.pcs[t].Writing?)
    requires var s' := Next(s, t); Moved(s, s.pcs[t], s'.pcs[t], s')
    ensures Counters(Next(s, t)) && Tokens(Next(s, t))
  {
  }

  lemma FunctionKeeps(s: State, t: nat)
    requires Invariant(s) && Enabled(s, t) && !s.pcs[t].Idle? && !s.pcs[t].Reading? && !s.pcs[t].Writing?
    ensures Invariant(Next(s, t))
  {
    match s.pcs[t] {
      case RLock(at) =>
        ReaderLockMoves(s, t, at);
        ReaderLockCounts(s, t, at);
        ReaderLockTokens(s, t, at);
        return;
      case RUnlock(at) =>
        ReaderUnlockMoves(s, t, at);
        ReaderUnlockCounts(s, t, at);
        ReaderUnlockTokens(s, t, at);
        return;
      case WLock(at) =>
        WriterLockMoves(s, t, at);
        WriterLockCounts(s, t, at);
        WriterLockTokens(s, t, at);
        return;
      case WUnlock(at) =>
        WriterUnlockMoves(s, t, at);
        WriterUnlockCounts(s, t, at);
        WriterUnlockTokens(s, t, at);
        return;
    }
  }

  lemma InvariantKept(s: State, t: nat)
    requires Invariant(s) && Enabled(s, t)
    ensures Invariant(Next(s, t))
  {
    if s.pcs[t].Idle? || s.pcs[t].Reading? || s.pcs[t].Writing? {
      ClientMoves(s, t);
      ClientKeeps(s, t);
      return;
    } else {
      FunctionKeeps(s, t);
      return;
    }
  }

  // ---------- Whole runs ----------

  /** Each thread of the schedule can move when its turn comes. */
  ghost predicate Legal(s: State, schedule: seq<nat>)
    decreases |schedule|
  {
    s.Shaped() &&
    (schedule == [] ||
     (Enabled(s, schedule[0]) && Legal(Next(s, schedule[0]), schedule[1..])))
  }

  ghost function Run(s: State, schedule: seq<nat>): State
    requires Legal(s, schedule)
    decreases |schedule|
  {
    if schedule == [] then s else Run(Next(s, schedule[0]), schedule[1..])
  }

  lemma {:induction false} InvariantAlways(s: State, schedule: seq<nat>)
    requires Invariant(s) && Legal(s, schedule)
    ensures Invariant(Run(s, schedule))
    decreases |schedule|
  {
    if schedule != [] {
      InvariantKept(s, schedule[0]);
      InvariantAlways(Next(s, schedule[0]), schedule[1..]);
    }
  }

  // ---------- It is a reader/writer lock ----------

  predicate HoldsRead(pc: Pc) {
    || (pc.RLock? && (pc.rl.GiveRead? || pc.rl.GiveBlock?))
    || pc.Reading?
    || (pc.RUnlock? && (pc.ru.TakeRead? || pc.ru.Decrement?))
  }

  ghost function HeldBy(s: State): Held {
    Held(set i | 0 <= i < |s.pcs| && HoldsRead(s.pcs[i]), set i | 0 <= i < |s.pcs| && WriterInside(s.pcs[i]))
  }

  /** The step at which the lock is acquired or released. */
  function EventOf(s: State, t: nat): Event
    requires t < |s.pcs|
  {
    match s.pcs[t]
    case RLock(Increment) => if s.readCount + 1 == 1 then Silent else AcquireRead
    case RLock(TakeResource) => AcquireRead
    case RUnlock(Decrement) => ReleaseRead
    case WLock(TakeResource) => AcquireWrite
    case WUnlock(GiveResource) => ReleaseWrite
    case _ => Silent
  }

  /** While somebody else is counted, the owner of a mutex at its first take is counted too. */
  lemma CountedAlone(s: State, i: nat, j: nat)
    requires Invariant(s) && i < |s.pcs| && j < |s.pcs| && i != j
    ensures CountedReader(s.pcs[i]) && CountedReader(s.pcs[j]) ==> s.readCount >= 2
    ensures CountedWriter(s.pcs[i]) && CountedWriter(s.pcs[j]) ==> s.writeCount >= 2
  {
    var k, l := if i < j then i else j, if i < j then j else i;
    if CountedReader(s.pcs[i]) && CountedReader(s.pcs[j]) {
      CountTwo(s.pcs, k, l, CountedReader);
    }
    if CountedWriter(s.pcs[i]) && CountedWriter(s.pcs[j]) {
      CountTwo(s.pcs, k, l, CountedWriter);
    }
  }

  /** A thread that holds the lock for reading means that the readers have ResourceLock. */
  lemma ReaderOwnsResource(s: State, i: nat)
    requires Invariant(s) && i < |s.pcs| && HoldsRead(s.pcs[i])
    ensures ReadersOwnResource(s) && !s.resourceLock && Count(s.pcs, WriterInside) == 0
  {
    CountMember(s.pcs, i, CountedReader);
    if ReadOwner(s) == Some(RLock(Rl.TakeResource)) {
      CountedAlone(s, i, s.readLock.value);
    }
  }

  /** A writer inside means that the writers have both BlockReadersLock and ResourceLock. */
  lemma WriterOwnsBoth(s: State, i: nat)
    requires Invariant(s) && i < |s.pcs| && WriterInside(s.pcs[i])
    ensures WritersBlockReaders(s) && !s.blockReadersLock && Count(s.pcs, EnteringReader) == 0
    ensures !s.resourceLock && !ReadersOwnResource(s) && Count(s.pcs, WriterInside) == 1
  {
    CountMember(s.pcs, i, CountedWriter);
    CountMember(s.pcs, i, WriterInside);
    if WriteOwner(s) == Some(WLock(Wl.TakeBlock)) {
      CountedAlone(s, i, s.writeLock.value);
    }
  }

  lemma Safety(s: State)
    requires Invariant(s)
    ensures Exclusive(HeldBy(s))
  {
    var a := HeldBy(s);
    if w :| w in a.writers {
      WriterOwnsBoth(s, w);
      forall i | i in a.readers ensures false {
        ReaderOwnsResource(s, i);
      }
      forall v | v in a.writers ensures v == w {
        if v != w {
          CountTwo(s.pcs, if v < w then v else w, if v < w then w else v, WriterInside);
        }
      }
      assert a.writers == {w};
    }
  }

  /** Over every interleaving from creation on: readers only, or one writer and nobody else; and the counters are
      exact.
    */
  lemma ExclusiveAlways(programs: seq<seq<Section>>, schedule: seq<nat>)
    requires Legal(Initial(programs), schedule)
    ensures var s := Run(Initial(programs), schedule);
      Exclusive(HeldBy(s)) && s.readCount == Count(s.pcs, CountedReader) && s.writeCount == Count(s.pcs, CountedWriter)
  {
    InvariantInitially(programs);
    InvariantAlways(Initial(programs), schedule);
    Safety(Run(Initial(programs), schedule));
  }

  /** What the threads that hold the lock allow. */
  lemma EventGuard(s: State, t: nat)
    requires Invariant(s) && Enabled(s, t)
    ensures EventOf(s, t).AcquireRead? ==> HeldBy(s).writers == {}
    ensures EventOf(s, t).AcquireWrite? ==> HeldBy(s) == Held({}, {})
    ensures EventOf(s, t).ReleaseWrite? ==> HeldBy(s) == Held({}, {t})
  {
    var e, a := EventOf(s, t), HeldBy(s);
    if e.AcquireRead? {
      if w :| w in a.writers {
        WriterOwnsBoth(s, w);
        CountMember(s.pcs, t, EnteringReader);
      }
    } else if e.AcquireWrite? {
      if w :| w in a.writers {
        WriterOwnsBoth(s, w);
      } else if r :| r in a.readers {
        ReaderOwnsResource(s, r);
      }
    } else if e.ReleaseWrite? {
      Safety(s);
      assert t in a.writers;
      assert |a.writers - {t}| == 0;
    }
  }

  /** The sets of holders change by the thread that moved. */
  lemma HeldMoves(s: State, t: nat, s': State)
    requires t < |s.pcs| == |s'.pcs| && s'.pcs == s.pcs[t := s'.pcs[t]]
    ensures HeldBy(s') == HeldBy(s).Change(t, HoldsRead(s'.pcs[t]), WriterInside(s'.pcs[t]))
  {
    var a, b, pc := HeldBy(s), HeldBy(s'), s'.pcs[t];
    assert b.readers == if HoldsRead(pc) then a.readers + {t} else a.readers - {t};
    assert b.writers == if WriterInside(pc) then a.writers + {t} else a.writers - {t};
  }

  /** The event of a step says how its thread's hold on the lock changes. */
  ghost predicate Tells(e: Event, a: Pc, b: Pc) {
    && HoldsRead(b) == (if e.AcquireRead? then true else if e.ReleaseRead? then false else HoldsRead(a))
    && WriterInside(b) == (if e.AcquireWrite? then true else if e.ReleaseWrite? then false else WriterInside(a))
    && (e.AcquireRead? ==> !HoldsRead(a) && !WriterInside(a))
    && (e.ReleaseRead? ==> HoldsRead(a))
  }

  lemma ReaderEvents(s: State, t: nat)
    requires Enabled(s, t) && !s.pcs[t].WLock? && !s.pcs[t].WUnlock?
    ensures Next(s, t).pcs == s.pcs[t := Next(s, t).pcs[t]] && Tells(EventOf(s, t), s.pcs[t], Next(s, t).pcs[t])
  {
  }

  lemma WriterEvents(s: State, t: nat)
    requires Enabled(s, t) && (s.pcs[t].WLock? || s.pcs[t].WUnlock?)
    ensures Next(s, t).pcs == s.pcs[t := Next(s, t).pcs[t]] && Tells(EventOf(s, t), s.pcs[t], Next(s, t).pcs[t])
  {
  }

  lemma Refines(s: State, t: nat)
    requires Invariant(s) && Enabled(s, t)
    ensures Allowed(HeldBy(s), EventOf(s, t), t, HeldBy(Next(s, t)))
  {
    if s.pcs[t].WLock? || s.pcs[t].WUnlock? {
      WriterEvents(s, t);
    } else {
      ReaderEvents(s, t);
    }
    HeldMoves(s, t, Next(s, t));
    EventGuard(s, t);
  }

  // ---------- Takes and gives match ----------

  /** No semaphore is given while it is full, and a mutex is given only by the thread that took it. */
  lemma GivesMatchTakes(s: State, t: nat)
    requires Invariant(s) && t < |s.pcs|
    ensures s.pcs[t] == RLock(Rl.GiveBlock) || s.pcs[t] == WUnlock(Wu.GiveBlock) ==> !s.blockReadersLock
    ensures s.pcs[t] == RUnlock(Ru.GiveResource) || s.pcs[t] == WUnlock(Wu.GiveResource) ==> !s.resourceLock
    ensures s.pcs[t] == RLock(Rl.GiveRead) || s.pcs[t] == RUnlock(Ru.GiveRead) ==> s.readLock == Some(t)
    ensures s.pcs[t] == WLock(Wl.GiveWrite) || s.pcs[t] == WUnlock(Wu.GiveWrite) ==> s.writeLock == Some(t)
    ensures s.pcs[t] == RLock(Rl.Increment) || s.pcs[t] == RUnlock(Ru.Decrement) ==> s.readLock == Some(t)
    ensures s.pcs[t] == WLock(Wl.Increment) || s.pcs[t] == WUnlock(Wu.Decrement) ==> s.writeLock == Some(t)
    ensures s.pcs[t] == RUnlock(Ru.Decrement) ==> s.readCount > 0
    ensures s.pcs[t] == WUnlock(Wu.Decrement) ==> s.writeCount > 0
  {
    if EnteringReader(s.pcs[t]) {
      CountMember(s.pcs, t, EnteringReader);
    }
    if WriterInside(s.pcs[t]) {
      CountMember(s.pcs, t, WriterInside);
    }
    if CountedReader(s.pcs[t]) {
      CountMember(s.pcs, t, CountedReader);
    }
    if CountedWriter(s.pcs[t]) {
      CountMember(s.pcs, t, CountedWriter);
    }
  }

  /** A reader that reaches the take of ResourceLock finds it full: it never waits there with BlockReadersLock and
      ReadLock in its hands.
    */
  lemma ReaderNeverStalls(s: State, t: nat)
    requires Invariant(s) && t < |s.pcs| && s.pcs[t] == RLock(Rl.TakeResource)
    ensures s.resourceLock && Enabled(s, t)
  {
    CountMember(s.pcs, t, EnteringReader);
    if Count(s.pcs, WriterInside) > 0 {
      var w := CountWitness(s.pcs, WriterInside);
      WriterOwnsBoth(s, w);
    }
  }

  // ---------- Deadlock freedom ----------

  ghost predicate Done(s: State) {
    s.Shaped() && forall i :: 0 <= i < |s.pcs| ==> s.pcs[i].Idle? && s.todo[i] == []
  }

  /** The owner of ReadLock can always move. */
  lemma ReadOwnerMoves(s: State)
    requires Invariant(s) && s.readLock.Some?
    ensures Enabled(s, s.readLock.value)
  {
    var o := s.readLock.value;
    if s.pcs[o] == RLock(Rl.TakeResource) {
      ReaderNeverStalls(s, o);
    }
  }

  /** When a reader is in the entry section, somebody can move. */
  lemma EntryMoves(s: State) returns (t: nat)
    requires Invariant(s) && Count(s.pcs, EnteringReader) > 0
    ensures Enabled(s, t)
  {
    t := CountWitness(s.pcs, EnteringReader);
    if s.readLock.Some? {
      ReadOwnerMoves(s);
      t := s.readLock.value;
    }
  }

  /** The owner of WriteLock moves, or a reader in the entry section does. */
  lemma WriteOwnerMoves(s: State) returns (t: nat)
    requires Invariant(s) && s.writeLock.Some?
    ensures Enabled(s, t)
  {
    t := s.writeLock.value;
    if s.pcs[t] == WLock(Wl.TakeBlock) && !s.blockReadersLock {
      t := EntryMoves(s);
    }
  }

  /** When ResourceLock is taken, somebody can move. */
  lemma ResourceMoves(s: State) returns (t: nat)
    requires Invariant(s) && !s.resourceLock
    ensures Enabled(s, t)
  {
    if s.readLock.Some? {
      ReadOwnerMoves(s);
      t := s.readLock.value;
    } else if Count(s.pcs, WriterInside) > 0 {
      t := CountWitness(s.pcs, WriterInside);
    } else {
      t := CountWitness(s.pcs, CountedReader);
    }
  }

  /** When the readers are blocked out, somebody can move. */
  lemma BlockMoves(s: State) returns (t: nat)
    requires Invariant(s) && !s.blockReadersLock
    ensures Enabled(s, t)
  {
    if Count(s.pcs, EnteringReader) > 0 {
      t := EntryMoves(s);
    } else if s.writeLock.Some? {
      t := WriteOwnerMoves(s);
    } else {
      t := CountWitness(s.pcs, CountedWriter);
      if s.pcs[t] == WLock(Wl.TakeResource) && !s.resourceLock {
        t := ResourceMoves(s);
      }
    }
  }

  lemma NeverStuck(s: State) returns (t: nat)
    requires Invariant(s) && !Done(s)
    ensures Enabled(s, t)
  {
    t :| t < |s.pcs| && !(s.pcs[t].Idle? && s.todo[t] == []);
    if s.readLock.Some? {
      ReadOwnerMoves(s);
      t := s.readLock.value;
    } else if s.writeLock.Some? {
      t := WriteOwnerMoves(s);
    } else if !s.blockReadersLock {
      t := BlockMoves(s);
    } else if !s.resourceLock {
      t := ResourceMoves(s);
    }
  }

  // ---------- Completion ----------

  /** How many steps are left of the section a thread is in. */
  function Rank(pc: Pc): nat {
    match pc
    case Idle => 0
    case RLock(at) =>
      (match at case TakeBlock => 11 case TakeRead => 10 case Increment => 9 case TakeResource => 8 case GiveRead => 7
       case GiveBlock => 6)
    case Reading => 5
    case RUnlock(at) => (match at case TakeRead => 4 case Decrement => 3 case GiveResource => 2 case GiveRead => 1)
    case WLock(at) =>
      (match at case TakeWrite => 11 case Increment => 10 case TakeBlock => 9 case GiveWrite => 8
       case TakeResource => 7)
    case Writing => 6
    case WUnlock(at) =>
      (match at case GiveResource => 5 case TakeWrite => 4 case Decrement => 3 case GiveBlock => 2 case GiveWrite => 1)
  }

  /** An upper bound of the steps left: a whole section takes at most twelve. */
  ghost function Work(pcs: seq<Pc>, todo: seq<seq<Section>>): nat
    requires |pcs| == |todo|
  {
    if pcs == [] then 0 else Rank(pcs[0]) + 12 * |todo[0]| + Work(pcs[1..], todo[1..])
  }

  lemma {:induction false} WorkUpdate(pcs: seq<Pc>, todo: seq<seq<Section>>, t: nat, pc: Pc, rest: seq<Section>)
    requires |pcs| == |todo| && t < |pcs|
    ensures Work(pcs[t := pc], todo[t := rest]) ==
      Work(pcs, todo) - Rank(pcs[t]) - 12 * |todo[t]| + Rank(pc) + 12 * |rest|
  {
    var pcs', todo' := pcs[t := pc], todo[t := rest];
    if t == 0 {
      assert pcs'[1..] == pcs[1..] && todo'[1..] == todo[1..];
    } else {
      assert pcs'[1..] == pcs[1..][t - 1 := pc] && todo'[1..] == todo[1..][t - 1 := rest];
      WorkUpdate(pcs[1..], todo[1..], t - 1, pc, rest);
    }
  }

  lemma ReaderWork(s: State, t: nat)
    requires Enabled(s, t) && (s.pcs[t].RLock? || s.pcs[t].RUnlock? || s.pcs[t].Reading?)
    ensures Next(s, t).pcs == s.pcs[t := Next(s, t).pcs[t]] && Next(s, t).todo == s.todo
    ensures Rank(Next(s, t).pcs[t]) < Rank(s.pcs[t])
  {
  }

  lemma WriterWork(s: State, t: nat)
    requires Enabled(s, t) && (s.pcs[t].WLock? || s.pcs[t].WUnlock? || s.pcs[t].Writing?)
    ensures Next(s, t).pcs == s.pcs[t := Next(s, t).pcs[t]] && Next(s, t).todo == s.todo
    ensures Rank(Next(s, t).pcs[t]) < Rank(s.pcs[t])
  {
  }

  lemma WorkDecreases(s: State, t: nat)
    requires Enabled(s, t)
    ensures Next(s, t).Shaped()
    ensures Work(Next(s, t).pcs, Next(s, t).todo) < Work(s.pcs, s.todo)
  {
    var s' := Next(s, t);
    if s.pcs[t].Idle? {
      WorkUpdate(s.pcs, s.todo, t, s'.pcs[t], s'.todo[t]);
      return;
    } else if s.pcs[t].RLock? || s.pcs[t].RUnlock? || s.pcs[t].Reading? {
      ReaderWork(s, t);
    } else {
      WriterWork(s, t);
    }
    assert s.todo == s.todo[t := s.todo[t]];
    WorkUpdate(s.pcs, s.todo, t, s'.pcs[t], s.todo[t]);
  }

  lemma {:induction false} WorkBoundsSteps(s: State, schedule: seq<nat>)
    requires Legal(s, schedule)
    ensures |schedule| <= Work(s.pcs, s.todo)
    decreases |schedule|
  {
    if schedule != [] {
      WorkDecreases(s, schedule[0]);
      WorkBoundsSteps(Next(s, schedule[0]), schedule[1..]);
    }
  }

  function Sections(programs: seq<seq<Section>>): nat {
    if programs == [] then 0 else |programs[0]| + Sections(programs[1..])
  }

  lemma {:induction false} InitialWork(programs: seq<seq<Section>>)
    ensures Work(Initial(programs).pcs, programs) == 12 * Sections(programs)
  {
    if programs != [] {
      assert Initial(programs).pcs[1..] == Initial(programs[1..]).pcs;
      InitialWork(programs[1..]);
    }
  }

  /** No run goes on forever: a section takes twelve steps at most, however the threads are interleaved. */
  lemma RunsEnd(programs: seq<seq<Section>>, schedule: seq<nat>)
    requires Legal(Initial(programs), schedule)
    ensures |schedule| <= 12 * Sections(programs)
  {
    WorkBoundsSteps(Initial(programs), schedule);
    InitialWork(programs);
  }

  /** A run that cannot be continued has run every section, and leaves the lock as it was created. */
  lemma Completion(programs: seq<seq<Section>>, schedule: seq<nat>)
    requires Legal(Initial(programs), schedule)
    requires forall t :: !Enabled(Run(Initial(programs), schedule), t)
    ensures Run(Initial(programs), schedule) == Initial(seq(|programs|, i => []))
  {
    var s := Run(Initial(programs), schedule);
    InvariantInitially(programs);
    InvariantAlways(Initial(programs), schedule);
    ThreadsStay(Initial(programs), schedule);
    if !Done(s) {
      var t := NeverStuck(s);
    }
    CountNone(s.pcs, CountedReader);
    CountNone(s.pcs, CountedWriter);
    CountNone(s.pcs, WriterInside);
    CountNone(s.pcs, EnteringReader);
    assert s.pcs == seq(|programs|, i => Idle) && s.todo == seq(|programs|, i => []);
  }

  lemma {:induction false} ThreadsStay(s: State, schedule: seq<nat>)
    requires Legal(s, schedule)
    ensures Run(s, schedule).Shaped() && |Run(s, schedule).pcs| == |s.pcs|
    decreases |schedule|
  {
    if schedule != [] {
      ThreadsStay(Next(s, schedule[0]), schedule[1..]);
    }
  }

  lemma {:induction false} Then(s: State, a: seq<nat>, b: seq<nat>)
    requires Legal(s, a) && Legal(Run(s, a), b)
    ensures Legal(s, a + b) && Run(s, a + b) == Run(Run(s, a), b)
    decreases |a|
  {
    if a == [] {
      assert a + b == b;
    } else {
      assert (a + b)[1..] == a[1..] + b;
      Then(Next(s, a[0]), a[1..], b);
    }
  }

  lemma First(s: State, t: nat, rest: seq<nat>)
    requires Enabled(s, t) && Legal(Next(s, t), rest)
    ensures Legal(s, [t] + rest) && Run(s, [t] + rest) == Run(Next(s, t), rest)
  {
    assert ([t] + rest)[1..] == rest;
  }

  // ---------- The sections of the programs ----------

  /** The section of its program that a thread has called for and has not been through. */
  function Asked(pc: Pc): seq<Section> {
    match pc case RLock(_) | Reading => [Read] case WLock(_) | Writing => [Write] case _ => []
  }

  /** The section whose code a thread executes when it moves. */
  function Entered(pc: Pc): seq<Section> {
    match pc case Reading => [Read] case Writing => [Write] case _ => []
  }

  /** The sections whose code thread `t` executes in a run. */
  ghost function Visits(s: State, schedule: seq<nat>, t: nat): seq<Section>
    requires Legal(s, schedule)
    decreases |schedule|
  {
    if schedule == [] then []
    else (if schedule[0] == t then Entered(s.pcs[t]) else []) + Visits(Next(s, schedule[0]), schedule[1..], t)
  }

  lemma ReaderSection(s: State, t: nat)
    requires Enabled(s, t) && (s.pcs[t].RLock? || s.pcs[t].RUnlock? || s.pcs[t].Reading?)
    ensures var s' := Next(s, t);
      && s'.pcs == s.pcs[t := s'.pcs[t]] && s'.todo == s.todo
      && Asked(s.pcs[t]) == Entered(s.pcs[t]) + Asked(s'.pcs[t])
  {
  }

  lemma WriterSection(s: State, t: nat)
    requires Enabled(s, t) && (s.pcs[t].WLock? || s.pcs[t].WUnlock? || s.pcs[t].Writing?)
    ensures var s' := Next(s, t);
      && s'.pcs == s.pcs[t := s'.pcs[t]] && s'.todo == s.todo
      && Asked(s.pcs[t]) == Entered(s.pcs[t]) + Asked(s'.pcs[t])
  {
  }

  lemma CalledSection(s: State, t: nat)
    requires Enabled(s, t) && s.pcs[t].Idle?
    ensures var s' := Next(s, t);
      && s'.pcs == s.pcs[t := s'.pcs[t]] && s'.todo == s.todo[t := s.todo[t][1..]]
      && Asked(s'.pcs[t]) == [s.todo[t][0]]
  {
  }

  lemma SectionStep(s: State, t: nat, i: nat)
    requires Enabled(s, t) && i < |s.pcs|
    ensures var s' := Next(s, t);
      && s'.Shaped() && |s'.pcs| == |s.pcs|
      && Asked(s.pcs[i]) + s.todo[i] ==
         (if i == t then Entered(s.pcs[t]) else []) + (Asked(s'.pcs[i]) + s'.todo[i])
  {
    if s.pcs[t].Idle? {
      CalledSection(s, t);
      assert s.todo[t] == [s.todo[t][0]] + s.todo[t][1..];
      return;
    } else if s.pcs[t].RLock? || s.pcs[t].RUnlock? || s.pcs[t].Reading? {
      ReaderSection(s, t);
      return;
    } else {
      WriterSection(s, t);
      return;
    }
  }

  lemma {:induction false} SectionsAlways(s: State, schedule: seq<nat>, t: nat)
    requires s.Shaped() && Legal(s, schedule) && t < |s.pcs|
    ensures var s' := Run(s, schedule);
      && s'.Shaped() && |s'.pcs| == |s.pcs|
      && Asked(s.pcs[t]) + s.todo[t] == Visits(s, schedule, t) + (Asked(s'.pcs[t]) + s'.todo[t])
    decreases |schedule|
  {
    if schedule != [] {
      SectionStep(s, schedule[0], t);
      SectionsAlways(Next(s, schedule[0]), schedule[1..], t);
    }
  }

  /** Over every interleaving: the sections a thread has been through, the one it is in, and those it has still to run
      are its program.
    */
  lemma SectionsAsAsked(programs: seq<seq<Section>>, schedule: seq<nat>, t: nat)
    requires Legal(Initial(programs), schedule) && t < |programs|
    ensures var s := Run(Initial(programs), schedule);
      && s.Shaped() && |s.pcs| == |programs|
      && programs[t] == Visits(Initial(programs), schedule, t) + (Asked(s.pcs[t]) + s.todo[t])
  {
    SectionsAlways(Initial(programs), schedule, t);
  }

  /** In the client's own code between lock and unlock. */
  predicate InSection(pc: Pc) { pc.Reading? || pc.Writing? }

  /** The section of its program that a thread is in. */
  ghost function SectionOf(programs: seq<seq<Section>>, schedule: seq<nat>, t: nat): (n: nat)
    requires Legal(Initial(programs), schedule) && t < |programs|
  {
    |Visits(Initial(programs), schedule, t)|
  }

  lemma OneOnly(a: set<nat>, i: nat, j: nat)
    requires |a| == 1 && i in a && j in a
    ensures i == j
  {
    assert |a - {i}| == 0;
  }

  /** Two threads are in sections of their programs at once only if both sections are Read. */
  lemma OnlyReadsShare(programs: seq<seq<Section>>, schedule: seq<nat>, i: nat, j: nat)
    requires Legal(Initial(programs), schedule) && i < |programs| && j < |programs| && i != j
    requires var s := Run(Initial(programs), schedule);
      |s.pcs| == |programs| && InSection(s.pcs[i]) && InSection(s.pcs[j])
    ensures var n, m := SectionOf(programs, schedule, i), SectionOf(programs, schedule, j);
      n < |programs[i]| && programs[i][n] == Read && m < |programs[j]| && programs[j][m] == Read
  {
    SectionsAsAsked(programs, schedule, i);
    SectionsAsAsked(programs, schedule, j);
    ExclusiveAlways(programs, schedule);
    var a := HeldBy(Run(Initial(programs), schedule));
    assert Run(Initial(programs), schedule).pcs[i].Writing? ==> i in a.writers;
    assert Run(Initial(programs), schedule).pcs[j].Writing? ==> j in a.writers;
    assert Run(Initial(programs), schedule).pcs[i].Reading? ==> i in a.readers;
    assert Run(Initial(programs), schedule).pcs[j].Reading? ==> j in a.readers;
    if i in a.writers && j in a.writers {
      OneOnly(a.writers, i, j);
    }
  }

  /** A run that cannot be continued has executed the code of every section of every program, in order. */
  lemma AllSectionsVisited(programs: seq<seq<Section>>, schedule: seq<nat>, t: nat)
    requires Legal(Initial(programs), schedule) && t < |programs|
    requires forall u :: !Enabled(Run(Initial(programs), schedule), u)
    ensures Visits(Initial(programs), schedule, t) == programs[t]
  {
    Completion(programs, schedule);
    SectionsAsAsked(programs, schedule, t);
  }

  /** No thread holds or waits for anything but the readers inside. */
  ghost predicate OnlyReaders(s: State) {
    && s.Shaped() && s.readCount >= 0 && s.readLock.None? && s.resourceLock == (s.readCount == 0) && s.blockReadersLock
  }

  /** A reader that calls when only readers are inside joins them. */
  lemma ReaderJoins(s: State, t: nat) returns (schedule: seq<nat>)
    requires OnlyReaders(s) && t < |s.pcs| && s.pcs[t].Idle? && s.todo[t] != [] && s.todo[t][0] == Read
    ensures Legal(s, schedule)
    ensures Run(s, schedule) ==
      s.(pcs := s.pcs[t := Reading], todo := s.todo[t := s.todo[t][1..]], readCount := s.readCount + 1,
         resourceLock := false)
  {
    var s1 := Next(s, t);
    var s2 := Next(s1, t);
    var s3 := Next(s2, t);
    var s4 := Next(s3, t);
    var s5 := Next(s4, t);
    var s6 := Next(s5, t);
    if s.readCount > 0 {
      First(s5, t, []);
      First(s4, t, [t]);
      First(s3, t, [t, t]);
      First(s2, t, [t, t, t]);
      First(s1, t, [t, t, t, t]);
      First(s, t, [t, t, t, t, t]);
      return [t] + [t, t, t, t, t];
    }
    var s7 := Next(s6, t);
    First(s6, t, []);
    First(s5, t, [t]);
    First(s4, t, [t, t]);
    First(s3, t, [t, t, t]);
    First(s2, t, [t, t, t, t]);
    First(s1, t, [t, t, t, t, t]);
    First(s, t, [t, t, t, t, t, t]);
    return [t] + [t, t, t, t, t, t];
  }

  lemma {:induction false} ReadersJoin(s: State, k: nat) returns (schedule: seq<nat>)
    requires OnlyReaders(s) && k <= |s.pcs|
    requires forall i :: 0 <= i < k ==> s.pcs[i].Idle? && s.todo[i] != [] && s.todo[i][0] == Read
    ensures Legal(s, schedule) && Run(s, schedule).Shaped() && |Run(s, schedule).pcs| == |s.pcs|
    ensures forall i :: 0 <= i < k ==> Run(s, schedule).pcs[i].Reading?
    ensures forall i :: k <= i < |s.pcs| ==> Run(s, schedule).pcs[i] == s.pcs[i]
    decreases k
  {
    if k == 0 {
      return [];
    }
    var a := ReaderJoins(s, k - 1);
    var s1 := Run(s, a);
    var b := ReadersJoin(s1, k - 1);
    Then(s, a, b);
    schedule := a + b;
  }

  /** Any number of Read sections can be inside together. */
  lemma ReadsShare(n: nat) returns (schedule: seq<nat>)
    ensures var programs := seq(n, i => [Read]);
      && Legal(Initial(programs), schedule) && |Run(Initial(programs), schedule).pcs| == n
      && (forall i :: 0 <= i < n ==> Run(Initial(programs), schedule).pcs[i].Reading?)
  {
    schedule := ReadersJoin(Initial(seq(n, i => [Read])), n);
  }

  // ---------- Writers are preferred ----------

  /** While the writers block the readers, no step lets a reader in. */
  lemma NoReaderEnters(s: State, t: nat)
    requires Invariant(s) && Enabled(s, t) && WritersBlockReaders(s)
    ensures HeldBy(Next(s, t)).readers <= HeldBy(s).readers
  {
    Refines(s, t);
    if EnteringReader(s.pcs[t]) {
      CountMember(s.pcs, t, EnteringReader);
    }
  }

  lemma StillBlockedByOwner(s: State, t: nat)
    requires Mutexes(s) && Counters(s) && Enabled(s, t) && WritersBlockReaders(s)
    requires WriteOwner(s) == Some(s.pcs[t]) && s.writeLock == Some(t)
    ensures if s.pcs[t] == WUnlock(Wu.GiveBlock) then s.writeCount == 0 else WritersBlockReaders(Next(s, t))
  {
  }

  lemma StillBlockedByOther(s: State, t: nat)
    requires Mutexes(s) && Enabled(s, t) && WritersBlockReaders(s) && s.writeLock != Some(t)
    ensures s.pcs[t] != WUnlock(Wu.GiveBlock) && WritersBlockReaders(Next(s, t))
  {
    assert !HoldsWriteLock(s.pcs[t]);
  }

  /** Only the last writer's give ends the blocking. */
  lemma StillBlocked(s: State, t: nat)
    requires Invariant(s) && Enabled(s, t) && WritersBlockReaders(s)
    ensures if s.pcs[t] == WUnlock(Wu.GiveBlock) then s.writeCount == 0 else WritersBlockReaders(Next(s, t))
  {
    if s.writeLock == Some(t) {
      StillBlockedByOwner(s, t);
    } else {
      StillBlockedByOther(s, t);
    }
  }

  /** No thread gives BlockReadersLock back on behalf of the writers. */
  ghost predicate StaysBlocked(s: State, schedule: seq<nat>)
    requires Legal(s, schedule)
    decreases |schedule|
  {
    schedule != [] ==>
      s.pcs[schedule[0]] != WUnlock(Wu.GiveBlock) && StaysBlocked(Next(s, schedule[0]), schedule[1..])
  }

  /** From the take of BlockReadersLock by the first writer until the last one gives it back, whoever they are, no
      reader is in the entry section and no reader joins those that already hold the lock.
    */
  lemma {:induction false} WritersPreferred(s: State, schedule: seq<nat>)
    requires Invariant(s) && WritersBlockReaders(s) && Legal(s, schedule) && StaysBlocked(s, schedule)
    ensures WritersBlockReaders(Run(s, schedule))
    ensures Count(Run(s, schedule).pcs, EnteringReader) == 0
    ensures HeldBy(Run(s, schedule)).readers <= HeldBy(s).readers
    decreases |schedule|
  {
    if schedule != [] {
      NoReaderEnters(s, schedule[0]);
      StillBlocked(s, schedule[0]);
      InvariantKept(s, schedule[0]);
      WritersPreferred(Next(s, schedule[0]), schedule[1..]);
    }
  }

  // ---------- The lock itself ----------

  /** The lock and the threads that use it, changed in place one statement at a time. */
  class Lock {
    var readCount: int
    var writeCount: int
    var readLock: Mutex
    var writeLock: Mutex
    var resourceLock: bool
    var blockReadersLock: bool
    var pcs: seq<Pc>
    var todo: seq<seq<Section>>

    ghost function Value(): State
      reads this
    {
      State(readCount, writeCount, readLock, writeLock, resourceLock, blockReadersLock, pcs, todo)
    }

    constructor (programs: seq<seq<Section>>)
      ensures Value() == Initial(programs)
    {
      readCount, writeCount := 0, 0;
      readLock, writeLock := None, None;
      resourceLock, blockReadersLock := true, true;
      pcs, todo := seq(|programs|, i => Idle), programs;
    }

    method ReaderLockStep(t: nat)
      requires Enabled(Value(), t) && pcs[t].RLock?
      modifies this
      ensures Value() == Next(old(Value()), t)
    {
      match pcs[t].rl
      case TakeBlock =>
        blockReadersLock := false;
        pcs := pcs[t := RLock(Rl.TakeRead)];
      case TakeRead =>
        readLock := Some(t);
        pcs := pcs[t := RLock(Rl.Increment)];
      case Increment =>
        readCount := readCount + 1;
        pcs := pcs[t := RLock(if readCount == 1 then Rl.TakeResource else Rl.GiveRead)];
      case TakeResource =>
        resourceLock := false;
        pcs := pcs[t := RLock(Rl.GiveRead)];
      case GiveRead =>
        readLock := None;
        pcs := pcs[t := RLock(Rl.GiveBlock)];
      case GiveBlock =>
        blockReadersLock := true;
        pcs := pcs[t := Reading];
    }

    method ReaderUnlockStep(t: nat)
      requires Enabled(Value(), t) && pcs[t].RUnlock?
      modifies this
      ensures Value() == Next(old(Value()), t)
    {
      match pcs[t].ru
      case TakeRead =>
        readLock := Some(t);
        pcs := pcs[t := RUnlock(Ru.Decrement)];
      case Decrement =>
        readCount := readCount - 1;
        pcs := pcs[t := RUnlock(if readCount == 0 then Ru.GiveResource else Ru.GiveRead)];
      case GiveResource =>
        resourceLock := true;
        pcs := pcs[t := RUnlock(Ru.GiveRead)];
      case GiveRead =>
        readLock := None;
        pcs := pcs[t := Idle];
    }

    method WriterLockStep(t: nat)
      requires Enabled(Value(), t) && pcs[t].WLock?
      modifies this
      ensures Value() == Next(old(Value()), t)
    {
      match pcs[t].wl
      case TakeWrite =>
        writeLock := Some(t);
        pcs := pcs[t := WLock(Wl.Increment)];
      case Increment =>
        writeCount := writeCount + 1;
        pcs := pcs[t := WLock(if writeCount == 1 then Wl.TakeBlock else Wl.GiveWrite)];
      case TakeBlock =>
        blockReadersLock := false;
        pcs := pcs[t := WLock(Wl.GiveWrite)];
      case GiveWrite =>
        writeLock := None;
        pcs := pcs[t := WLock(Wl.TakeResource)];
      case TakeResource =>
        resourceLock := false;
        pcs := pcs[t := Writing];
    }

    method WriterUnlockStep(t: nat)
      requires Enabled(Value(), t) && pcs[t].WUnlock?
      modifies this
      ensures Value() == Next(old(Value()), t)
    {
      match pcs[t].wu
      case GiveResource =>
        resourceLock := true;
        pcs := pcs[t := WUnlock(Wu.TakeWrite)];
      case TakeWrite =>
        writeLock := Some(t);
        pcs := pcs[t := WUnlock(Wu.Decrement)];
      case Decrement =>
        writeCount := writeCount - 1;
        pcs := pcs[t := WUnlock(if writeCount == 0 then Wu.GiveBlock else Wu.GiveWrite)];
      case GiveBlock =>
        blockReadersLock := true;
        pcs := pcs[t := WUnlock(Wu.GiveWrite)];
      case GiveWrite =>
        writeLock := None;
        pcs := pcs[t := Idle];
    }

    /** The client's own steps: it starts a section, or ends what it does inside one. */
    method ClientStep(t: nat)
      requires Enabled(Value(), t) && (pcs[t].Idle? || pcs[t].Reading? || pcs[t].Writing?)
      modifies this
      ensures Value() == Next(old(Value()), t)
    {
      match pcs[t]
      case Idle =>
        pcs := pcs[t := if todo[t][0] == Read then RLock(Rl.TakeBlock) else WLock(Wl.TakeWrite)];
        todo := todo[t := todo[t][1..]];
      case Reading => pcs := pcs[t := RUnlock(Ru.TakeRead)];
      case Writing => pcs := pcs[t := WUnlock(Wu.GiveResource)];
    }

    method Step(t: nat)
      requires Invariant(Value()) && Enabled(Value(), t)
      modifies this
      ensures Value() == Next(old(Value()), t) && Invariant(Value())
    {
      InvariantKept(Value(), t);
      match pcs[t]
      case RLock(_) => ReaderLockStep(t);
      case RUnlock(_) => ReaderUnlockStep(t);
      case WLock(_) => WriterLockStep(t);
      case WUnlock(_) => WriterUnlockStep(t);
      case _ => ClientStep(t);
    }

    /** Runs any interleaving. */
    method Execute(schedule: seq<nat>)
      requires Invariant(Value()) && Legal(Value(), schedule)
      modifies this
      ensures Value() == Run(old(Value()), schedule)
      ensures Exclusive(HeldBy(Value()))
    {
      var k := 0;
      while k < |schedule|
        invariant k <= |schedule| && Invariant(Value()) && Legal(Value(), schedule[k..])
        invariant Run(Value(), schedule[k..]) == Run(old(Value()), schedule)
      {
        Step(schedule[k]);
        k := k + 1;
      }
      Safety(Value());
    }
  }
}
