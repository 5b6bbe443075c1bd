/** Condition variables (ccondition_variable.cpp, with Thread::Wait of cthread.cpp) under any clients: any number of
    threads, condition variables and mutexes; a thread that is in none of these calls may take or give a mutex, or call
    Wait, Signal or Broadcast, in any order. Waits do not time out.
  */
module ConditionVariables {
  import opened FreeRtos

  // Thread::Wait (with AddToWaitList), and Signal or Broadcast, each statement named after what it is about to do.
  datatype Wait = AddLock | AddPush | AddUnlock | Unlock | Take | Relock
  datatype Wake = Lock | Pop | Give(to: nat) | Unlock

  datatype Pc =
    | Client
    | Waiting(cv: nat, mutex: nat, w: Wait)
    | Waking(cv: nat, all: bool, g: Wake)    // Broadcast if `all`, Signal if not

  /** The internal lock, the threads that wait, and the history: who was ever added, and who was ever popped. */
  datatype Cv = Cv(lock: Mutex, waiters: seq<nat>, arrived: seq<nat>, woken: seq<nat>)

  datatype State = State(cvs: seq<Cv>, mutexes: seq<Mutex>, pcs: seq<Pc>, tokens: seq<bool>) {
    predicate Names(pc: Pc) {
      && (pc.Waiting? ==> pc.cv < |cvs| && pc.mutex < |mutexes|)
      && (pc.Waking? ==> pc.cv < |cvs| && (pc.g.Give? ==> pc.g.to < |tokens|))
    }

    ghost predicate Shaped() {
      |tokens| == |pcs| && forall i :: 0 <= i < |pcs| ==> Names(pcs[i])
    }

    function Go(t: nat, pc: Pc): State
      requires t < |pcs|
    {
      this.(pcs := pcs[t := pc])
    }

    function SetCv(c: nat, cv: Cv): State
      requires c < |cvs|
    {
      this.(cvs := cvs[c := cv])
    }
  }

  /** What a thread outside these calls may do. */
  datatype Action =
    | TakeMutex(m: nat)
    | GiveMutex(m: nat)
    | CallWait(cv: nat, m: nat)
    | CallSignal(cv: nat)
    | CallBroadcast(cv: nat)

  /** The next step: by thread `t`; `action` is what it does if it is outside these calls. */
  datatype Move = Move(t: nat, action: Action)

  function Initial(threads: nat, cvs: nat, mutexes: nat): State {
    State(seq(cvs, i => Cv(None, [], [], [])), seq(mutexes, i => None), seq(threads, i => Client),
          seq(threads, i => false))
  }

  /** Wait is called with the mutex held, and mutexes are given by their owner. */
  predicate MayDo(s: State, t: nat, a: Action) {
    match a
    case TakeMutex(m) => m < |s.mutexes| && s.mutexes[m].None?
    case GiveMutex(m) => m < |s.mutexes| && s.mutexes[m] == Some(t)
    case CallWait(c, m) => c < |s.cvs| && m < |s.mutexes| && s.mutexes[m] == Some(t)
    case CallSignal(c) => c < |s.cvs|
    case CallBroadcast(c) => c < |s.cvs|
  }

  predicate Enabled(s: State, m: Move) {
    m.t < |s.pcs| && m.t < |s.tokens| && s.Names(s.pcs[m.t]) &&
    match s.pcs[m.t]
    case Client => MayDo(s, m.t, m.action)
    case Waiting(c, _, AddLock) => s.cvs[c].lock.None?
    case Waiting(_, _, Take) => s.tokens[m.t]
    case Waiting(_, x, Relock) => s.mutexes[x].None?
    case Waking(c, _, Lock) => s.cvs[c].lock.None?
    case _ => true
  }

  function ClientStep(s: State, t: nat, a: Action): State
    requires t < |s.pcs| && MayDo(s, t, a)
  {
    match a
    case TakeMutex(m) => s.(mutexes := s.mutexes[m := Some(t)])
    case GiveMutex(m) => s.(mutexes := s.mutexes[m := None])
    case CallWait(c, m) => s.Go(t, Waiting(c, m, AddLock))
    case CallSignal(c) => s.Go(t, Waking(c, false, Lock))
    case CallBroadcast(c) => s.Go(t, Waking(c, true, Lock))
  }

  function WaitStep(s: State, t: nat): State
    requires t < |s.pcs| && t < |s.tokens| && s.pcs[t].Waiting? && s.Names(s.pcs[t])
  {
    var pc := s.pcs[t];
    var cv := s.cvs[pc.cv];
    match pc.w
    case AddLock => s.Go(t, pc.(w := AddPush)).SetCv(pc.cv, cv.(lock := Some(t)))
    case AddPush =>
      s.Go(t, pc.(w := AddUnlock)).SetCv(pc.cv, cv.(waiters := cv.waiters + [t], arrived := cv.arrived + [t]))
    case AddUnlock => s.Go(t, pc.(w := Wait.Unlock)).SetCv(pc.cv, cv.(lock := None))
    case Unlock => s.Go(t, pc.(w := Take)).(mutexes := s.mutexes[pc.mutex := None])
    case Take => s.Go(t, pc.(w := Relock)).(tokens := s.tokens[t := false])
    case Relock => s.Go(t, Client).(mutexes := s.mutexes[pc.mutex := Some(t)])
  }

  function WakeStep(s: State, t: nat): State
    requires t < |s.pcs| && s.pcs[t].Waking? && s.Names(s.pcs[t])
  {
    var pc := s.pcs[t];
    var cv := s.cvs[pc.cv];
    match pc.g
    case Lock => s.Go(t, pc.(g := Pop)).SetCv(pc.cv, cv.(lock := Some(t)))
    case Pop =>
      if cv.waiters == [] then s.Go(t, pc.(g := Wake.Unlock))
      else
        s.Go(t, pc.(g := Give(cv.waiters[0]))).SetCv(
          pc.cv, cv.(waiters := cv.waiters[1..], woken := cv.woken + [cv.waiters[0]]))
    case Give(to) => s.Go(t, pc.(g := if pc.all then Pop else Wake.Unlock)).(tokens := s.tokens[to := true])
    case Unlock => s.Go(t, Client).SetCv(pc.cv, cv.(lock := None))
  }

  function Next(s: State, m: Move): State
    requires Enabled(s, m)
  {
    match s.pcs[m.t]
    case Client => ClientStep(s, m.t, m.action)
    case Waiting(_, _, _) => WaitStep(s, m.t)
    case Waking(_, _, _) => WakeStep(s, m.t)
  }

  // ---------- The invariant ----------

  /** Inside the internal lock of condition variable `c`. */
  predicate Inside(pc: Pc, c: nat) {
    || (pc.Waiting? && pc.cv == c && (pc.w.AddPush? || pc.w.AddUnlock?))
    || (pc.Waking? && pc.cv == c && !pc.g.Lock?)
  }

  ghost predicate LockOk(s: State, c: nat)
    requires c < |s.cvs|
  {
    && (s.cvs[c].lock.Some? ==> s.cvs[c].lock.value < |s.pcs|)
    && (forall i :: 0 <= i < |s.pcs| ==> (Inside(s.pcs[i], c) <==> s.cvs[c].lock == Some(i)))
  }

  /** From the push on its list to the take of its semaphore. */
  predicate Enrolled(pc: Pc, c: nat) {
    pc.Waiting? && pc.cv == c && (pc.w.AddUnlock? || pc.w.Unlock? || pc.w.Take?)
  }

  /** Whether somebody has popped thread `i` from condition variable `c` and is about to give its semaphore. */
  predicate BeingWoken(s: State, c: nat, i: nat)
    requires c < |s.cvs|
  {
    var pc := Owner(s.cvs[c].lock, s.pcs);
    pc.Some? && pc.value.Waking? && pc.value.cv == c && pc.value.g == Give(i)
  }

  predicate NoDuplicates(q: seq<nat>) {
    forall k, l :: 0 <= k < l < |q| ==> q[k] != q[l]
  }

  /** The list holds distinct threads that are in a Wait on this condition variable, in the order of their arrival; a
      thread that is being woken is out of the list, and its semaphore is empty.
    */
  ghost predicate CvOk(s: State, c: nat)
    requires c < |s.cvs| && s.Shaped()
  {
    var cv := s.cvs[c];
    && NoDuplicates(cv.waiters) && cv.arrived == cv.woken + cv.waiters
    && (forall i :: i in cv.waiters ==> i < |s.pcs| && Enrolled(s.pcs[i], c))
    && (forall i :: 0 <= i < |s.pcs| && BeingWoken(s, c, i) ==>
          Enrolled(s.pcs[i], c) && i !in cv.waiters && !s.tokens[i])
  }

  /** A semaphore is full only from the give after the pop to its take; a popped thread has its token, or is about to be
      given it; and Wait holds its mutex until it gives it.
    */
  ghost predicate ThreadOk(s: State, i: nat)
    requires s.Shaped() && i < |s.pcs|
  {
    var pc := s.pcs[i];
    && (if pc.Waiting? && Enrolled(pc, pc.cv) && i !in s.cvs[pc.cv].waiters then s.tokens[i] != BeingWoken(s, pc.cv, i)
        else !s.tokens[i])
    && (pc.Waiting? && !pc.w.Take? && !pc.w.Relock? ==> s.mutexes[pc.mutex] == Some(i))
  }

  ghost predicate Locks(s: State) {
    s.Shaped() && forall c :: 0 <= c < |s.cvs| ==> LockOk(s, c)
  }

  ghost predicate Invariant(s: State) {
    && Locks(s)
    && (forall c :: 0 <= c < |s.cvs| ==> CvOk(s, c))
    && (forall i :: 0 <= i < |s.pcs| ==> ThreadOk(s, i))
  }

  lemma InvariantInitially(threads: nat, cvs: nat, mutexes: nat)
    ensures Invariant(Initial(threads, cvs, mutexes))
  {
  }

  lemma ClientLocks(s: State, m: Move)
    requires Locks(s) && Enabled(s, m) && s.pcs[m.t].Client?
    ensures Locks(Next(s, m))
  {
    forall c | 0 <= c < |s.cvs| ensures LockOk(Next(s, m), c) {
      assert LockOk(s, c);
    }
  }

  lemma WaitLocks(s: State, m: Move)
    requires Locks(s) && Enabled(s, m) && s.pcs[m.t].Waiting?
    ensures Locks(Next(s, m))
  {
    forall c | 0 <= c < |s.cvs| ensures LockOk(Next(s, m), c) {
      assert LockOk(s, c);
    }
  }

  lemma WakeLocks(s: State, m: Move)
    requires Invariant(s) && Enabled(s, m) && s.pcs[m.t].Waking?
    ensures Locks(Next(s, m))
  {
    var q := s.cvs[s.pcs[m.t].cv].waiters;
    assert CvOk(s, s.pcs[m.t].cv) && (q != [] ==> q[0] in q);
    forall c | 0 <= c < |s.cvs| ensures LockOk(Next(s, m), c) {
      assert LockOk(s, c);
    }
  }

  lemma ClientKeeps(s: State, m: Move)
    requires Invariant(s) && Enabled(s, m) && s.pcs[m.t].Client? && Locks(Next(s, m))
    ensures Invariant(Next(s, m))
  {
    var s' := Next(s, m);
    assert ThreadOk(s, m.t);
    forall c | 0 <= c < |s'.cvs| ensures CvOk(s', c) {
      assert CvOk(s, c) && LockOk(s, c);
    }
    forall i | 0 <= i < |s'.pcs| ensures ThreadOk(s', i) {
      assert ThreadOk(s, i);
    }
  }

  lemma WaitKeepsOther(s: State, m: Move, c: nat)
    requires Invariant(s) && Enabled(s, m) && s.pcs[m.t].Waiting? && Locks(Next(s, m))
    requires c < |s.cvs| && c != s.pcs[m.t].cv
    ensures CvOk(Next(s, m), c)
  {
    assert CvOk(s, c) && LockOk(s, c) && ThreadOk(s, m.t);
  }

  lemma WakeKeepsOther(s: State, m: Move, c: nat)
    requires Invariant(s) && Enabled(s, m) && s.pcs[m.t].Waking? && Locks(Next(s, m))
    requires c < |s.cvs| && c != s.pcs[m.t].cv
    ensures CvOk(Next(s, m), c)
  {
    var d := s.pcs[m.t].cv;
    assert CvOk(s, c) && LockOk(s, c) && LockOk(s, d) && CvOk(s, d);
    if s.pcs[m.t].g.Give? {
      assert BeingWoken(s, d, s.pcs[m.t].g.to);
    }
  }

  lemma PushKeepsCv(s: State, m: Move)
    requires Invariant(s) && Enabled(s, m) && s.pcs[m.t].Waiting? && s.pcs[m.t].w.AddPush? && Locks(Next(s, m))
    ensures CvOk(Next(s, m), s.pcs[m.t].cv)
  {
    var c := s.pcs[m.t].cv;
    assert CvOk(s, c) && LockOk(s, c) && LockOk(Next(s, m), c);
  }

  lemma WaitKeepsCv(s: State, m: Move)
    requires Invariant(s) && Enabled(s, m) && s.pcs[m.t].Waiting? && !s.pcs[m.t].w.AddPush? && Locks(Next(s, m))
    ensures CvOk(Next(s, m), s.pcs[m.t].cv)
  {
    var c := s.pcs[m.t].cv;
    assert CvOk(s, c) && LockOk(s, c) && ThreadOk(s, m.t);
  }

  lemma WaitKeepsThread(s: State, m: Move, i: nat)
    requires Invariant(s) && Enabled(s, m) && s.pcs[m.t].Waiting? && Locks(Next(s, m)) && i < |s.pcs|
    ensures ThreadOk(Next(s, m), i)
  {
    assert LockOk(s, s.pcs[m.t].cv) && ThreadOk(s, m.t) && ThreadOk(s, i) && CvOk(s, s.pcs[m.t].cv);
    if s.pcs[i].Waiting? {
      assert LockOk(s, s.pcs[i].cv) && CvOk(s, s.pcs[i].cv);
    }
  }

  lemma Popped(q: seq<nat>)
    requires NoDuplicates(q) && q != []
    ensures q == [q[0]] + q[1..] && NoDuplicates(q[1..])
    ensures q[0] in q && q[0] !in q[1..] && forall i :: i in q[1..] ==> i in q
  {
  }

  lemma PopKeepsCv(s: State, m: Move)
    requires Invariant(s) && Enabled(s, m) && s.pcs[m.t].Waking? && s.pcs[m.t].g.Pop? && Locks(Next(s, m))
    ensures CvOk(Next(s, m), s.pcs[m.t].cv)
  {
    var c := s.pcs[m.t].cv;
    var q := s.cvs[c].waiters;
    assert CvOk(s, c) && LockOk(s, c);
    if q != [] {
      Popped(q);
      assert ThreadOk(s, q[0]);
    }
  }

  lemma WakeKeepsCv(s: State, m: Move)
    requires Invariant(s) && Enabled(s, m) && s.pcs[m.t].Waking? && !s.pcs[m.t].g.Pop? && Locks(Next(s, m))
    ensures CvOk(Next(s, m), s.pcs[m.t].cv)
  {
    var c := s.pcs[m.t].cv;
    assert CvOk(s, c) && LockOk(s, c);
  }

  lemma WakeKeepsThread(s: State, m: Move, i: nat)
    requires Invariant(s) && Enabled(s, m) && s.pcs[m.t].Waking? && Locks(Next(s, m)) && i < |s.pcs|
    ensures ThreadOk(Next(s, m), i)
  {
    assert LockOk(s, s.pcs[m.t].cv) && ThreadOk(s, i) && CvOk(s, s.pcs[m.t].cv);
    if s.pcs[i].Waiting? {
      assert LockOk(s, s.pcs[i].cv) && CvOk(s, s.pcs[i].cv);
    }
  }

  lemma CvKept(s: State, m: Move, c: nat)
    requires Invariant(s) && Enabled(s, m) && !s.pcs[m.t].Client? && Locks(Next(s, m)) && c < |s.cvs|
    ensures CvOk(Next(s, m), c)
  {
    if c != s.pcs[m.t].cv {
      if s.pcs[m.t].Waiting? {
        WaitKeepsOther(s, m, c);
      } else {
        WakeKeepsOther(s, m, c);
      }
      return;
    }
    match s.pcs[m.t] {
      case Waiting(_, _, AddPush) => PushKeepsCv(s, m); return;
      case Waiting(_, _, _) => WaitKeepsCv(s, m); return;
      case Waking(_, _, Pop) => PopKeepsCv(s, m); return;
      case Waking(_, _, _) => WakeKeepsCv(s, m); return;
    }
  }

  lemma ThreadKept(s: State, m: Move, i: nat)
    requires Invariant(s) && Enabled(s, m) && !s.pcs[m.t].Client? && Locks(Next(s, m)) && i < |s.pcs|
    ensures ThreadOk(Next(s, m), i)
  {
    if s.pcs[m.t].Waiting? {
      WaitKeepsThread(s, m, i);
      return;
    } else {
      WakeKeepsThread(s, m, i);
      return;
    }
  }

  lemma LocksKept(s: State, m: Move)
    requires Invariant(s) && Enabled(s, m)
    ensures Locks(Next(s, m)) && |Next(s, m).cvs| == |s.cvs| && |Next(s, m).pcs| == |s.pcs|
  {
    match s.pcs[m.t] {
      case Client => ClientLocks(s, m); return;
      case Waiting(_, _, _) => WaitLocks(s, m); return;
      case Waking(_, _, _) => WakeLocks(s, m); return;
    }
  }

  lemma InvariantKept(s: State, m: Move)
    requires Invariant(s) && Enabled(s, m)
    ensures Invariant(Next(s, m))
  {
    LocksKept(s, m);
    if s.pcs[m.t].Client? {
      ClientKeeps(s, m);
      return;
    }
    forall c | 0 <= c < |s.cvs| ensures CvOk(Next(s, m), c) {
      CvKept(s, m, c);
    }
    forall i | 0 <= i < |s.pcs| ensures ThreadOk(Next(s, m), i) {
      ThreadKept(s, m, i);
    }
  }

  // ---------- Whole runs ----------

  ghost predicate Legal(s: State, schedule: seq<Move>)
    decreases |schedule|
  {
    schedule == [] || (Enabled(s, schedule[0]) && Legal(Next(s, schedule[0]), schedule[1..]))
  }

  ghost function Run(s: State, schedule: seq<Move>): State
    requires Legal(s, schedule)
    decreases |schedule|
  {
    if schedule == [] then s else Run(Next(s, schedule[0]), schedule[1..])
  }

  lemma {:induction false} InvariantAlways(s: State, schedule: seq<Move>)
    requires Invariant(s) && Legal(s, schedule)
    ensures Invariant(Run(s, schedule))
    decreases |schedule|
  {
    if schedule != [] {
      InvariantKept(s, schedule[0]);
      InvariantAlways(Next(s, schedule[0]), schedule[1..]);
    }
  }

  // ---------- What condition variables are for ----------

  /** No give is lost: the semaphore is empty, and its thread is in Wait, past its push and not past its take, however
      late the give comes; not even one that comes before the thread has given its mutex is wasted.
    */
  lemma GiveIsNotLost(s: State, t: nat)
    requires Invariant(s) && t < |s.pcs| && s.pcs[t].Waking? && s.pcs[t].g.Give?
    ensures var to, c := s.pcs[t].g.to, s.pcs[t].cv;
      && to < |s.pcs| && Enrolled(s.pcs[to], c) && !s.tokens[to]
      && (forall d :: 0 <= d < |s.cvs| ==> to !in s.cvs[d].waiters)
  {
    var to, c := s.pcs[t].g.to, s.pcs[t].cv;
    assert s.Names(s.pcs[t]);
    assert LockOk(s, c) && CvOk(s, c) && BeingWoken(s, c, to);
    forall d | 0 <= d < |s.cvs| ensures to !in s.cvs[d].waiters {
      assert CvOk(s, d);
    }
  }

  /** A thread is in at most one list, and there at most once. */
  lemma InOneList(s: State, c: nat, d: nat, k: nat, l: nat)
    requires Invariant(s) && c < |s.cvs| && d < |s.cvs| && k < |s.cvs[c].waiters| && l < |s.cvs[d].waiters|
    requires s.cvs[c].waiters[k] == s.cvs[d].waiters[l]
    ensures c == d && k == l
  {
    assert CvOk(s, c) && CvOk(s, d);
    assert s.cvs[c].waiters[k] in s.cvs[c].waiters && s.cvs[d].waiters[l] in s.cvs[d].waiters;
  }

  /** A thread that sleeps in its take is still listed, or somebody who popped it is about to give its semaphore; and a
      thread that finds its semaphore full was popped.
    */
  lemma SleepsUntilPopped(s: State, i: nat)
    requires Invariant(s) && i < |s.pcs| && s.pcs[i].Waiting? && s.pcs[i].w.Take?
    ensures s.pcs[i].cv < |s.cvs|
    ensures !s.tokens[i] <==> i in s.cvs[s.pcs[i].cv].waiters || BeingWoken(s, s.pcs[i].cv, i)
  {
    assert ThreadOk(s, i) && s.Names(s.pcs[i]) && CvOk(s, s.pcs[i].cv);
  }

  /** In every run from the start, threads are woken in the order in which they came. */
  lemma WokenInOrder(threads: nat, cvs: nat, mutexes: nat, schedule: seq<Move>, c: nat)
    requires Legal(Initial(threads, cvs, mutexes), schedule)
    requires c < |Run(Initial(threads, cvs, mutexes), schedule).cvs|
    ensures var cv := Run(Initial(threads, cvs, mutexes), schedule).cvs[c];
      cv.woken <= cv.arrived && cv.arrived == cv.woken + cv.waiters
  {
    InvariantInitially(threads, cvs, mutexes);
    InvariantAlways(Initial(threads, cvs, mutexes), schedule);
    assert CvOk(Run(Initial(threads, cvs, mutexes), schedule), c);
  }

  // ---------- Broadcast ----------

  /** Thread `t` is in the loop of a Broadcast that began when `all` were all that had ever arrived. */
  ghost predicate Sweeping(s: State, t: nat, c: nat, all: seq<nat>) {
    && t < |s.pcs| && c < |s.cvs| && s.pcs[t].Waking? && s.pcs[t].cv == c && s.pcs[t].all && !s.pcs[t].g.Lock?
    && s.cvs[c].arrived == all
    && (s.pcs[t].g.Unlock? ==> s.cvs[c].waiters == [] && s.cvs[c].woken == all)
  }

  /** The steps it still has to make before its Unlock. */
  function SweepRank(s: State, t: nat, c: nat): nat
    requires t < |s.pcs| && c < |s.cvs| && s.pcs[t].Waking?
  {
    match s.pcs[t].g
    case Lock => 0
    case Pop => 2 * |s.cvs[c].waiters| + 1
    case Give(_) => 2 * |s.cvs[c].waiters| + 2
    case Unlock => 0
  }

  /** Nobody gets in the way of a Broadcast: it can always move, only its own steps change its list, and each of them
      brings it nearer to its end.
    */
  lemma SweepGoesOn(s: State, m: Move, t: nat, c: nat, all: seq<nat>)
    requires Invariant(s) && Enabled(s, m) && Sweeping(s, t, c, all) && !(m.t == t && s.pcs[t].g.Unlock?)
    ensures Enabled(s, m.(t := t))
    ensures Sweeping(Next(s, m), t, c, all)
    ensures SweepRank(Next(s, m), t, c) == if m.t == t then SweepRank(s, t, c) - 1 else SweepRank(s, t, c)
  {
    assert CvOk(s, c) && LockOk(s, c) && s.Names(s.pcs[t]);
    assert s.cvs[c].lock == Some(t);
    if m.t == t {
      if s.cvs[c].waiters == [] {
        assert s.cvs[c].woken + [] == s.cvs[c].woken;
      }
      return;
    } else {
      assert !Inside(s.pcs[m.t], c);
      return;
    }
  }

  /** Thread `t` does not give the internal lock in this run. */
  ghost predicate Sweeps(s: State, schedule: seq<Move>, t: nat)
    requires Legal(s, schedule)
    decreases |schedule|
  {
    schedule != [] ==>
      && !(schedule[0].t == t && s.pcs[t].Waking? && s.pcs[t].g.Unlock?)
      && Sweeps(Next(s, schedule[0]), schedule[1..], t)
  }

  function StepsOf(schedule: seq<Move>, t: nat): nat {
    if schedule == [] then 0 else Bit(schedule[0].t == t) + StepsOf(schedule[1..], t)
  }

  /** A Broadcast that finds `n` threads in the list has woken each of them once, in order, and nobody else, after
      exactly `2 * n + 1` steps of its own, whatever the other threads do meanwhile.
    */
  lemma {:induction false} BroadcastWakesAll(s: State, schedule: seq<Move>, t: nat, c: nat, all: seq<nat>)
    requires Invariant(s) && Sweeping(s, t, c, all) && Legal(s, schedule) && Sweeps(s, schedule, t)
    ensures var s' := Run(s, schedule);
      && Sweeping(s', t, c, all) && SweepRank(s', t, c) == SweepRank(s, t, c) - StepsOf(schedule, t)
      && (StepsOf(schedule, t) == SweepRank(s, t, c) ==> s'.cvs[c].waiters == [] && s'.cvs[c].woken == all)
    decreases |schedule|
  {
    if schedule != [] {
      SweepGoesOn(s, schedule[0], t, c, all);
      InvariantKept(s, schedule[0]);
      BroadcastWakesAll(Next(s, schedule[0]), schedule[1..], t, c, all);
    }
  }

  lemma First(s: State, m: Move, rest: seq<Move>)
    requires Enabled(s, m) && Legal(Next(s, m), rest)
    ensures Legal(s, [m] + rest) && Run(s, [m] + rest) == Run(Next(s, m), rest)
  {
    assert ([m] + rest)[1..] == rest;
  }

  lemma {:induction false} SweepAlone(s: State, m: Move, c: nat, all: seq<nat>) returns (schedule: seq<Move>)
    requires Invariant(s) && Sweeping(s, m.t, c, all) && s.pcs[m.t] != Waking(c, true, Lock)
    ensures Legal(s, schedule) && |schedule| == SweepRank(s, m.t, c) + 1
    ensures var s' := Run(s, schedule);
      && m.t < |s'.pcs| && s'.pcs[m.t].Client? && c < |s'.cvs|
      && s'.cvs[c].lock.None? && s'.cvs[c].waiters == [] && s'.cvs[c].woken == all
    decreases SweepRank(s, m.t, c), if s.pcs[m.t].g.Unlock? then 0 else 1
  {
    assert Enabled(s, m) by {
      assert CvOk(s, c) && LockOk(s, c) && s.Names(s.pcs[m.t]);
    }
    if s.pcs[m.t].g.Unlock? {
      First(s, m, []);
      return [m];
    }
    SweepGoesOn(s, m, m.t, c, all);
    InvariantKept(s, m);
    var rest := SweepAlone(Next(s, m), m, c, all);
    First(s, m, rest);
    schedule := [m] + rest;
  }

  /** Any thread may call Broadcast at any time; with nobody else moving it takes four steps, and two for each thread that
      it wakes.
    */
  lemma BroadcastAlone(s: State, t: nat, c: nat) returns (schedule: seq<Move>)
    requires Invariant(s) && t < |s.pcs| && s.pcs[t].Client? && c < |s.cvs| && s.cvs[c].lock.None?
    ensures Legal(s, schedule) && |schedule| == 2 * |s.cvs[c].waiters| + 4
    ensures var s' := Run(s, schedule);
      && t < |s'.pcs| && s'.pcs[t].Client? && c < |s'.cvs|
      && s'.cvs[c].lock.None? && s'.cvs[c].waiters == []
      && s'.cvs[c].woken == s.cvs[c].woken + s.cvs[c].waiters
  {
    var m := Move(t, CallBroadcast(c));
    var s1 := Next(s, m);
    InvariantKept(s, m);
    var s2 := Next(s1, m);
    InvariantKept(s1, m);
    assert CvOk(s, c);
    var rest := SweepAlone(s2, m, c, s.cvs[c].arrived);
    First(s1, m, rest);
    First(s, m, [m] + rest);
    schedule := [m] + ([m] + rest);
  }

  // ---------- Whole calls ----------

  /** Thread `t` is in a call in every state of the run but the last. */
  ghost predicate Within(s: State, schedule: seq<Move>, t: nat)
    requires Legal(s, schedule) && t < |s.pcs|
    decreases |schedule|
  {
    schedule != [] ==>
      && !s.pcs[t].Client?
      && t < |Next(s, schedule[0]).pcs| && Within(Next(s, schedule[0]), schedule[1..], t)
  }

  /** Whom a call wakes that finds `waiters` in the list. */
  function Chosen(all: bool, waiters: seq<nat>): seq<nat> {
    if all || waiters == [] then waiters else [waiters[0]]
  }

  /** Thread `t` is inside the internal lock in a Broadcast, or a Signal if not `all`, which found `start`. */
  ghost predicate Serving(s: State, t: nat, c: nat, all: bool, start: Cv) {
    && t < |s.pcs| && c < |s.cvs| && s.pcs[t].Waking? && s.pcs[t].cv == c && s.pcs[t].all == all && !s.pcs[t].g.Lock?
    && (var cv, g := s.cvs[c], s.pcs[t].g;
        && cv.woken + cv.waiters == start.woken + start.waiters
        && (g.Unlock? || (g.Give? && !all) ==> cv.woken == start.woken + Chosen(all, start.waiters))
        && (g.Pop? && !all ==> cv.woken == start.woken && cv.waiters == start.waiters))
  }

  /** Only the owner of the internal lock changes the list and its history. */
  lemma OthersLeaveIt(s: State, m: Move, t: nat, c: nat)
    requires Invariant(s) && Enabled(s, m) && t < |s.pcs| && c < |s.cvs| && Inside(s.pcs[t], c) && m.t != t
    ensures var s' := Next(s, m);
      |s'.pcs| == |s.pcs| && |s'.cvs| == |s.cvs| && s'.pcs[t] == s.pcs[t] && s'.cvs[c] == s.cvs[c]
  {
    assert LockOk(s, c);
    assert !Inside(s.pcs[m.t], c);
  }

  lemma ServerMoves(s: State, m: Move, t: nat, c: nat, all: bool, start: Cv)
    requires Invariant(s) && Enabled(s, m) && m.t == t && Serving(s, t, c, all, start)
    ensures var s' := Next(s, m);
      if s.pcs[t].g.Unlock? then t < |s'.pcs| && s'.pcs[t].Client? && c < |s'.cvs| && s'.cvs[c].woken == s.cvs[c].woken
      else Serving(s', t, c, all, start)
  {
    var cv := s.cvs[c];
    if s.pcs[t].g.Pop? {
      if cv.waiters == [] {
        assert cv.woken + [] == cv.woken;
      } else {
        assert cv.woken + cv.waiters == (cv.woken + [cv.waiters[0]]) + cv.waiters[1..];
      }
    }
  }

  lemma {:induction false} ServesToTheEnd(s: State, schedule: seq<Move>, t: nat, c: nat, all: bool, start: Cv)
    requires Invariant(s) && Serving(s, t, c, all, start) && Legal(s, schedule) && Within(s, schedule, t)
    requires t < |Run(s, schedule).pcs| && Run(s, schedule).pcs[t].Client?
    ensures c < |Run(s, schedule).cvs|
    ensures Run(s, schedule).cvs[c].woken == start.woken + Chosen(all, start.waiters)
    decreases |schedule|
  {
    var m, s' := schedule[0], Next(s, schedule[0]);
    InvariantKept(s, m);
    if m.t != t {
      OthersLeaveIt(s, m, t, c);
      ServesToTheEnd(s', schedule[1..], t, c, all, start);
    } else {
      ServerMoves(s, m, t, c, all, start);
      if !s.pcs[t].g.Unlock? {
        ServesToTheEnd(s', schedule[1..], t, c, all, start);
      }
    }
  }

  lemma OthersLeaveAtLock(s: State, m: Move, t: nat)
    requires Enabled(s, m) && t < |s.pcs| && m.t != t
    ensures t < |Next(s, m).pcs| && |Next(s, m).cvs| == |s.cvs| && Next(s, m).pcs[t] == s.pcs[t]
  {
  }

  lemma {:induction false} WakesFromLock(s: State, schedule: seq<Move>, t: nat, c: nat, all: bool) returns (n: nat)
    requires Invariant(s) && t < |s.pcs| && c < |s.cvs| && s.pcs[t] == Waking(c, all, Lock)
    requires Legal(s, schedule) && Within(s, schedule, t)
    requires t < |Run(s, schedule).pcs| && Run(s, schedule).pcs[t].Client?
    ensures n < |schedule| && schedule[n].t == t && Legal(s, schedule[..n])
    ensures c < |Run(s, schedule[..n]).cvs| && c < |Run(s, schedule).cvs|
    ensures var at := Run(s, schedule[..n]).cvs[c];
      at.lock.None? && NoDuplicates(at.waiters) && Run(s, schedule).cvs[c].woken == at.woken + Chosen(all, at.waiters)
    decreases |schedule|
  {
    var m, s' := schedule[0], Next(s, schedule[0]);
    InvariantKept(s, m);
    if m.t == t {
      n := 0;
      assert CvOk(s, c);
      assert Serving(s', t, c, all, s.cvs[c]);
      ServesToTheEnd(s', schedule[1..], t, c, all, s.cvs[c]);
    } else {
      OthersLeaveAtLock(s, m, t);
      var k := WakesFromLock(s', schedule[1..], t, c, all);
      n := k + 1;
      assert schedule[..n][1..] == schedule[1..][..k];
    }
  }

  /** A whole call of Broadcast, or of Signal: let `at` be the list when the call takes the internal lock, at its `n`-th
      move. When it returns, everybody in `at` has been woken, each once and in order, and nobody else since; or, by a
      Signal, exactly the one that had waited longest, if there was one. That is so whatever the others do meanwhile.
    */
  lemma CallWakes(s: State, schedule: seq<Move>, t: nat, c: nat, all: bool) returns (n: nat)
    requires Invariant(s) && Legal(s, schedule) && schedule != [] && t < |s.pcs| && s.pcs[t].Client?
    requires schedule[0] == Move(t, if all then CallBroadcast(c) else CallSignal(c))
    requires t < |Next(s, schedule[0]).pcs| && Within(Next(s, schedule[0]), schedule[1..], t)
    requires t < |Run(s, schedule).pcs| && Run(s, schedule).pcs[t].Client?
    ensures 0 < n < |schedule| && schedule[n].t == t && Legal(s, schedule[..n])
    ensures c < |Run(s, schedule[..n]).cvs| && c < |Run(s, schedule).cvs|
    ensures var at := Run(s, schedule[..n]).cvs[c];
      at.lock.None? && NoDuplicates(at.waiters) && Run(s, schedule).cvs[c].woken == at.woken + Chosen(all, at.waiters)
  {
    InvariantKept(s, schedule[0]);
    var k := WakesFromLock(Next(s, schedule[0]), schedule[1..], t, c, all);
    n := k + 1;
    assert schedule[..n][1..] == schedule[1..][..k];
  }

  /** Thread `t` is in a Wait on `c` with mutex `x`, before which `since` threads had arrived; from the push on it is
      one of those that arrived later, and from the take on one of those that were woken.
    */
  ghost predicate WaitsSince(s: State, t: nat, c: nat, x: nat, since: nat) {
    && t < |s.pcs| && c < |s.cvs| && s.pcs[t].Waiting? && s.pcs[t].cv == c && s.pcs[t].mutex == x
    && since <= |s.cvs[c].arrived|
    && (Enrolled(s.pcs[t], c) ==> exists p :: since <= p < |s.cvs[c].arrived| && s.cvs[c].arrived[p] == t)
    && (s.pcs[t].w.Relock? ==> exists p :: since <= p < |s.cvs[c].woken| && s.cvs[c].woken[p] == t)
  }

  lemma HistoryGrows(s: State, m: Move, c: nat)
    requires Enabled(s, m) && c < |s.cvs|
    ensures var s' := Next(s, m);
      |s'.cvs| == |s.cvs| && s.cvs[c].arrived <= s'.cvs[c].arrived && s.cvs[c].woken <= s'.cvs[c].woken
  {
  }

  lemma OthersWaitOn(s: State, m: Move, t: nat, c: nat, x: nat, since: nat)
    requires Enabled(s, m) && m.t != t && WaitsSince(s, t, c, x, since)
    ensures WaitsSince(Next(s, m), t, c, x, since)
  {
    HistoryGrows(s, m, c);
    OthersLeaveAtLock(s, m, t);
  }

  lemma WokenOrWaiting(cv: Cv, p: nat)
    requires cv.arrived == cv.woken + cv.waiters && p < |cv.arrived|
    ensures (p < |cv.woken| && cv.woken[p] == cv.arrived[p]) || cv.arrived[p] in cv.waiters
  {
    if p >= |cv.woken| {
      assert cv.arrived[p] == cv.waiters[p - |cv.woken|];
    }
  }

  lemma WaiterMoves(s: State, m: Move, t: nat, c: nat, x: nat, since: nat)
    requires Invariant(s) && Enabled(s, m) && m.t == t && WaitsSince(s, t, c, x, since) && !s.pcs[t].w.Relock?
    ensures WaitsSince(Next(s, m), t, c, x, since)
  {
    var cv := s.cvs[c];
    assert CvOk(s, c) && ThreadOk(s, t);
    if s.pcs[t].w.AddPush? {
      assert (cv.arrived + [t])[|cv.arrived|] == t;
    } else if s.pcs[t].w.Take? {
      var p :| since <= p < |cv.arrived| && cv.arrived[p] == t;
      WokenOrWaiting(cv, p);
    }
  }

  lemma {:induction false} WaitsToTheEnd(s: State, schedule: seq<Move>, t: nat, c: nat, x: nat, since: nat)
    requires Invariant(s) && WaitsSince(s, t, c, x, since) && Legal(s, schedule) && Within(s, schedule, t)
    requires t < |Run(s, schedule).pcs| && Run(s, schedule).pcs[t].Client?
    ensures var s' := Run(s, schedule);
      && x < |s'.mutexes| && s'.mutexes[x] == Some(t) && c < |s'.cvs|
      && (exists p :: since <= p < |s'.cvs[c].woken| && s'.cvs[c].woken[p] == t)
    decreases |schedule|
  {
    var m, s' := schedule[0], Next(s, schedule[0]);
    InvariantKept(s, m);
    if m.t != t {
      OthersWaitOn(s, m, t, c, x, since);
      WaitsToTheEnd(s', schedule[1..], t, c, x, since);
    } else if !s.pcs[t].w.Relock? {
      WaiterMoves(s, m, t, c, x, since);
      WaitsToTheEnd(s', schedule[1..], t, c, x, since);
    } else {
      assert s'.pcs[t].Client? && schedule[1..] == [];
    }
  }

  /** A whole call of Wait: when it returns, the thread holds the mutex again, and it has been woken since it called. */
  lemma WaitReturnsWoken(s: State, schedule: seq<Move>, t: nat, c: nat, x: nat)
    requires Invariant(s) && Legal(s, schedule) && schedule != [] && t < |s.pcs| && s.pcs[t].Client?
    requires schedule[0] == Move(t, CallWait(c, x)) && c < |s.cvs|
    requires t < |Next(s, schedule[0]).pcs| && Within(Next(s, schedule[0]), schedule[1..], t)
    requires t < |Run(s, schedule).pcs| && Run(s, schedule).pcs[t].Client?
    ensures var s' := Run(s, schedule);
      && x < |s'.mutexes| && s'.mutexes[x] == Some(t) && c < |s'.cvs|
      && (exists p :: |s.cvs[c].arrived| <= p < |s'.cvs[c].woken| && s'.cvs[c].woken[p] == t)
  {
    InvariantKept(s, schedule[0]);
    WaitsToTheEnd(Next(s, schedule[0]), schedule[1..], t, c, x, |s.cvs[c].arrived|);
  }

  // ---------- The threads themselves ----------

  /** The threads and what they share, changed in place one statement at a time. */
  class Threads {
    var cvs: seq<Cv>
    var mutexes: seq<Mutex>
    var pcs: seq<Pc>
    var tokens: seq<bool>

    ghost function Value(): State
      reads this
    {
      State(cvs, mutexes, pcs, tokens)
    }

    constructor (threads: nat, cvs: nat, mutexes: nat)
      ensures Value() == Initial(threads, cvs, mutexes)
    {
      this.cvs, this.mutexes := seq(cvs, i => Cv(None, [], [], [])), seq(mutexes, i => None);
      pcs, tokens := seq(threads, i => Client), seq(threads, i => false);
    }

    method DoClient(t: nat, a: Action)
      requires t < |pcs| && MayDo(Value(), t, a)
      modifies this
      ensures Value() == ClientStep(old(Value()), t, a)
    {
      match a
      case TakeMutex(m) => mutexes := mutexes[m := Some(t)];
      case GiveMutex(m) => mutexes := mutexes[m := None];
      case CallWait(c, m) => pcs := pcs[t := Waiting(c, m, AddLock)];
      case CallSignal(c) => pcs := pcs[t := Waking(c, false, Lock)];
      case CallBroadcast(c) => pcs := pcs[t := Waking(c, true, Lock)];
    }

    /** Thread::Wait and ConditionVariable::AddToWaitList. */
    method DoWait(t: nat)
      requires t < |pcs| && t < |tokens| && pcs[t].Waiting? && Value().Names(pcs[t])
      modifies this
      ensures Value() == WaitStep(old(Value()), t)
    {
      var pc := pcs[t];
      var cv := cvs[pc.cv];
      match pc.w
      case AddLock =>
        cvs := cvs[pc.cv := cv.(lock := Some(t))];
        pcs := pcs[t := pc.(w := AddPush)];
      case AddPush =>
        cvs := cvs[pc.cv := cv.(waiters := cv.waiters + [t], arrived := cv.arrived + [t])];
        pcs := pcs[t := pc.(w := AddUnlock)];
      case AddUnlock =>
        cvs := cvs[pc.cv := cv.(lock := None)];
        pcs := pcs[t := pc.(w := Wait.Unlock)];
      case Unlock =>
        mutexes := mutexes[pc.mutex := None];
        pcs := pcs[t := pc.(w := Take)];
      case Take =>
        tokens := tokens[t := false];
        pcs := pcs[t := pc.(w := Relock)];
      case Relock =>
        mutexes := mutexes[pc.mutex := Some(t)];
        pcs := pcs[t := Client];
    }

    /** ConditionVariable::Signal and ConditionVariable::Broadcast. */
    method DoWake(t: nat)
      requires t < |pcs| && pcs[t].Waking? && Value().Names(pcs[t])
      modifies this
      ensures Value() == WakeStep(old(Value()), t)
    {
      var pc := pcs[t];
      var cv := cvs[pc.cv];
      match pc.g
      case Lock =>
        cvs := cvs[pc.cv := cv.(lock := Some(t))];
        pcs := pcs[t := pc.(g := Pop)];
      case Pop =>
        if cv.waiters == [] {
          pcs := pcs[t := pc.(g := Wake.Unlock)];
        } else {
          var thr := cv.waiters[0];
          cvs := cvs[pc.cv := cv.(waiters := cv.waiters[1..], woken := cv.woken + [thr])];
          pcs := pcs[t := pc.(g := Give(thr))];
        }
      case Give(to) =>
        tokens := tokens[to := true];
        pcs := pcs[t := pc.(g := if pc.all then Pop else Wake.Unlock)];
      case Unlock =>
        cvs := cvs[pc.cv := cv.(lock := None)];
        pcs := pcs[t := Client];
    }

    method Step(m: Move)
      requires Invariant(Value()) && Enabled(Value(), m)
      modifies this
      ensures Value() == Next(old(Value()), m) && Invariant(Value())
    {
      InvariantKept(Value(), m);
      match pcs[m.t]
      case Client => DoClient(m.t, m.action);
      case Waiting(_, _, _) => DoWait(m.t);
      case Waking(_, _, _) => DoWake(m.t);
    }

    /** Runs any interleaving. */
    method Execute(schedule: seq<Move>)
      requires Invariant(Value()) && Legal(Value(), schedule)
      modifies this
      ensures Value() == Run(old(Value()), schedule) && Invariant(Value())
    {
      var k := 0;
      while k < |schedule|
        invariant k <= |schedule| && Invariant(Value()) && Legal(Value(), schedule[k..])
        invariant Run(Value(), schedule[k..]) == Run(old(Value()), schedule)
      {
        Step(schedule[k]);
        k := k + 1;
      }
    }
  }

  /** A condition variable by itself, each call run from its Lock to its Unlock; `tokens` are the threads' semaphores.
    */
  class ConditionVariable {
    var waitList: seq<nat>

    constructor ()
      ensures waitList == []
    {
      waitList := [];
    }

    method AddToWaitList(thread: nat)
      modifies this
      ensures waitList == old(waitList) + [thread]
    {
      waitList := waitList + [thread];
    }

    /** Wakes the thread that has waited longest, if any waits. */
    method Signal(tokens: array<bool>) returns (woken: seq<nat>)
      requires forall i :: i in waitList ==> i < tokens.Length
      modifies this, tokens
      ensures woken + waitList == old(waitList) && |woken| == if old(waitList) == [] then 0 else 1
      ensures forall i :: 0 <= i < tokens.Length ==> (tokens[i] <==> old(tokens[i]) || i in woken)
    {
      woken := [];
      if waitList != [] {
        var thr := waitList[0];
        assert thr in waitList;
        waitList := waitList[1..];
        tokens[thr] := true;
        woken := [thr];
      }
    }

    /** Wakes every thread that waits, each once and in the order of their arrival. */
    method Broadcast(tokens: array<bool>) returns (woken: seq<nat>)
      requires forall i :: i in waitList ==> i < tokens.Length
      modifies this, tokens
      ensures waitList == [] && woken == old(waitList)
      ensures forall i :: 0 <= i < tokens.Length ==> (tokens[i] <==> old(tokens[i]) || i in old(waitList))
    {
      woken := [];
      while waitList != []
        invariant woken + waitList == old(waitList)
        invariant forall i :: i in waitList ==> i < tokens.Length
        invariant forall i :: 0 <= i < tokens.Length ==> (tokens[i] <==> old(tokens[i]) || i in woken)
        decreases |waitList|
      {
        var thr := waitList[0];
        assert thr in waitList && forall i :: i in waitList[1..] ==> i in waitList;
        waitList := waitList[1..];
        tokens[thr] := true;
        woken := woken + [thr];
      }
    }
  }
}
