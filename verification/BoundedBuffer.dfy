/** The bounded-buffer monitor of the condition-variable demos: any number of producer and consumer threads that share
    one BoundedQueue, one mutex and two condition variables (main.cpp of Linux_g++_condition_variables2 and of
    Linux_g++_condition_variables_multiple_producers_consumers2, with ccondition_variable.cpp and Thread::Wait of
    cthread.cpp).

    Producer and consumer run the same statements with the two condition variables swapped, so one step function serves
    both. A thread whose configASSERT fails never moves again. Threads loop forever, as in the demos. `Threads` is what
    module ConditionVariables sees of the monitor, and its invariant there is a part of the invariant here.
  */
module BoundedBuffer {
  import opened Counting
  import opened FreeRtos
  import opened Sequences
  import CV = ConditionVariables

  datatype Role = Producer | Consumer {
    function Other(): Role { if this == Producer then Consumer else Producer }
  }

  datatype Pc =
    | Enter            // boundedQueueLock.Lock()
    | Test             // while (IsFull()) or while (IsEmpty())
    | Waiting(w: CV.Wait)
    | Act              // Add or Remove, with its configASSERT
    | Signalling(g: CV.Wake)
    | Leave            // boundedQueueLock.Unlock()

  datatype State = State(
    maxSize: int, curSize: int, queue: seq<int>,
    queueLock: Mutex, notEmpty: CV.Cv, notFull: CV.Cv,
    roles: seq<Role>, pcs: seq<Pc>, tokens: seq<bool>,
    data: seq<int>,                         // DataGenerator of a producer, DataVerified of a consumer
    added: seq<int>, removed: seq<int>)     // everything that went through the queue so far
  {
    predicate Shaped() {
      |roles| == |pcs| == |tokens| == |data|
    }

    /** The condition variable that role `r` waits for. */
    function CvOf(r: Role): CV.Cv {
      if r == Consumer then notEmpty else notFull
    }

    function SetCv(r: Role, c: CV.Cv): State {
      if r == Consumer then this.(notEmpty := c) else this.(notFull := c)
    }

    /** How many times role `r` could act now: on the items for a consumer, on the free places for a producer. */
    function Available(r: Role): int {
      if r == Consumer then curSize else maxSize - curSize
    }

    function Go(t: nat, pc: Pc): State
      requires t < |pcs|
    {
      this.(pcs := pcs[t := pc])
    }
  }

  function Initial(maxSize: int, roles: seq<Role>, starts: seq<int>): State
  {
    State(maxSize, 0, [], None, CV.Cv(None, [], [], []), CV.Cv(None, [], [], []),
          roles, seq(|roles|, i => Enter), seq(|roles|, i => false), starts, [], [])
  }

  predicate Enabled(s: State, t: nat) {
    s.Shaped() && t < |s.pcs| &&
    match s.pcs[t]
    case Enter => s.queueLock.None?
    case Waiting(AddLock) => s.CvOf(s.roles[t]).lock.None?
    case Waiting(Take) => s.tokens[t]
    case Waiting(Relock) => s.queueLock.None?
    case Act =>
      if s.roles[t] == Producer then s.curSize + 1 <= s.maxSize else s.curSize - 1 >= 0 && s.queue != []
    case Signalling(Lock) => s.CvOf(s.roles[t].Other()).lock.None?
    case Signalling(Give(to)) => to < |s.tokens|
    case _ => true
  }

  function WaitStep(s: State, t: nat, at: CV.Wait): State
    requires s.Shaped() && t < |s.pcs|
  {
    var r := s.roles[t];
    var cv := s.CvOf(r);
    match at
    case AddLock => s.Go(t, Waiting(CV.AddPush)).SetCv(r, cv.(lock := Some(t)))
    case AddPush =>
      s.Go(t, Waiting(CV.AddUnlock)).SetCv(r, cv.(waiters := cv.waiters + [t], arrived := cv.arrived + [t]))
    case AddUnlock => s.Go(t, Waiting(CV.Wait.Unlock)).SetCv(r, cv.(lock := None))
    case Unlock => s.Go(t, Waiting(CV.Take)).(queueLock := None)
    case Take => s.Go(t, Waiting(CV.Relock)).(tokens := s.tokens[t := false])
    case Relock => s.Go(t, Test).(queueLock := Some(t))
  }

  function ActStep(s: State, t: nat): State
    requires Enabled(s, t) && s.pcs[t].Act?
  {
    var x := s.data[t];
    var s1 := s.Go(t, Signalling(CV.Lock)).(data := s.data[t := x + 1]);
    if s.roles[t] == Producer then
      s1.(curSize := s.curSize + 1, queue := [x] + s.queue, added := s.added + [x])
    else
      var last := |s.queue| - 1;
      s1.(curSize := s.curSize - 1, queue := s.queue[..last], removed := s.removed + [s.queue[last]])
  }

  function SignalStep(s: State, t: nat, at: CV.Wake): State
    requires Enabled(s, t) && s.pcs[t] == Signalling(at)
  {
    var r := s.roles[t].Other();
    var cv := s.CvOf(r);
    match at
    case Lock => s.Go(t, Signalling(CV.Pop)).SetCv(r, cv.(lock := Some(t)))
    case Pop =>
      if cv.waiters == [] then s.Go(t, Signalling(CV.Wake.Unlock))
      else
        s.Go(t, Signalling(CV.Give(cv.waiters[0]))).SetCv(
          r, cv.(waiters := cv.waiters[1..], woken := cv.woken + [cv.waiters[0]]))
    case Give(to) => s.Go(t, Signalling(CV.Wake.Unlock)).(tokens := s.tokens[to := true])
    case Unlock => s.Go(t, Leave).SetCv(r, cv.(lock := None))
  }

  /** The state after thread `t` executes the statement it is at. */
  function Next(s: State, t: nat): State
    requires Enabled(s, t)
  {
    match s.pcs[t]
    case Enter => s.Go(t, Test).(queueLock := Some(t))
    case Test => s.Go(t, if s.Available(s.roles[t]) == 0 then Waiting(CV.AddLock) else Act)
    case Waiting(at) => WaitStep(s, t, at)
    case Act => ActStep(s, t)
    case Signalling(at) => SignalStep(s, t, at)
    case Leave => s.Go(t, Enter).(queueLock := None)
  }

  // ---------- The threads as clients of condition variables ----------

  function CvIndex(r: Role): nat { if r == Consumer then 0 else 1 }

  function ThreadPc(pc: Pc, r: Role): CV.Pc {
    match pc
    case Waiting(w) => CV.Waiting(CvIndex(r), 0, w)
    case Signalling(g) => CV.Waking(CvIndex(r.Other()), false, g)
    case _ => CV.Client
  }

  /** What module ConditionVariables sees of the monitor. */
  function Threads(s: State): CV.State
    requires s.Shaped()
  {
    CV.State([s.notEmpty, s.notFull], [s.queueLock],
             seq(|s.pcs|, i requires 0 <= i < |s.pcs| => ThreadPc(s.pcs[i], s.roles[i])), s.tokens)
  }

  /** What a thread does as such a client when it is outside Wait and Signal. */
  function ActionOf(s: State, t: nat): CV.Action
    requires s.Shaped() && t < |s.pcs|
  {
    match s.pcs[t]
    case Test => CV.CallWait(CvIndex(s.roles[t]), 0)
    case Act => CV.CallSignal(CvIndex(s.roles[t].Other()))
    case Leave => CV.GiveMutex(0)
    case _ => CV.TakeMutex(0)
  }

  // ---------- The invariant ----------

  predicate HoldsQueue(pc: Pc) {
    !(pc.Enter? || pc == Waiting(CV.Take) || pc == Waiting(CV.Relock))
  }

  /** Where the owner of boundedQueueLock is. */
  function Holder(s: State): Option<Pc> { Owner(s.queueLock, s.pcs) }

  ghost predicate Locks(s: State) {
    s.Shaped() && Owned(s.queueLock, s.pcs, HoldsQueue)
  }

  ghost predicate Sizes(s: State)
    requires s.Shaped()
  {
    && 0 <= s.curSize <= s.maxSize && |s.queue| == s.curSize
    && (Holder(s).Some? ==>
          var pc, r := Holder(s).value, s.roles[s.queueLock.value];
          && (pc.Act? ==> s.Available(r) > 0)
          && (pc == Waiting(CV.AddLock) || pc == Waiting(CV.AddPush) ==> s.Available(r) == 0))
  }

  /** Thread `i` of role `r` will test again whether it can act, before it waits. */
  predicate Awake(s: State, r: Role, i: nat) {
    s.Shaped() && i < |s.pcs| && s.roles[i] == r &&
    (s.pcs[i] == Waiting(CV.Relock) || s.pcs[i].Test? || s.pcs[i].Act? ||
     (s.pcs[i] == Waiting(CV.Take) && i !in s.CvOf(r).waiters))
  }

  ghost function AwakeSet(s: State, r: Role): set<nat> {
    set i | 0 <= i < |s.pcs| && Awake(s, r, i)
  }

  /** A thread of the other role has acted and has not yet looked for a waiter to wake. */
  function Pending(s: State, r: Role): nat
    requires s.Shaped()
  {
    Bit((Holder(s) == Some(Signalling(CV.Lock)) || Holder(s) == Some(Signalling(CV.Pop))) &&
        s.roles[s.queueLock.value] == r.Other())
  }

  /** While somebody waits, there is an awake thread, or a wake-up on its way, for everything there is to act on. */
  ghost predicate Covered(s: State, r: Role)
    requires s.Shaped()
  {
    s.CvOf(r).waiters != [] ==> s.Available(r) <= |AwakeSet(s, r)| + Pending(s, r)
  }

  /** What went in came out, in the same order, or is still in the queue. */
  ghost predicate Fifo(s: State) {
    s.added == s.removed + Reverse(s.queue)
  }

  ghost predicate Invariant(s: State) {
    Locks(s) && CV.Invariant(Threads(s)) && Sizes(s) && Covered(s, Producer) && Covered(s, Consumer) && Fifo(s)
  }

  lemma InvariantInitially(maxSize: int, roles: seq<Role>, starts: seq<int>)
    requires maxSize >= 0 && |starts| == |roles|
    ensures Invariant(Initial(maxSize, roles, starts))
  {
    var s := Initial(maxSize, roles, starts);
    assert Threads(s).pcs == CV.Initial(|roles|, 2, 1).pcs;
    CV.InvariantInitially(|roles|, 2, 1);
    assert Threads(s) == CV.Initial(|roles|, 2, 1);
  }

  // ---------- Each step is a step of such a client ----------

  /** The step changes nothing that module ConditionVariables sees. */
  predicate Unseen(s: State, t: nat)
    requires s.Shaped() && t < |s.pcs|
  {
    s.pcs[t].Test? && s.Available(s.roles[t]) != 0
  }

  /** How the threads look after a step of thread `t` that leads to `pc`. */
  lemma ThreadsMove(s: State, t: nat, s': State)
    requires s.Shaped() && s'.Shaped() && t < |s.pcs| && s'.roles == s.roles && s'.pcs == s.pcs[t := s'.pcs[t]]
    ensures Threads(s').pcs == Threads(s).pcs[t := ThreadPc(s'.pcs[t], s.roles[t])]
  {
  }

  lemma WaitIsClientStep(s: State, t: nat)
    requires Locks(s) && Enabled(s, t) && s.pcs[t].Waiting?
    ensures var m := CV.Move(t, ActionOf(s, t));
      CV.Enabled(Threads(s), m) && Threads(Next(s, t)) == CV.Next(Threads(s), m)
  {
    ThreadsMove(s, t, Next(s, t));
  }

  lemma SignalIsClientStep(s: State, t: nat)
    requires Locks(s) && Enabled(s, t) && s.pcs[t].Signalling?
    ensures var m := CV.Move(t, ActionOf(s, t));
      CV.Enabled(Threads(s), m) && Threads(Next(s, t)) == CV.Next(Threads(s), m)
  {
    ThreadsMove(s, t, Next(s, t));
  }

  lemma OtherIsClientStep(s: State, t: nat)
    requires Locks(s) && Enabled(s, t) && !s.pcs[t].Waiting? && !s.pcs[t].Signalling?
    ensures var m := CV.Move(t, ActionOf(s, t));
      if Unseen(s, t) then Threads(Next(s, t)) == Threads(s)
      else CV.Enabled(Threads(s), m) && Threads(Next(s, t)) == CV.Next(Threads(s), m)
  {
    ThreadsMove(s, t, Next(s, t));
  }

  /** Seen from the condition variables, the monitor is a system of clients that use them as they should. */
  lemma IsClientStep(s: State, t: nat)
    requires Locks(s) && Enabled(s, t)
    ensures Next(s, t).Shaped()
    ensures var m := CV.Move(t, ActionOf(s, t));
      if Unseen(s, t) then Threads(Next(s, t)) == Threads(s)
      else CV.Enabled(Threads(s), m) && Threads(Next(s, t)) == CV.Next(Threads(s), m)
  {
    if s.pcs[t].Waiting? {
      WaitIsClientStep(s, t);
      return;
    } else if s.pcs[t].Signalling? {
      SignalIsClientStep(s, t);
      return;
    } else {
      OtherIsClientStep(s, t);
      return;
    }
  }

  lemma ThreadsKept(s: State, t: nat)
    requires Locks(s) && CV.Invariant(Threads(s)) && Enabled(s, t)
    ensures Next(s, t).Shaped() && CV.Invariant(Threads(Next(s, t)))
  {
    IsClientStep(s, t);
    if !Unseen(s, t) {
      CV.InvariantKept(Threads(s), CV.Move(t, ActionOf(s, t)));
    }
  }

  // ---------- What that says here ----------

  /** Who is in the list of a role is of that role, and in its Wait between the push and the take. */
  lemma InListMeans(s: State, r: Role, i: nat)
    requires Locks(s) && CV.Invariant(Threads(s)) && i in s.CvOf(r).waiters
    ensures i < |s.pcs| && s.roles[i] == r && s.pcs[i].Waiting?
    ensures s.pcs[i].w.AddUnlock? || s.pcs[i].w.Unlock? || s.pcs[i].w.Take?
  {
    var c := Threads(s);
    assert c.cvs[CvIndex(r)] == s.CvOf(r) && CV.CvOk(c, CvIndex(r));
    assert CV.Enrolled(c.pcs[i], CvIndex(r));
  }

  lemma ListIsDistinct(s: State, r: Role)
    requires Locks(s) && CV.Invariant(Threads(s))
    ensures CV.NoDuplicates(s.CvOf(r).waiters)
  {
    assert Threads(s).cvs[CvIndex(r)] == s.CvOf(r) && CV.CvOk(Threads(s), CvIndex(r));
  }

  lemma TokenMeansPopped(s: State, t: nat)
    requires Locks(s) && CV.Invariant(Threads(s)) && t < |s.pcs| && s.pcs[t] == Waiting(CV.Take) && s.tokens[t]
    ensures t !in s.CvOf(s.roles[t]).waiters
  {
    var c := Threads(s);
    assert c.cvs[CvIndex(s.roles[t])] == s.CvOf(s.roles[t]) && CV.ThreadOk(c, t);
  }

  lemma OneHolder(s: State, t: nat, i: nat)
    requires Locks(s) && t < |s.pcs| && i < |s.pcs| && i != t && HoldsQueue(s.pcs[t])
    ensures !HoldsQueue(s.pcs[i])
  {
  }

  // ---------- The invariant is kept ----------

  lemma LocksKept(s: State, t: nat)
    requires Locks(s) && Enabled(s, t)
    ensures Locks(Next(s, t))
  {
    OwnedKept(s.queueLock, s.pcs, t, Next(s, t).pcs[t], Next(s, t).queueLock, HoldsQueue);
  }

  lemma WaitSizes(s: State, t: nat)
    requires Locks(s) && Sizes(s) && Enabled(s, t) && Locks(Next(s, t)) && s.pcs[t].Waiting?
    ensures Sizes(Next(s, t))
  {
  }

  lemma OtherSizes(s: State, t: nat)
    requires Locks(s) && Sizes(s) && Enabled(s, t) && Locks(Next(s, t)) && !s.pcs[t].Waiting? && !s.pcs[t].Act?
    ensures Sizes(Next(s, t))
  {
  }

  lemma ActSizes(s: State, t: nat)
    requires Locks(s) && Sizes(s) && Enabled(s, t) && Locks(Next(s, t)) && s.pcs[t].Act?
    ensures Sizes(Next(s, t))
  {
  }

  lemma SetMoves(a: set<nat>, b: set<nat>, t: nat)
    requires forall i :: i != t ==> (i in a <==> i in b)
    ensures |b| == |a| - Bit(t in a) + Bit(t in b)
  {
    assert a - {t} == b - {t};
    assert a == if t in a then (a - {t}) + {t} else a - {t};
    assert b == if t in b then (b - {t}) + {t} else b - {t};
  }

  /** When only thread `t` falls asleep or awakes, the number of the awake changes by it. */
  lemma AwakeMoves(s: State, s': State, r: Role, t: nat)
    requires s.Shaped() && s'.Shaped() && t < |s.pcs| == |s'.pcs|
    requires forall i :: 0 <= i < |s.pcs| && i != t ==> Awake(s', r, i) == Awake(s, r, i)
    ensures |AwakeSet(s', r)| == |AwakeSet(s, r)| - Bit(Awake(s, r, t)) + Bit(Awake(s', r, t))
  {
    SetMoves(AwakeSet(s, r), AwakeSet(s', r), t);
  }

  lemma PushCovered(s: State, t: nat, r: Role)
    requires Locks(s) && Sizes(s) && Covered(s, r) && Enabled(s, t) && Locks(Next(s, t))
    requires s.pcs[t] == Waiting(CV.AddPush)
    ensures Covered(Next(s, t), r)
  {
    AwakeMoves(s, Next(s, t), r, t);
  }

  lemma WaitCovered(s: State, t: nat, r: Role)
    requires Locks(s) && CV.Invariant(Threads(s)) && Covered(s, r) && Enabled(s, t) && Locks(Next(s, t))
    requires s.pcs[t].Waiting? && !s.pcs[t].w.AddPush?
    ensures Covered(Next(s, t), r)
  {
    if s.pcs[t].w.Take? {
      TokenMeansPopped(s, t);
    }
    AwakeMoves(s, Next(s, t), r, t);
  }

  lemma OtherCovered(s: State, t: nat, r: Role)
    requires Locks(s) && Sizes(s) && Covered(s, r) && Enabled(s, t) && Locks(Next(s, t))
    requires !s.pcs[t].Waiting? && !s.pcs[t].Act? && s.pcs[t] != Signalling(CV.Pop)
    ensures Covered(Next(s, t), r)
  {
    AwakeMoves(s, Next(s, t), r, t);
  }

  lemma ActCovered(s: State, t: nat, r: Role)
    requires Locks(s) && Sizes(s) && Covered(s, r) && Enabled(s, t) && Locks(Next(s, t)) && s.pcs[t].Act?
    ensures Covered(Next(s, t), r)
  {
    AwakeMoves(s, Next(s, t), r, t);
  }

  lemma PopCovered(s: State, t: nat, r: Role)
    requires Locks(s) && CV.Invariant(Threads(s)) && Sizes(s) && Covered(s, r) && Enabled(s, t) && Locks(Next(s, t))
    requires s.pcs[t] == Signalling(CV.Pop)
    ensures Covered(Next(s, t), r)
  {
    var s' := Next(s, t);
    var q := s.CvOf(s.roles[t].Other()).waiters;
    if q == [] {
      AwakeMoves(s, s', r, t);
    } else {
      ListIsDistinct(s, s.roles[t].Other());
      CV.Popped(q);
      InListMeans(s, s.roles[t].Other(), q[0]);
      OneHolder(s, t, q[0]);
      PoppedAwakes(s, t, r);
      AwakeMoves(s, s', r, q[0]);
    }
  }

  lemma PoppedAwakes(s: State, t: nat, r: Role)
    requires Locks(s) && Enabled(s, t) && s.pcs[t] == Signalling(CV.Pop)
    requires s.CvOf(s.roles[t].Other()).waiters != []
    ensures var q := s.CvOf(s.roles[t].Other()).waiters;
      forall i :: 0 <= i < |s.pcs| && i != q[0] ==> Awake(Next(s, t), r, i) == Awake(s, r, i)
  {
    var q := s.CvOf(s.roles[t].Other()).waiters;
    assert q == [q[0]] + q[1..];
    assert forall i :: i != q[0] ==> (i in q <==> i in q[1..]);
  }

  lemma FifoKept(s: State, t: nat)
    requires Fifo(s) && Enabled(s, t)
    ensures Fifo(Next(s, t))
  {
    if s.pcs[t].Act? {
      if s.roles[t] == Producer {
        assert ([s.data[t]] + s.queue)[1..] == s.queue;
      } else {
        ReverseLast(s.queue);
      }
    }
  }

  lemma SizesKept(s: State, t: nat)
    requires Locks(s) && Sizes(s) && Enabled(s, t) && Locks(Next(s, t))
    ensures Sizes(Next(s, t))
  {
    if s.pcs[t].Waiting? {
      WaitSizes(s, t);
      return;
    } else if s.pcs[t].Act? {
      ActSizes(s, t);
      return;
    } else {
      OtherSizes(s, t);
      return;
    }
  }

  lemma CoveredKept(s: State, t: nat, r: Role)
    requires Locks(s) && CV.Invariant(Threads(s)) && Sizes(s) && Covered(s, r) && Enabled(s, t) && Locks(Next(s, t))
    ensures Covered(Next(s, t), r)
  {
    match s.pcs[t] {
      case Waiting(AddPush) => PushCovered(s, t, r); return;
      case Waiting(_) => WaitCovered(s, t, r); return;
      case Act => ActCovered(s, t, r); return;
      case Signalling(Pop) => PopCovered(s, t, r); return;
      case _ => OtherCovered(s, t, r); return;
    }
  }

  lemma InvariantKept(s: State, t: nat)
    requires Invariant(s) && Enabled(s, t)
    ensures Invariant(Next(s, t))
  {
    LocksKept(s, t);
    ThreadsKept(s, t);
    SizesKept(s, t);
    CoveredKept(s, t, Producer);
    CoveredKept(s, t, Consumer);
    FifoKept(s, t);
  }

  // ---------- Whole runs ----------

  ghost predicate Legal(s: State, schedule: seq<nat>)
    decreases |schedule|
  {
    schedule == [] || (Enabled(s, schedule[0]) && Legal(Next(s, schedule[0]), schedule[1..]))
  }

  ghost function Run(s: State, schedule: seq<nat>): State
    requires Legal(s, schedule)
    decreases |schedule|
  {
    if schedule == [] then s else Run(Next(s, schedule[0]), schedule[1..])
  }

  /** From the start, over every interleaving: the queue never holds more than the demo asked for. */
  lemma QueueFits(maxSize: int, roles: seq<Role>, starts: seq<int>, schedule: seq<nat>)
    requires maxSize >= 0 && |starts| == |roles| && Legal(Initial(maxSize, roles, starts), schedule)
    ensures var s := Run(Initial(maxSize, roles, starts), schedule);
      s.maxSize == maxSize && s.roles == roles && |s.queue| == s.curSize <= maxSize
  {
    InvariantInitially(maxSize, roles, starts);
    InvariantAlways(Initial(maxSize, roles, starts), schedule);
  }

  lemma StepKeepsSetup(s: State, t: nat)
    requires Enabled(s, t)
    ensures Next(s, t).roles == s.roles && Next(s, t).maxSize == s.maxSize && Next(s, t).Shaped()
  {
  }

  lemma {:induction false} InvariantAlways(s: State, schedule: seq<nat>)
    requires Invariant(s) && Legal(s, schedule)
    ensures Invariant(Run(s, schedule))
    ensures Run(s, schedule).roles == s.roles && Run(s, schedule).maxSize == s.maxSize
    decreases |schedule|
  {
    if schedule != [] {
      InvariantKept(s, schedule[0]);
      StepKeepsSetup(s, schedule[0]);
      InvariantAlways(Next(s, schedule[0]), schedule[1..]);
    }
  }

  // ---------- What the demos claim ----------

  /** The two configASSERTs of BoundedQueue hold whenever they are reached. */
  lemma AssertsHold(s: State, t: nat)
    requires Invariant(s) && t < |s.pcs| && s.pcs[t].Act?
    ensures if s.roles[t] == Producer then s.curSize + 1 <= s.maxSize else s.curSize - 1 >= 0 && s.queue != []
  {
    assert HoldsQueue(s.pcs[t]);
  }

  /** Over every interleaving from the start. */
  lemma AssertsNeverFail(maxSize: int, roles: seq<Role>, starts: seq<int>, schedule: seq<nat>, t: nat)
    requires maxSize >= 0 && |starts| == |roles| && Legal(Initial(maxSize, roles, starts), schedule)
    requires var s := Run(Initial(maxSize, roles, starts), schedule); s.Shaped() && t < |s.pcs| && s.pcs[t].Act?
    ensures var s := Run(Initial(maxSize, roles, starts), schedule);
      if s.roles[t] == Producer then s.curSize + 1 <= s.maxSize else s.curSize - 1 >= 0 && s.queue != []
  {
    InvariantInitially(maxSize, roles, starts);
    InvariantAlways(Initial(maxSize, roles, starts), schedule);
    AssertsHold(Run(Initial(maxSize, roles, starts), schedule), t);
  }

  /** The internal lock of a condition variable is never contended here: only the owner of boundedQueueLock takes it. */
  lemma CvLockFree(s: State, t: nat)
    requires Locks(s) && CV.Invariant(Threads(s)) && t < |s.pcs|
    ensures s.pcs[t] == Waiting(CV.AddLock) ==> s.CvOf(s.roles[t]).lock.None?
    ensures s.pcs[t] == Signalling(CV.Lock) ==> s.CvOf(s.roles[t].Other()).lock.None?
  {
    if s.pcs[t] == Waiting(CV.AddLock) {
      LockIsFree(s, t, s.roles[t]);
    } else if s.pcs[t] == Signalling(CV.Lock) {
      LockIsFree(s, t, s.roles[t].Other());
    }
  }

  lemma LockIsFree(s: State, t: nat, r: Role)
    requires Locks(s) && CV.Invariant(Threads(s)) && t < |s.pcs| && HoldsQueue(s.pcs[t])
    requires !CV.Inside(Threads(s).pcs[t], CvIndex(r))
    ensures s.CvOf(r).lock.None?
  {
    var c := Threads(s);
    assert c.cvs[CvIndex(r)] == s.CvOf(r) && CV.LockOk(c, CvIndex(r));
    forall i | 0 <= i < |s.pcs| ensures !CV.Inside(c.pcs[i], CvIndex(r)) {
      if i != t {
        OneHolder(s, t, i);
      }
    }
  }

  /** A semaphore is given only to a popped thread that has not taken it yet, and only when it is empty: no wake-up is
      lost.
    */
  lemma GiveIsNotLost(s: State, t: nat)
    requires Invariant(s) && t < |s.pcs| && s.pcs[t].Signalling? && s.pcs[t].g.Give?
    ensures var to := s.pcs[t].g.to;
      && to < |s.pcs| && s.pcs[to] == Waiting(CV.Take) && !s.tokens[to]
      && to !in s.notEmpty.waiters && to !in s.notFull.waiters
  {
    var c, to := Threads(s), s.pcs[t].g.to;
    CV.GiveIsNotLost(c, t);
    assert to !in c.cvs[0].waiters && to !in c.cvs[1].waiters;
    OneHolder(s, t, to);
  }

  /** The owner of boundedQueueLock can always move. */
  lemma HolderMoves(s: State)
    requires Invariant(s) && s.queueLock.Some?
    ensures Enabled(s, s.queueLock.value)
  {
    var t := s.queueLock.value;
    CvLockFree(s, t);
    assert Threads(s).Names(Threads(s).pcs[t]);
    if s.pcs[t].Act? {
      AssertsHold(s, t);
    }
  }

  /** Where every thread sleeps, each is in the list of its role. */
  lemma AsleepMeansListed(s: State, i: nat)
    requires Invariant(s) && i < |s.pcs|
    requires forall j :: 0 <= j < |s.pcs| ==> s.pcs[j] == Waiting(CV.Take) && !s.tokens[j]
    ensures i in s.CvOf(s.roles[i]).waiters
  {
    CV.SleepsUntilPopped(Threads(s), i);
  }

  /** When every thread is asleep, there is nothing for a role with a thread to act on. */
  lemma AsleepMeansNothing(s: State, r: Role, i: nat)
    requires Invariant(s) && s.queueLock.None? && i < |s.pcs| && s.roles[i] == r
    requires forall j :: 0 <= j < |s.pcs| ==> s.pcs[j] == Waiting(CV.Take) && !s.tokens[j]
    ensures s.Available(r) <= 0
  {
    AsleepMeansListed(s, i);
    forall j | 0 <= j < |s.pcs| ensures !Awake(s, r, j) {
      AsleepMeansListed(s, j);
    }
    assert AwakeSet(s, r) == {};
  }

  /** With a producer, a consumer and room for one item, some thread can always move. */
  lemma NeverDeadlocks(s: State, p: nat, c: nat) returns (t: nat)
    requires Invariant(s) && s.maxSize >= 1
    requires p < |s.pcs| && s.roles[p] == Producer && c < |s.pcs| && s.roles[c] == Consumer
    ensures Enabled(s, t)
  {
    if s.queueLock.Some? {
      HolderMoves(s);
      return s.queueLock.value;
    }
    if i :| 0 <= i < |s.pcs| && (s.pcs[i] != Waiting(CV.Take) || s.tokens[i]) {
      return i;
    }
    AsleepMeansNothing(s, Producer, p);
    AsleepMeansNothing(s, Consumer, c);
    assert false;
  }

  /** From creation on, over every interleaving: no deadlock, and what was removed is a prefix of what was added. */
  lemma DemoNeverDeadlocks(maxSize: int, roles: seq<Role>, starts: seq<int>, schedule: seq<nat>, p: nat, c: nat)
    returns (t: nat)
    requires maxSize >= 1 && |starts| == |roles|
    requires p < |roles| && roles[p] == Producer && c < |roles| && roles[c] == Consumer
    requires Legal(Initial(maxSize, roles, starts), schedule)
    ensures Enabled(Run(Initial(maxSize, roles, starts), schedule), t)
    ensures Run(Initial(maxSize, roles, starts), schedule).removed <=
            Run(Initial(maxSize, roles, starts), schedule).added
  {
    InvariantInitially(maxSize, roles, starts);
    InvariantAlways(Initial(maxSize, roles, starts), schedule);
    t := NeverDeadlocks(Run(Initial(maxSize, roles, starts), schedule), p, c);
  }

  // ---------- No livelock ----------

  /** How many steps a thread makes at most until it sleeps in its take, if it is not woken and does not act. */
  function Rank(pc: Pc): nat {
    match pc
    case Enter => 6
    case Test => 5
    case Waiting(at) =>
      (match at
       case AddLock => 4 case AddPush => 3 case AddUnlock => 2 case Unlock => 1 case Take => 0 case Relock => 6)
    case Act => 4
    case Signalling(at) => (match at case Lock => 18 case Pop => 17 case Give(_) => 16 case Unlock => 8)
    case Leave => 7
  }

  predicate Full(token: bool) { token }

  /** A token is worth the seven steps of the thread that it wakes. */
  ghost function Left(s: State): nat {
    Total(s.pcs, Rank) + 7 * Count(s.tokens, Full)
  }

  function Acts(s: State): nat { |s.added| + |s.removed| }

  lemma PcsMove(s: State, t: nat)
    requires Enabled(s, t)
    ensures var s' := Next(s, t);
      && s'.pcs == s.pcs[t := s'.pcs[t]]
      && s'.tokens == (match s.pcs[t]
                       case Waiting(Take) => s.tokens[t := false]
                       case Signalling(Give(to)) => s.tokens[to := true]
                       case _ => s.tokens)
      && Acts(s') == Acts(s) + Bit(s.pcs[t].Act?)
  {
  }

  lemma RankMoves(s: State, t: nat)
    requires Enabled(s, t)
    ensures var a, b := Rank(s.pcs[t]), Rank(Next(s, t).pcs[t]);
      match s.pcs[t]
      case Waiting(Take) => b == a + 6
      case Signalling(Give(_)) => b == a - 8
      case Act => b == a + 14
      case _ => b < a
  {
  }

  /** Every step uses some of what is left, except that an act may add fourteen. */
  lemma LeftMoves(s: State, t: nat)
    requires Enabled(s, t)
    ensures Left(Next(s, t)) + 1 <= Left(s) + 15 * (Acts(Next(s, t)) - Acts(s))
  {
    PcsMove(s, t);
    RankMoves(s, t);
    TotalUpdate(s.pcs, t, Next(s, t).pcs[t], Rank);
    match s.pcs[t] {
      case Waiting(Take) => CountUpdate(s.tokens, t, false, Full);
      case Signalling(Give(to)) => CountUpdate(s.tokens, to, true, Full);
      case _ =>
    }
  }

  lemma {:induction false} LeftBoundsSteps(s: State, schedule: seq<nat>)
    requires Legal(s, schedule)
    ensures |schedule| <= Left(s) + 15 * (Acts(Run(s, schedule)) - Acts(s))
    decreases |schedule|
  {
    if schedule != [] {
      LeftMoves(s, schedule[0]);
      LeftBoundsSteps(Next(s, schedule[0]), schedule[1..]);
    }
  }

  lemma {:induction false} AllEnter(n: nat)
    ensures Total(seq(n, i => Enter), Rank) == 6 * n && Count(seq(n, i => false), Full) == 0
  {
    if n > 0 {
      assert seq(n, i => Enter)[1..] == seq(n - 1, i => Enter) && seq(n, i => false)[1..] == seq(n - 1, i => false);
      AllEnter(n - 1);
    }
  }

  /** Threads do not wake, test and wait for nothing: a run of any length moves items, one at least for every fifteen
      steps beyond the first six of each thread.
    */
  lemma ItemsMove(maxSize: int, roles: seq<Role>, starts: seq<int>, schedule: seq<nat>)
    requires |starts| == |roles| && Legal(Initial(maxSize, roles, starts), schedule)
    ensures var s := Run(Initial(maxSize, roles, starts), schedule);
      |schedule| <= 6 * |roles| + 15 * (|s.added| + |s.removed|)
  {
    LeftBoundsSteps(Initial(maxSize, roles, starts), schedule);
    AllEnter(|roles|);
    assert Initial(maxSize, roles, starts).pcs == seq(|roles|, i => Enter);
    assert Initial(maxSize, roles, starts).tokens == seq(|roles|, i => false);
  }

  // ---------- One producer, one consumer ----------

  /** Both threads count from the same number, and so do the items. */
  ghost predicate Numbered(s: State, p: nat, c: nat, first: int) {
    && s.Shaped() && |s.roles| == 2 && p + c == 1 && s.roles[p] == Producer && s.roles[c] == Consumer
    && s.data[p] == first + |s.added| && s.data[c] == first + |s.removed|
    && (forall k :: 0 <= k < |s.added| ==> s.added[k] == first + k)
  }

  lemma NumberedKept(s: State, t: nat, p: nat, c: nat, first: int)
    requires Numbered(s, p, c, first) && Enabled(s, t)
    ensures Numbered(Next(s, t), p, c, first)
  {
    if s.pcs[t].Act? {
      return;
    } else {
      assert Next(s, t).data == s.data && Next(s, t).added == s.added && Next(s, t).removed == s.removed;
      return;
    }
  }

  lemma {:induction false} NumberedAlways(s: State, schedule: seq<nat>, p: nat, c: nat, first: int)
    requires Numbered(s, p, c, first) && Legal(s, schedule)
    ensures Numbered(Run(s, schedule), p, c, first)
    decreases |schedule|
  {
    if schedule != [] {
      NumberedKept(s, schedule[0], p, c, first);
      NumberedAlways(Next(s, schedule[0]), schedule[1..], p, c, first);
    }
  }

  /** configASSERT(DataVerified == x) holds whenever the consumer of the single-producer demo reaches it. */
  lemma ItemsArriveInOrder(maxSize: int, roles: seq<Role>, first: int, schedule: seq<nat>, p: nat, c: nat)
    requires maxSize >= 0 && |roles| == 2 && p + c == 1
    requires roles[p] == Producer && roles[c] == Consumer
    requires Legal(Initial(maxSize, roles, [first, first]), schedule)
    ensures var s := Run(Initial(maxSize, roles, [first, first]), schedule);
      c < |s.pcs| && |s.data| == |s.pcs| && (s.pcs[c].Act? ==> s.queue != [] && s.queue[|s.queue| - 1] == s.data[c])
  {
    var s0 := Initial(maxSize, roles, [first, first]);
    InvariantInitially(maxSize, roles, [first, first]);
    InvariantAlways(s0, schedule);
    NumberedAlways(s0, schedule, p, c, first);
    var s := Run(s0, schedule);
    if s.pcs[c].Act? {
      AssertsHold(s, c);
      ReverseLast(s.queue);
      assert s.added[|s.removed|] == s.queue[|s.queue| - 1];
    }
  }

  // ---------- The monitor itself ----------

  /** The queue, the mutex, the condition variables and the threads, changed in place one statement at a time. */
  class Monitor {
    const maxSize: int
    const roles: seq<Role>
    var curSize: int
    var queue: seq<int>
    var queueLock: Mutex
    var notEmpty: CV.Cv
    var notFull: CV.Cv
    var pcs: seq<Pc>
    var tokens: seq<bool>
    var data: seq<int>
    var added: seq<int>
    var removed: seq<int>

    ghost function Value(): State
      reads this
    {
      State(maxSize, curSize, queue, queueLock, notEmpty, notFull, roles, pcs, tokens, data, added, removed)
    }

    constructor (maxSize: int, roles: seq<Role>, starts: seq<int>)
      requires |starts| == |roles|
      ensures Value() == Initial(maxSize, roles, starts)
    {
      this.maxSize, this.roles := maxSize, roles;
      curSize, queue := 0, [];
      queueLock, notEmpty, notFull := None, CV.Cv(None, [], [], []), CV.Cv(None, [], [], []);
      pcs, tokens, data := seq(|roles|, i => Enter), seq(|roles|, i => false), starts;
      added, removed := [], [];
    }

    method SetCv(r: Role, c: CV.Cv)
      modifies this`notEmpty, this`notFull
      ensures Value() == old(Value()).SetCv(r, c)
    {
      if r == Consumer {
        notEmpty := c;
      } else {
        notFull := c;
      }
    }

    /** Thread::Wait. */
    method DoWait(t: nat)
      requires Enabled(Value(), t) && pcs[t].Waiting?
      modifies this
      ensures Value() == Next(old(Value()), t)
    {
      var r := roles[t];
      var cv := if r == Consumer then notEmpty else notFull;
      match pcs[t].w
      case AddLock =>
        SetCv(r, cv.(lock := Some(t)));
        pcs := pcs[t := Waiting(CV.AddPush)];
      case AddPush =>
        SetCv(r, cv.(waiters := cv.waiters + [t], arrived := cv.arrived + [t]));
        pcs := pcs[t := Waiting(CV.AddUnlock)];
      case AddUnlock =>
        SetCv(r, cv.(lock := None));
        pcs := pcs[t := Waiting(CV.Wait.Unlock)];
      case Unlock =>
        queueLock := None;
        pcs := pcs[t := Waiting(CV.Take)];
      case Take =>
        tokens := tokens[t := false];
        pcs := pcs[t := Waiting(CV.Relock)];
      case Relock =>
        queueLock := Some(t);
        pcs := pcs[t := Test];
    }

    /** BoundedQueue::Add. */
    method Add(x: int)
      requires curSize + 1 <= maxSize
      modifies this`curSize, this`queue, this`added
      ensures curSize == old(curSize) + 1 && queue == [x] + old(queue) && added == old(added) + [x]
    {
      curSize := curSize + 1;
      queue := [x] + queue;
      added := added + [x];
    }

    /** BoundedQueue::Remove. */
    method Remove() returns (x: int)
      requires curSize - 1 >= 0 && queue != []
      modifies this`curSize, this`queue, this`removed
      ensures curSize == old(curSize) - 1 && old(queue) == queue + [x] && removed == old(removed) + [x]
    {
      curSize := curSize - 1;
      x := queue[|queue| - 1];
      queue := queue[..|queue| - 1];
      removed := removed + [x];
    }

    method DoAct(t: nat)
      requires Enabled(Value(), t) && pcs[t].Act?
      modifies this
      ensures Value() == Next(old(Value()), t)
    {
      if roles[t] == Producer {
        Add(data[t]);
      } else {
        var x := Remove();
      }
      data := data[t := data[t] + 1];
      pcs := pcs[t := Signalling(CV.Lock)];
    }

    /** ConditionVariable::Signal. */
    method DoSignal(t: nat)
      requires Enabled(Value(), t) && pcs[t].Signalling?
      modifies this
      ensures Value() == Next(old(Value()), t)
    {
      var r := roles[t].Other();
      var cv := if r == Consumer then notEmpty else notFull;
      match pcs[t].g
      case Lock =>
        SetCv(r, cv.(lock := Some(t)));
        pcs := pcs[t := Signalling(CV.Pop)];
      case Pop =>
        if cv.waiters == [] {
          pcs := pcs[t := Signalling(CV.Wake.Unlock)];
        } else {
          pcs := pcs[t := Signalling(CV.Give(cv.waiters[0]))];
          SetCv(r, cv.(waiters := cv.waiters[1..], woken := cv.woken + [cv.waiters[0]]));
        }
      case Give(to) =>
        tokens := tokens[to := true];
        pcs := pcs[t := Signalling(CV.Wake.Unlock)];
      case Unlock =>
        SetCv(r, cv.(lock := None));
        pcs := pcs[t := Leave];
    }

    /** The loop of a producer or a consumer around them. */
    method DoLoop(t: nat)
      requires Enabled(Value(), t) && (pcs[t].Enter? || pcs[t].Test? || pcs[t].Leave?)
      modifies this
      ensures Value() == Next(old(Value()), t)
    {
      match pcs[t]
      case Enter =>
        queueLock := Some(t);
        pcs := pcs[t := Test];
      case Test =>
        var mustWait := if roles[t] == Producer then curSize == maxSize else curSize == 0;
        pcs := pcs[t := if mustWait then Waiting(CV.AddLock) else Act];
      case Leave =>
        queueLock := None;
        pcs := pcs[t := Enter];
    }

    method Step(t: nat)
      requires Invariant(Value()) && Enabled(Value(), t)
      modifies this
      ensures Value() == Next(old(Value()), t) && Invariant(Value())
    {
      InvariantKept(Value(), t);
      match pcs[t]
      case Waiting(_) => DoWait(t);
      case Act => DoAct(t);
      case Signalling(_) => DoSignal(t);
      case _ => DoLoop(t);
    }

    /** Runs any interleaving. */
    method Execute(schedule: seq<nat>)
      requires Invariant(Value()) && Legal(Value(), schedule)
      modifies this
      ensures Value() == Run(old(Value()), schedule) && Invariant(Value())
    {
      var k := 0;
      while k < |schedule|
        invariant k <= |schedule| && Invariant(Value()) && Legal(Value(), schedule[k..])
        invariant Run(Value(), schedule[k..]) == Run(old(Value()), schedule)
      {
        Step(schedule[k]);
        k := k + 1;
      }
    }
  }
}
