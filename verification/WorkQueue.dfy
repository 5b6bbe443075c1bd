/** The C work queue (workqueue.c): one worker thread, and any number of client threads that call QueueWorkItem and
    DestroyWorkQueue. The Queue inside is the FIFO that module SimpleQueue shows it to be.

    Clients are threads 0 to n - 1 and the worker is thread n. Once the worker has deleted the queue nobody can use it:
    a client that still tries to has broken its contract, and never moves again.
  */
module WorkQueue {
  import opened FreeRtos
  import opened Interleavings

  type Item = nat

  datatype Call = QueueItem(item: Item) | Destroy

  // What each thread is about to execute.
  datatype Drain = Lock | Test | Dequeue | Free(item: Item) | Unlock | Delete
  datatype WorkerPc =
    | TakeEvent
    | TakeLock
    | Test
    | Dequeue
    | Unlock(item: Item)
    | RunItem(item: Item)
    | FreeItem(item: Item)
    | Relock
    | ReadExit
    | UnlockLoop(exit: bool)
    | Draining(d: Drain)
    | Gone

  datatype Queueing = Lock | Enqueue | GiveEvent | Unlock
  datatype Destroying = Lock | SetExit | GiveEvent | Unlock
  datatype ClientPc = Idle | Queueing(q: Queueing, item: Item) | Destroying(y: Destroying)

  datatype State = State(
    queue: seq<Item>, event: bool, lock: Mutex, exitThread: bool,
    worker: WorkerPc, clients: seq<ClientPc>, todo: seq<seq<Call>>,
    // History: what was queued, run and freed so far, and how much was queued when ExitThread was set and when the
    // worker gave its lock for the last time.
    enqueued: seq<Item>, ran: seq<Item>, freed: seq<Item>, beforeExit: nat, beforeEnd: nat)
  {
    predicate Shaped() {
      |todo| == |clients|
    }

    function Go(t: nat, pc: ClientPc): State
      requires t < |clients|
    {
      this.(clients := clients[t := pc])
    }
  }

  function Initial(programs: seq<seq<Call>>): State {
    State([], false, None, false, TakeEvent, seq(|programs|, i => Idle), programs, [], [], [], 0, 0)
  }

  predicate Enabled(s: State, t: nat) {
    s.Shaped() &&
    if t == |s.clients| then
      match s.worker
      case TakeEvent => s.event
      case TakeLock | Relock => s.lock.None?
      case Dequeue => s.queue != []
      case Draining(Lock) => s.lock.None?
      case Draining(Dequeue) => s.queue != []
      case Gone => false
      case _ => true
    else
      t < |s.clients| &&
      match s.clients[t]
      case Idle => s.todo[t] != []
      case Queueing(at, _) => !s.worker.Gone? && (at.Lock? ==> s.lock.None?)
      case Destroying(at) => !s.worker.Gone? && (at.Lock? ==> s.lock.None?)
  }

  function WorkerStep(s: State): State
    requires Enabled(s, |s.clients|)
  {
    match s.worker
    case TakeEvent => s.(event := false, worker := TakeLock)
    case TakeLock => s.(lock := Some(|s.clients|), worker := WorkerPc.Test)
    case Test => s.(worker := if s.queue == [] then ReadExit else WorkerPc.Dequeue)
    case Dequeue => s.(queue := s.queue[1..], worker := WorkerPc.Unlock(s.queue[0]))
    case Unlock(item) => s.(lock := None, worker := RunItem(item))
    case RunItem(item) => s.(ran := s.ran + [item], worker := FreeItem(item))
    case FreeItem(item) => s.(freed := s.freed + [item], worker := Relock)
    case Relock => s.(lock := Some(|s.clients|), worker := WorkerPc.Test)
    case ReadExit => s.(worker := UnlockLoop(s.exitThread))
    case UnlockLoop(exit) => s.(lock := None, worker := if exit then Draining(Drain.Lock) else TakeEvent)
    case Draining(at) => DrainStep(s, at)
  }

  function DrainStep(s: State, at: Drain): State
    requires at.Dequeue? ==> s.queue != []
  {
    match at
    case Lock => s.(lock := Some(|s.clients|), worker := Draining(Drain.Test))
    case Test => s.(worker := Draining(if s.queue == [] then Drain.Unlock else Drain.Dequeue))
    case Dequeue => s.(queue := s.queue[1..], worker := Draining(Free(s.queue[0])))
    case Free(item) => s.(freed := s.freed + [item], worker := Draining(Drain.Test))
    case Unlock => s.(lock := None, worker := Draining(Delete), beforeEnd := |s.enqueued|)
    case Delete => s.(worker := Gone)
  }

  function ClientStep(s: State, t: nat): State
    requires Enabled(s, t) && t < |s.clients|
  {
    match s.clients[t]
    case Idle =>
      var pc := match s.todo[t][0]
        case QueueItem(item) => Queueing(Queueing.Lock, item)
        case Destroy => Destroying(Destroying.Lock);
      s.Go(t, pc).(todo := s.todo[t := s.todo[t][1..]])
    case Queueing(at, item) => (
      match at
      case Lock => s.Go(t, Queueing(Enqueue, item)).(lock := Some(t))
      case Enqueue =>
        s.Go(t, Queueing(Queueing.GiveEvent, item)).(queue := s.queue + [item], enqueued := s.enqueued + [item])
      case GiveEvent => s.Go(t, Queueing(Queueing.Unlock, item)).(event := true)
      case Unlock => s.Go(t, Idle).(lock := None))
    case Destroying(at) => (
      match at
      case Lock => s.Go(t, Destroying(SetExit)).(lock := Some(t))
      case SetExit =>
        s.Go(t, Destroying(Destroying.GiveEvent)).(
          exitThread := true, beforeExit := if s.exitThread then s.beforeExit else |s.enqueued|)
      case GiveEvent => s.Go(t, Destroying(Destroying.Unlock)).(event := true)
      case Unlock => s.Go(t, Idle).(lock := None))
  }

  function Next(s: State, t: nat): State
    requires Enabled(s, t)
  {
    if t == |s.clients| then WorkerStep(s) else ClientStep(s, t)
  }

  // ---------- The invariant ----------

  predicate WorkerHolds(pc: WorkerPc) {
    pc.Test? || pc.Dequeue? || pc.Unlock? || pc.ReadExit? || pc.UnlockLoop? ||
    (pc.Draining? && !pc.d.Lock? && !pc.d.Delete?)
  }

  predicate ClientHolds(pc: ClientPc) {
    (pc.Queueing? && !pc.q.Lock?) || (pc.Destroying? && !pc.y.Lock?)
  }

  /** Lock belongs to the one thread inside its section. */
  ghost predicate Locked(s: State) {
    && s.Shaped()
    && (s.lock.Some? ==> s.lock.value <= |s.clients|)
    && (WorkerHolds(s.worker) <==> s.lock == Some(|s.clients|))
    && (forall i :: 0 <= i < |s.clients| ==> (ClientHolds(s.clients[i]) <==> s.lock == Some(i)))
  }

  /** The item the worker has taken from the queue and not freed. */
  function InHand(pc: WorkerPc): seq<Item> {
    if pc.Unlock? || pc.RunItem? || pc.FreeItem? then [pc.item]
    else if pc.Draining? && pc.d.Free? then [pc.d.item]
    else []
  }

  /** The worker has left its main loop, or is going to. */
  predicate Ending(pc: WorkerPc) {
    pc == UnlockLoop(true) || pc.Draining? || pc.Gone?
  }

  /** Every item is freed, in the worker's hand or in the queue; items are freed in the order in which they were queued,
      and, up to the end of the main loop, each right after it ran.
    */
  ghost predicate Accounted(s: State) {
    && s.enqueued == s.freed + InHand(s.worker) + s.queue
    && (if Ending(s.worker) then s.ran <= s.freed
        else s.ran == s.freed + if s.worker.FreeItem? then [s.worker.item] else [])
  }

  /** The worker ends only when told to, and only after it has run everything that was queued before that. */
  ghost predicate EndsInTime(s: State) {
    && s.beforeExit <= |s.enqueued|
    && (s.worker.ReadExit? || s.worker.UnlockLoop? ==> s.queue == [])
    && (Ending(s.worker) ==> s.exitThread && s.beforeExit <= |s.ran|)
    && (s.worker == Draining(Drain.Unlock) ==> s.queue == [])
    && (s.worker.Dequeue? || s.worker == Draining(Drain.Dequeue) ==> s.queue != [])
    && (s.worker == Draining(Delete) || s.worker.Gone? ==>
          s.beforeEnd <= |s.enqueued| && s.beforeEnd == |s.freed|)
  }

  /** A client that holds Lock is about to give Event. */
  predicate GiveComing(s: State) {
    s.lock.Some? && s.lock.value < |s.clients| &&
    var pc := s.clients[s.lock.value];
    (pc.Queueing? && pc.q.GiveEvent?) || (pc.Destroying? && pc.y.GiveEvent?)
  }

  /** A worker that is going to wait for Event will be woken when there is something to do. */
  ghost predicate Wakes(s: State) {
    (s.worker.TakeEvent? || s.worker == UnlockLoop(false)) && (s.queue != [] || s.exitThread) ==>
      s.event || GiveComing(s)
  }

  ghost predicate Invariant(s: State) {
    Locked(s) && Accounted(s) && EndsInTime(s) && Wakes(s)
  }

  lemma InvariantInitially(programs: seq<seq<Call>>)
    ensures Invariant(Initial(programs))
  {
  }

  lemma DequeueKeeps(s: State)
    requires Invariant(s) && Enabled(s, |s.clients|) && (s.worker.Dequeue? || s.worker.Unlock? || s.worker.RunItem?)
    ensures Invariant(WorkerStep(s))
  {
  }

  lemma LockKeeps(s: State)
    requires Invariant(s) && Enabled(s, |s.clients|) && (s.worker.TakeEvent? || s.worker.TakeLock? || s.worker.Relock?)
    ensures Invariant(WorkerStep(s))
  {
  }

  lemma LoopKeeps(s: State)
    requires Invariant(s) && Enabled(s, |s.clients|)
    requires s.worker.Test? || s.worker.FreeItem? || s.worker.ReadExit? || s.worker.UnlockLoop?
    ensures Invariant(WorkerStep(s))
  {
  }

  lemma DrainLocks(s: State)
    requires Locked(s) && Enabled(s, |s.clients|) && s.worker.Draining?
    ensures Locked(WorkerStep(s))
  {
  }

  lemma DrainKeeps(s: State)
    requires Invariant(s) && Enabled(s, |s.clients|) && s.worker.Draining?
    ensures Accounted(WorkerStep(s)) && EndsInTime(WorkerStep(s)) && Wakes(WorkerStep(s))
  {
  }

  lemma CallKeeps(s: State, t: nat)
    requires Invariant(s) && Enabled(s, t) && t < |s.clients| && s.clients[t].Idle?
    ensures Invariant(ClientStep(s, t))
  {
  }

  lemma QueueingLocks(s: State, t: nat)
    requires Locked(s) && Enabled(s, t) && t < |s.clients| && s.clients[t].Queueing?
    ensures Locked(ClientStep(s, t))
  {
  }

  lemma DestroyingLocks(s: State, t: nat)
    requires Locked(s) && Enabled(s, t) && t < |s.clients| && s.clients[t].Destroying?
    ensures Locked(ClientStep(s, t))
  {
  }

  lemma EnqueueKeeps(s: State, t: nat)
    requires Invariant(s) && Enabled(s, t) && t < |s.clients| && s.clients[t].Queueing? && s.clients[t].q.Enqueue?
    ensures Accounted(ClientStep(s, t)) && EndsInTime(ClientStep(s, t)) && Wakes(ClientStep(s, t))
  {
  }

  lemma QueueingKeeps(s: State, t: nat)
    requires Invariant(s) && Enabled(s, t) && t < |s.clients| && s.clients[t].Queueing? && !s.clients[t].q.Enqueue?
    ensures Accounted(ClientStep(s, t)) && EndsInTime(ClientStep(s, t)) && Wakes(ClientStep(s, t))
  {
  }

  lemma SetExitKeeps(s: State, t: nat)
    requires Invariant(s) && Enabled(s, t) && t < |s.clients| && s.clients[t] == Destroying(SetExit)
    ensures Accounted(ClientStep(s, t)) && EndsInTime(ClientStep(s, t)) && Wakes(ClientStep(s, t))
  {
  }

  lemma DestroyingKeeps(s: State, t: nat)
    requires Invariant(s) && Enabled(s, t) && t < |s.clients| && s.clients[t].Destroying? && !s.clients[t].y.SetExit?
    ensures Accounted(ClientStep(s, t)) && EndsInTime(ClientStep(s, t)) && Wakes(ClientStep(s, t))
  {
  }

  lemma ClientKept(s: State, t: nat)
    requires Invariant(s) && Enabled(s, t) && t < |s.clients|
    ensures Invariant(ClientStep(s, t))
  {
    match s.clients[t] {
      case Idle => CallKeeps(s, t); return;
      case Queueing(Enqueue, _) => QueueingLocks(s, t); EnqueueKeeps(s, t); return;
      case Queueing(_, _) => QueueingLocks(s, t); QueueingKeeps(s, t); return;
      case Destroying(SetExit) => DestroyingLocks(s, t); SetExitKeeps(s, t); return;
      case Destroying(_) => DestroyingLocks(s, t); DestroyingKeeps(s, t); return;
    }
  }

  lemma WorkerKept(s: State)
    requires Invariant(s) && Enabled(s, |s.clients|)
    ensures Invariant(WorkerStep(s))
  {
    if s.worker.Draining? {
      DrainLocks(s);
      DrainKeeps(s);
      return;
    } else if s.worker.Dequeue? || s.worker.Unlock? || s.worker.RunItem? {
      DequeueKeeps(s);
      return;
    } else if s.worker.TakeEvent? || s.worker.TakeLock? || s.worker.Relock? {
      LockKeeps(s);
      return;
    } else {
      LoopKeeps(s);
      return;
    }
  }

  lemma InvariantKept(s: State, t: nat)
    requires Invariant(s) && Enabled(s, t)
    ensures Invariant(Next(s, t)) && |Next(s, t).clients| == |s.clients|
  {
    if t < |s.clients| {
      ClientKept(s, t);
      return;
    } else {
      WorkerKept(s);
      return;
    }
  }

  // ---------- Whole runs ----------

  ghost predicate Legal(s: State, schedule: seq<nat>)
    decreases |schedule|
  {
    schedule == [] || (Enabled(s, schedule[0]) && Legal(Next(s, schedule[0]), schedule[1..]))
  }

  ghost function Run(s: State, schedule: seq<nat>): State
    requires Legal(s, schedule)
    decreases |schedule|
  {
    if schedule == [] then s else Run(Next(s, schedule[0]), schedule[1..])
  }

  lemma {:induction false} InvariantAlways(s: State, schedule: seq<nat>)
    requires Invariant(s) && Legal(s, schedule)
    ensures Invariant(Run(s, schedule))
    decreases |schedule|
  {
    if schedule != [] {
      InvariantKept(s, schedule[0]);
      InvariantAlways(Next(s, schedule[0]), schedule[1..]);
    }
  }

  // ---------- What is queued is what the clients ask for ----------

  /** The items of the calls of QueueWorkItem. */
  function ItemsOf(calls: seq<Call>): seq<Item> {
    if calls == [] then [] else (if calls[0].QueueItem? then [calls[0].item] else []) + ItemsOf(calls[1..])
  }

  function ItemLists(programs: seq<seq<Call>>): seq<seq<Item>> {
    seq(|programs|, t requires 0 <= t < |programs| => ItemsOf(programs[t]))
  }

  /** The item that a client is going to put on the queue in the call it is in. */
  function ToQueue(pc: ClientPc): seq<Item> {
    if pc.Queueing? && (pc.q.Lock? || pc.q.Enqueue?) then [pc.item] else []
  }

  function Unqueued(s: State, t: nat): seq<Item>
    requires s.Shaped() && t < |s.clients|
  {
    ToQueue(s.clients[t]) + ItemsOf(s.todo[t])
  }

  /** The items of each client's program are, in the order of the program, those that it has put on the queue and those
      that it has not: `who` tells whose the items in `enqueued` are.
    */
  ghost predicate QueuedAsAsked(programs: seq<seq<Call>>, s: State, who: seq<nat>) {
    && s.Shaped() && |s.clients| == |programs| && |who| == |s.enqueued|
    && (forall k :: 0 <= k < |who| ==> who[k] < |programs|)
    && (forall t :: 0 <= t < |programs| ==> ItemsOf(programs[t]) == By(s.enqueued, who, t) + Unqueued(s, t))
  }

  lemma EnqueueQueues(s: State, t: nat)
    requires Enabled(s, t) && t < |s.clients| && s.clients[t].Queueing? && s.clients[t].q.Enqueue?
    ensures var s', item := ClientStep(s, t), s.clients[t].item;
      && s'.clients == s.clients[t := s'.clients[t]] && s'.todo == s.todo && s'.enqueued == s.enqueued + [item]
      && ToQueue(s.clients[t]) == [item] && ToQueue(s'.clients[t]) == []
  {
  }

  lemma OthersQueueNothing(s: State, t: nat)
    requires Enabled(s, t) && t < |s.clients| && !(s.clients[t].Queueing? && s.clients[t].q.Enqueue?)
    ensures var s' := ClientStep(s, t);
      && s'.clients == s.clients[t := s'.clients[t]] && s'.enqueued == s.enqueued
      && (!s.clients[t].Idle? ==> s'.todo == s.todo && ToQueue(s'.clients[t]) == ToQueue(s.clients[t]))
  {
  }

  lemma CallsAsk(s: State, t: nat)
    requires Enabled(s, t) && t < |s.clients| && s.clients[t].Idle?
    ensures var s', todo := ClientStep(s, t), s.todo[t];
      && s'.todo == s.todo[t := todo[1..]]
      && ToQueue(s.clients[t]) + ItemsOf(todo) == ToQueue(s'.clients[t]) + ItemsOf(todo[1..])
  {
  }

  lemma NothingAsked(programs: seq<seq<Call>>, s: State, who: seq<nat>, s': State)
    requires QueuedAsAsked(programs, s, who) && s'.Shaped() && |s'.clients| == |s.clients| && s'.enqueued == s.enqueued
    requires forall i :: 0 <= i < |s.clients| ==> Unqueued(s', i) == Unqueued(s, i)
    ensures QueuedAsAsked(programs, s', who)
  {
  }

  lemma OneItemQueued(programs: seq<seq<Call>>, s: State, who: seq<nat>, s': State, t: nat, item: Item)
    requires QueuedAsAsked(programs, s, who) && s'.Shaped() && |s'.clients| == |s.clients| && t < |s.clients|
    requires s'.enqueued == s.enqueued + [item] && Unqueued(s, t) == [item] + Unqueued(s', t)
    requires forall i :: 0 <= i < |s.clients| && i != t ==> Unqueued(s', i) == Unqueued(s, i)
    ensures QueuedAsAsked(programs, s', who + [t])
  {
    forall i | 0 <= i < |programs|
      ensures ItemsOf(programs[i]) == By(s'.enqueued, who + [t], i) + Unqueued(s', i)
    {
      OneCame(s.enqueued, who, item, t, i, Unqueued(s, i), Unqueued(s', i));
    }
  }

  lemma QueuedAsAskedKept(programs: seq<seq<Call>>, s: State, who: seq<nat>, t: nat) returns (who': seq<nat>)
    requires QueuedAsAsked(programs, s, who) && Enabled(s, t)
    ensures QueuedAsAsked(programs, Next(s, t), who')
  {
    if t == |s.clients| {
      WorkerQueuesNothing(s);
      NothingAsked(programs, s, who, Next(s, t));
      return who;
    } else if s.clients[t].Queueing? && s.clients[t].q.Enqueue? {
      EnqueueQueues(s, t);
      OneItemQueued(programs, s, who, Next(s, t), t, s.clients[t].item);
      return who + [t];
    } else {
      OthersQueueNothing(s, t);
      if s.clients[t].Idle? {
        CallsAsk(s, t);
      }
      NothingAsked(programs, s, who, Next(s, t));
      return who;
    }
  }

  lemma WorkerQueuesNothing(s: State)
    requires Enabled(s, |s.clients|)
    ensures var s' := WorkerStep(s); s'.clients == s.clients && s'.todo == s.todo && s'.enqueued == s.enqueued
  {
  }

  lemma {:induction false} QueuedAsAskedAlways(programs: seq<seq<Call>>, s: State, who: seq<nat>, schedule: seq<nat>)
    returns (who': seq<nat>)
    requires QueuedAsAsked(programs, s, who) && Legal(s, schedule)
    ensures QueuedAsAsked(programs, Run(s, schedule), who')
    decreases |schedule|
  {
    if schedule == [] {
      return who;
    }
    var who1 := QueuedAsAskedKept(programs, s, who, schedule[0]);
    who' := QueuedAsAskedAlways(programs, Next(s, schedule[0]), who1, schedule[1..]);
  }

  /** Over every interleaving: what has been queued are the items of the calls that are past their Enqueue, each once,
      and each client's in the order of its program.
    */
  lemma CallsQueueTheirItems(programs: seq<seq<Call>>, schedule: seq<nat>) returns (who: seq<nat>)
    requires Legal(Initial(programs), schedule)
    ensures QueuedAsAsked(programs, Run(Initial(programs), schedule), who)
  {
    assert forall t :: 0 <= t < |programs| ==> Unqueued(Initial(programs), t) == ItemsOf(programs[t]);
    who := QueuedAsAskedAlways(programs, Initial(programs), [], schedule);
  }

  /** When no client has anything left to queue, what was queued is an interleaving of all the programs' items. */
  lemma AllItemsQueued(programs: seq<seq<Call>>, schedule: seq<nat>) returns (who: seq<nat>)
    requires Legal(Initial(programs), schedule)
    requires var s := Run(Initial(programs), schedule);
      s.Shaped() && forall t :: 0 <= t < |s.clients| ==> Unqueued(s, t) == []
    ensures var s := Run(Initial(programs), schedule);
      Interleaves(s.enqueued, who, ItemLists(programs)) && multiset(s.enqueued) == Together(ItemLists(programs))
  {
    who := CallsQueueTheirItems(programs, schedule);
    var s := Run(Initial(programs), schedule);
    forall t | 0 <= t < |programs| ensures By(s.enqueued, who, t) == ItemLists(programs)[t] {
      assert By(s.enqueued, who, t) + [] == By(s.enqueued, who, t);
    }
    InterleavingHasAll(s.enqueued, who, ItemLists(programs));
  }

  // ---------- What the work queue is for ----------

  /** Items run, and are freed, at most once and in the order in which they were queued. */
  lemma RunsInOrder(s: State)
    requires Invariant(s)
    ensures s.ran <= s.enqueued && s.freed <= s.enqueued
  {
    assert s.freed <= s.freed + InHand(s.worker) <= s.enqueued;
  }

  /** Over every interleaving: however many gives have merged into one token, the token is there when the worker has to
      wake up.
    */
  lemma NoLostWakeup(programs: seq<seq<Call>>, schedule: seq<nat>)
    requires Legal(Initial(programs), schedule)
    requires var s := Run(Initial(programs), schedule);
      s.lock.None? && s.worker.TakeEvent? && (s.queue != [] || s.exitThread)
    ensures var s := Run(Initial(programs), schedule); s.event && Enabled(s, |s.clients|)
  {
    InvariantInitially(programs);
    InvariantAlways(Initial(programs), schedule);
  }

  /** Before the worker leaves its loop it has run everything that was queued before ExitThread was set. */
  lemma RanBeforeExit(s: State)
    requires Invariant(s) && Ending(s.worker)
    ensures s.exitThread && s.beforeExit <= |s.enqueued| && s.enqueued[..s.beforeExit] <= s.ran <= s.enqueued
  {
    RunsInOrder(s);
  }

  /** Once ExitThread is set, what had been queued by then stays at the front. */
  lemma {:induction false} BeforeExitStays(s: State, schedule: seq<nat>, first: seq<Item>)
    requires Legal(s, schedule) && s.exitThread && s.beforeExit == |first| && first <= s.enqueued
    ensures var s' := Run(s, schedule); s'.beforeExit == |first| && first <= s'.enqueued
    decreases |schedule|
  {
    if schedule != [] {
      BeforeExitStep(s, schedule[0], first);
      BeforeExitStays(Next(s, schedule[0]), schedule[1..], first);
    }
  }

  lemma BeforeExitStep(s: State, t: nat, first: seq<Item>)
    requires Enabled(s, t) && s.exitThread && s.beforeExit == |first| && first <= s.enqueued
    ensures var s' := Next(s, t); s'.exitThread && s'.beforeExit == |first| && first <= s'.enqueued
  {
  }

  /** In every run in which client `t` sets ExitThread after `a`: when, after `b`, the worker has left its loop, it
      has run everything that had been queued after `a`, in that order.
    */
  lemma DrainsBeforeExit(programs: seq<seq<Call>>, a: seq<nat>, t: nat, b: seq<nat>)
    requires Legal(Initial(programs), a)
    requires var s := Run(Initial(programs), a);
      && Enabled(s, t) && t < |s.clients| && s.clients[t] == Destroying(SetExit) && !s.exitThread
      && Legal(Next(s, t), b) && Ending(Run(Next(s, t), b).worker)
    ensures var s := Run(Initial(programs), a); s.enqueued <= Run(Next(s, t), b).ran
  {
    var s := Run(Initial(programs), a);
    InvariantInitially(programs);
    InvariantAlways(Initial(programs), a);
    InvariantKept(s, t);
    InvariantAlways(Next(s, t), b);
    BeforeExitStays(Next(s, t), b, s.enqueued);
    RanBeforeExit(Run(Next(s, t), b));
  }

  ghost predicate ClientsDone(s: State) {
    s.Shaped() && forall i :: 0 <= i < |s.clients| ==> s.clients[i].Idle? && s.todo[i] == []
  }

  /** Whoever owns Lock can move. */
  lemma OwnerMoves(s: State)
    requires Invariant(s) && s.lock.Some? && !s.worker.Gone?
    ensures Enabled(s, s.lock.value)
  {
  }

  /** When nobody can move, either the clients have made all their calls, everything they queued has run once and been
      freed once, and the worker waits for more; or the work queue was destroyed, everything queued before ExitThread
      was set has run, and what was freed is what was queued before the worker's last unlock.
    */
  lemma Quiescence(programs: seq<seq<Call>>, schedule: seq<nat>)
    requires Legal(Initial(programs), schedule)
    requires forall t :: !Enabled(Run(Initial(programs), schedule), t)
    ensures var s := Run(Initial(programs), schedule);
      if s.worker.Gone? then
        && s.exitThread && s.beforeExit <= |s.enqueued| && s.enqueued[..s.beforeExit] <= s.ran <= s.enqueued
        && s.ran <= s.freed && s.beforeEnd <= |s.enqueued| && s.freed == s.enqueued[..s.beforeEnd]
      else
        ClientsDone(s) && s.worker.TakeEvent? && !s.exitThread && s.ran == s.enqueued && s.freed == s.enqueued
  {
    InvariantInitially(programs);
    InvariantAlways(Initial(programs), schedule);
    var s := Run(Initial(programs), schedule);
    RunsInOrder(s);
    if s.worker.Gone? {
      RanBeforeExit(s);
      return;
    }
    if s.lock.Some? {
      OwnerMoves(s);
    }
    assert !Enabled(s, |s.clients|);
    forall i | 0 <= i < |s.clients| ensures s.clients[i].Idle? && s.todo[i] == [] {
      assert !Enabled(s, i);
    }
    assert s.freed == s.enqueued;
  }

  /** No client ever calls DestroyWorkQueue. */
  ghost predicate NeverDestroyed(s: State) {
    && s.Shaped() && !s.exitThread
    && (forall i :: 0 <= i < |s.clients| ==> !s.clients[i].Destroying? && Destroy !in s.todo[i])
  }

  lemma {:induction false} NeverDestroyedAlways(s: State, schedule: seq<nat>)
    requires NeverDestroyed(s) && Legal(s, schedule)
    ensures NeverDestroyed(Run(s, schedule))
    decreases |schedule|
  {
    if schedule != [] {
      assert NeverDestroyed(Next(s, schedule[0]));
      NeverDestroyedAlways(Next(s, schedule[0]), schedule[1..]);
    }
  }

  /** Without a call of DestroyWorkQueue every run that cannot be continued has done all the work. */
  lemma AllWorkIsDone(programs: seq<seq<Call>>, schedule: seq<nat>)
    requires forall i :: 0 <= i < |programs| ==> Destroy !in programs[i]
    requires Legal(Initial(programs), schedule)
    requires forall t :: !Enabled(Run(Initial(programs), schedule), t)
    ensures var s := Run(Initial(programs), schedule);
      && ClientsDone(s) && s.ran == s.enqueued && s.freed == s.enqueued
      && multiset(s.ran) == Together(ItemLists(programs))
  {
    NeverDestroyedAlways(Initial(programs), schedule);
    Quiescence(programs, schedule);
    var who := AllItemsQueued(programs, schedule);
  }

  // ---------- Every run ends ----------

  /** An upper bound of the worker's steps until it waits for Event or is gone, items and tokens apart. */
  function WorkerRank(pc: WorkerPc): nat {
    match pc
    case TakeEvent => 4
    case TakeLock => 8
    case Test => 7
    case Dequeue => 6
    case Unlock(_) => 11
    case RunItem(_) => 10
    case FreeItem(_) => 9
    case Relock => 8
    case ReadExit => 6
    case UnlockLoop(_) => 5
    case Draining(at) =>
      (match at case Lock => 4 case Test => 3 case Dequeue => 2 case Free(_) => 4 case Unlock => 2 case Delete => 1)
    case Gone => 0
  }

  function ClientRank(pc: ClientPc): nat {
    match pc
    case Idle => 0
    case Queueing(at, _) => (match at case Lock => 15 case Enqueue => 14 case GiveEvent => 7 case Unlock => 1)
    case Destroying(at) => (match at case Lock => 15 case SetExit => 8 case GiveEvent => 7 case Unlock => 1)
  }

  ghost function ClientWork(clients: seq<ClientPc>, todo: seq<seq<Call>>): nat
    requires |clients| == |todo|
  {
    if clients == [] then 0
    else ClientRank(clients[0]) + 16 * |todo[0]| + ClientWork(clients[1..], todo[1..])
  }

  /** Each step uses some of it: an item is worth six steps of the worker, a token five, a call sixteen. */
  ghost function Work(s: State): nat
    requires s.Shaped()
  {
    WorkerRank(s.worker) + 6 * |s.queue| + 5 * Bit(s.event) + ClientWork(s.clients, s.todo)
  }

  lemma {:induction false} ClientWorkUpdate(clients: seq<ClientPc>, todo: seq<seq<Call>>, t: nat, pc: ClientPc,
                                            rest: seq<Call>)
    requires |clients| == |todo| && t < |clients|
    ensures ClientWork(clients[t := pc], todo[t := rest]) ==
      ClientWork(clients, todo) - ClientRank(clients[t]) - 16 * |todo[t]| + ClientRank(pc) + 16 * |rest|
  {
    var clients', todo' := clients[t := pc], todo[t := rest];
    if t == 0 {
      assert clients'[1..] == clients[1..] && todo'[1..] == todo[1..];
    } else {
      assert clients'[1..] == clients[1..][t - 1 := pc] && todo'[1..] == todo[1..][t - 1 := rest];
      ClientWorkUpdate(clients[1..], todo[1..], t - 1, pc, rest);
    }
  }

  lemma WorkerWork(s: State)
    requires Enabled(s, |s.clients|)
    ensures WorkerStep(s).clients == s.clients && WorkerStep(s).todo == s.todo
    ensures var s' := WorkerStep(s);
      WorkerRank(s'.worker) + 6 * |s'.queue| + 5 * Bit(s'.event) <
      WorkerRank(s.worker) + 6 * |s.queue| + 5 * Bit(s.event)
  {
  }

  lemma CallWork(s: State, t: nat)
    requires Enabled(s, t) && t < |s.clients| && !s.clients[t].Idle?
    ensures var s' := ClientStep(s, t);
      && s'.clients == s.clients[t := s'.clients[t]] && s'.todo == s.todo && s'.worker == s.worker
      && ClientRank(s'.clients[t]) + 6 * |s'.queue| + 5 * Bit(s'.event) <
         ClientRank(s.clients[t]) + 6 * |s.queue| + 5 * Bit(s.event)
  {
  }

  lemma WorkDecreases(s: State, t: nat)
    requires Enabled(s, t)
    ensures Next(s, t).Shaped() && Work(Next(s, t)) < Work(s)
  {
    var s' := Next(s, t);
    if t == |s.clients| {
      WorkerWork(s);
      return;
    } else if s.clients[t].Idle? {
      ClientWorkUpdate(s.clients, s.todo, t, s'.clients[t], s'.todo[t]);
      return;
    } else {
      CallWork(s, t);
      assert s.todo == s.todo[t := s.todo[t]];
      ClientWorkUpdate(s.clients, s.todo, t, s'.clients[t], s.todo[t]);
      return;
    }
  }

  lemma {:induction false} WorkBoundsSteps(s: State, schedule: seq<nat>)
    requires s.Shaped() && Legal(s, schedule)
    ensures |schedule| <= Work(s)
    decreases |schedule|
  {
    if schedule != [] {
      WorkDecreases(s, schedule[0]);
      WorkBoundsSteps(Next(s, schedule[0]), schedule[1..]);
    }
  }

  function Calls(programs: seq<seq<Call>>): nat {
    if programs == [] then 0 else |programs[0]| + Calls(programs[1..])
  }

  lemma {:induction false} InitialWork(programs: seq<seq<Call>>)
    ensures ClientWork(Initial(programs).clients, programs) == 16 * Calls(programs)
  {
    if programs != [] {
      assert Initial(programs).clients[1..] == Initial(programs[1..]).clients;
      InitialWork(programs[1..]);
    }
  }

  /** No run goes on forever: the worker does not spin, however the threads are interleaved. */
  lemma RunsEnd(programs: seq<seq<Call>>, schedule: seq<nat>)
    requires Legal(Initial(programs), schedule)
    ensures |schedule| <= 16 * Calls(programs) + 4
  {
    WorkBoundsSteps(Initial(programs), schedule);
    InitialWork(programs);
  }

  // ---------- When nothing is lost ----------

  /** The call that a client is in. */
  function CallIn(pc: ClientPc): seq<Call> {
    match pc case Idle => [] case Queueing(_, item) => [QueueItem(item)] case Destroying(_) => [Destroy]
  }

  /** The calls from which the clients have not returned. */
  function Remaining(s: State): (r: seq<seq<Call>>)
    requires s.Shaped()
    ensures |r| == |s.clients|
  {
    seq(|s.clients|, i requires 0 <= i < |s.clients| => CallIn(s.clients[i]) + s.todo[i])
  }

  predicate DestroyAt(programs: seq<seq<Call>>, i: nat, p: nat) {
    i < |programs| && p < |programs[i]| && programs[i][p].Destroy?
  }

  predicate ItemAt(programs: seq<seq<Call>>, j: nat, q: nat) {
    j < |programs| && q < |programs[j]| && programs[j][q].QueueItem?
  }

  ghost predicate NoItems(programs: seq<seq<Call>>) {
    forall j, q :: !ItemAt(programs, j, q)
  }

  /** Some client queues an item after its own call of DestroyWorkQueue, or one client queues an item and another one
      calls DestroyWorkQueue, at whatever places in their programs.
    */
  ghost predicate Racy(programs: seq<seq<Call>>) {
    exists i, p, j, q :: DestroyAt(programs, i, p) && ItemAt(programs, j, q) && (i != j || p < q)
  }

  /** Once the queue is told to end, nothing is going to be queued. */
  ghost predicate Settled(s: State) {
    && s.Shaped() && !Racy(Remaining(s))
    && (s.exitThread ==> s.beforeExit == |s.enqueued| && NoItems(Remaining(s)))
  }

  lemma CallStarts(s: State, t: nat)
    requires Enabled(s, t) && t < |s.clients| && s.clients[t].Idle?
    ensures var s' := ClientStep(s, t);
      && s'.clients == s.clients[t := s'.clients[t]] && s'.todo == s.todo[t := s.todo[t][1..]]
      && CallIn(s'.clients[t]) == [s.todo[t][0]]
  {
  }

  lemma CallGoesOn(s: State, t: nat)
    requires Enabled(s, t) && t < |s.clients| && !s.clients[t].Idle?
    ensures var c := ClientStep(s, t).clients[t]; c.Idle? || CallIn(c) == CallIn(s.clients[t])
  {
  }

  /** A step leaves the remaining calls as they are, or takes away the first call of a client that returns. */
  lemma RemainingMoves(s: State, t: nat)
    requires Enabled(s, t)
    ensures var s', r := Next(s, t), Remaining(s);
      s'.Shaped() && (Remaining(s') == r || (t < |r| && r[t] != [] && Remaining(s') == r[t := r[t][1..]]))
  {
    var s', r := Next(s, t), Remaining(s);
    if t == |s.clients| {
      WorkerWork(s);
      return;
    }
    var todo := s.todo[t];
    if s.clients[t].Idle? {
      CallStarts(s, t);
      assert [todo[0]] + todo[1..] == todo == CallIn(Idle) + todo;
      assert Remaining(s') == r;
      return;
    }
    CallWork(s, t);
    CallGoesOn(s, t);
    if s'.clients[t].Idle? {
      assert r[t][1..] == todo == CallIn(Idle) + todo;
      assert Remaining(s') == r[t := todo];
    } else {
      assert Remaining(s') == r;
    }
  }

  lemma FewerCallsAreSettled(r: seq<seq<Call>>, t: nat)
    requires t < |r| && r[t] != []
    ensures !Racy(r) ==> !Racy(r[t := r[t][1..]])
    ensures NoItems(r) ==> NoItems(r[t := r[t][1..]])
  {
    var r' := r[t := r[t][1..]];
    forall j: nat, q: nat | ItemAt(r', j, q) ensures ItemAt(r, j, if j == t then q + 1 else q) {
    }
    forall i: nat, p: nat | DestroyAt(r', i, p) ensures DestroyAt(r, i, if i == t then p + 1 else p) {
    }
  }

  lemma SettledKept(s: State, t: nat)
    requires Settled(s) && Enabled(s, t)
    ensures Settled(Next(s, t))
  {
    var s', r := Next(s, t), Remaining(s);
    RemainingMoves(s, t);
    if t < |r| && r[t] != [] {
      FewerCallsAreSettled(r, t);
    }
    if t < |s.clients| && s.clients[t].Destroying? {
      assert DestroyAt(r, t, 0);
    }
    if t < |s.clients| && s.clients[t].Queueing? {
      assert ItemAt(r, t, 0);
    }
  }

  lemma {:induction false} SettledAlways(s: State, schedule: seq<nat>)
    requires Settled(s) && Legal(s, schedule)
    ensures Settled(Run(s, schedule))
    decreases |schedule|
  {
    if schedule != [] {
      SettledKept(s, schedule[0]);
      SettledAlways(Next(s, schedule[0]), schedule[1..]);
    }
  }

  ghost predicate Maximal(programs: seq<seq<Call>>, schedule: seq<nat>) {
    Legal(Initial(programs), schedule) && forall t :: !Enabled(Run(Initial(programs), schedule), t)
  }

  /** Every call of QueueWorkItem has returned, and what has run, and been freed, is every item of every program, each
      once, and each client's in the order of its program.
    */
  ghost predicate NothingLost(programs: seq<seq<Call>>, s: State) {
    && s.Shaped() && NoItems(Remaining(s)) && s.ran == s.enqueued && s.freed == s.enqueued
    && multiset(s.ran) == Together(ItemLists(programs))
    && (exists who :: Interleaves(s.ran, who, ItemLists(programs)))
  }

  lemma RunsOfSettledLoseNothing(programs: seq<seq<Call>>, schedule: seq<nat>)
    requires !Racy(programs) && Maximal(programs, schedule)
    ensures NothingLost(programs, Run(Initial(programs), schedule))
  {
    forall i | 0 <= i < |programs| ensures Remaining(Initial(programs))[i] == programs[i] {
      assert CallIn(Idle) + programs[i] == programs[i];
    }
    assert Remaining(Initial(programs)) == programs;
    SettledAlways(Initial(programs), schedule);
    Quiescence(programs, schedule);
    if !Run(Initial(programs), schedule).worker.Gone? {
      FinishedRemainNothing(Run(Initial(programs), schedule));
    }
    AllRan(programs, schedule);
  }

  lemma FinishedRemainNothing(s: State)
    requires ClientsDone(s)
    ensures NoItems(Remaining(s))
  {
    forall i | 0 <= i < |s.clients| ensures Remaining(s)[i] == [] {
    }
  }

  lemma AllRan(programs: seq<seq<Call>>, schedule: seq<nat>)
    requires Legal(Initial(programs), schedule)
    requires var s := Run(Initial(programs), schedule);
      s.Shaped() && NoItems(Remaining(s)) && s.ran == s.enqueued && s.freed == s.enqueued
    ensures NothingLost(programs, Run(Initial(programs), schedule))
  {
    var s := Run(Initial(programs), schedule);
    forall t | 0 <= t < |s.clients| ensures Unqueued(s, t) == [] {
      NothingToQueue(s, t);
    }
    var who := AllItemsQueued(programs, schedule);
    assert Interleaves(s.ran, who, ItemLists(programs));
  }

  lemma {:induction false} NoItemsIn(calls: seq<Call>)
    requires forall q :: 0 <= q < |calls| ==> !calls[q].QueueItem?
    ensures ItemsOf(calls) == []
  {
    if calls != [] {
      NoItemsIn(calls[1..]);
    }
  }

  lemma NothingToQueue(s: State, t: nat)
    requires s.Shaped() && NoItems(Remaining(s)) && t < |s.clients|
    ensures Unqueued(s, t) == []
  {
    var r: seq<seq<Call>> := Remaining(s);
    forall q | 0 <= q < |r[t]| ensures !r[t][q].QueueItem? {
      assert !ItemAt(r, t, q);
    }
    var c := CallIn(s.clients[t]);
    assert c != [] ==> c[0] == r[t][0];
    forall q | 0 <= q < |s.todo[t]| ensures !s.todo[t][q].QueueItem? {
      assert s.todo[t][q] == r[t][|CallIn(s.clients[t])| + q];
    }
    NoItemsIn(s.todo[t]);
  }

  // The other half: a run that loses an item.

  lemma {:induction false} Then(s: State, a: seq<nat>, b: seq<nat>)
    requires Legal(s, a) && Legal(Run(s, a), b)
    ensures Legal(s, a + b) && Run(s, a + b) == Run(Run(s, a), b)
    decreases |a|
  {
    if a == [] {
      assert a + b == b;
    } else {
      assert (a + b)[1..] == a[1..] + b;
      Then(Next(s, a[0]), a[1..], b);
    }
  }

  lemma First(s: State, t: nat, rest: seq<nat>)
    requires Enabled(s, t) && Legal(Next(s, t), rest)
    ensures Legal(s, [t] + rest) && Run(s, [t] + rest) == Run(Next(s, t), rest)
  {
    assert ([t] + rest)[1..] == rest;
  }

  /** Lock is free, client `t` is between calls, and the worker is there. */
  ghost predicate MayCall(s: State, t: nat) {
    s.Shaped() && t < |s.clients| && s.clients[t].Idle? && s.lock.None? && !s.worker.Gone?
  }

  /** What `n` calls made while nobody else moves leave as it is, and what they do to the flags. */
  ghost predicate Called(s: State, t: nat, n: nat, s': State)
    requires t < |s.todo| && n <= |s.todo[t]|
  {
    && s'.clients == s.clients && s'.todo == s.todo[t := s.todo[t][n..]]
    && s'.lock.None? && s'.worker == s.worker
    && (s.exitThread || (exists k :: 0 <= k < n && s.todo[t][k].Destroy?) ==> s'.exitThread)
    && (s.event || n > 0 ==> s'.event)
  }

  lemma OneQueueWorkItem(s: State, t: nat)
    requires MayCall(s, t) && s.todo[t] != [] && s.todo[t][0].QueueItem?
    ensures Legal(s, [t, t, t, t, t]) && Called(s, t, 1, Run(s, [t, t, t, t, t]))
  {
    var s1 := Next(s, t);
    var s2 := Next(s1, t);
    var s3 := Next(s2, t);
    var s4 := Next(s3, t);
    assert Next(s4, t).clients == s.clients;
    First(s4, t, []);
    First(s3, t, [t]);
    First(s2, t, [t, t]);
    First(s1, t, [t, t, t]);
    First(s, t, [t, t, t, t]);
  }

  lemma OneDestroyWorkQueue(s: State, t: nat)
    requires MayCall(s, t) && s.todo[t] != [] && s.todo[t][0].Destroy?
    ensures Legal(s, [t, t, t, t, t]) && Called(s, t, 1, Run(s, [t, t, t, t, t]))
  {
    var s1 := Next(s, t);
    var s2 := Next(s1, t);
    var s3 := Next(s2, t);
    var s4 := Next(s3, t);
    assert Next(s4, t).clients == s.clients;
    First(s4, t, []);
    First(s3, t, [t]);
    First(s2, t, [t, t]);
    First(s1, t, [t, t, t]);
    First(s, t, [t, t, t, t]);
  }

  lemma {:induction false} ManyCalls(s: State, t: nat, n: nat) returns (schedule: seq<nat>)
    requires MayCall(s, t) && n <= |s.todo[t]|
    ensures Legal(s, schedule) && Called(s, t, n, Run(s, schedule))
    decreases n
  {
    if n == 0 {
      return [];
    }
    if s.todo[t][0].QueueItem? {
      OneQueueWorkItem(s, t);
    } else {
      OneDestroyWorkQueue(s, t);
    }
    var s1 := Run(s, [t, t, t, t, t]);
    var rest := ManyCalls(s1, t, n - 1);
    Then(s, [t, t, t, t, t], rest);
    schedule := [t, t, t, t, t] + rest;
    forall k | 0 <= k < n && s.todo[t][k].Destroy? ensures Run(s, schedule).exitThread {
      assert k > 0 ==> s1.todo[t][k - 1] == s.todo[t][k];
    }
  }

  /** The worker, told to end, gets to the deletion when nobody else moves. */
  lemma {:induction false} WorkerGetsToDelete(s: State) returns (schedule: seq<nat>)
    requires Invariant(s) && s.exitThread && (s.lock.Some? ==> s.lock.value == |s.clients|)
    requires (s.worker.TakeEvent? ==> s.event) && s.worker != UnlockLoop(false) && !s.worker.Gone?
    ensures Legal(s, schedule)
    ensures var s' := Run(s, schedule);
      s'.worker == Draining(Delete) && s'.lock.None? && s'.clients == s.clients && s'.todo == s.todo
    decreases WorkerRank(s.worker) + 6 * |s.queue| + 5 * Bit(s.event)
  {
    if s.worker == Draining(Delete) {
      return [];
    }
    var n := |s.clients|;
    WorkerWork(s);
    WorkerKept(s);
    var rest := WorkerGetsToDelete(WorkerStep(s));
    First(s, n, rest);
    schedule := [n] + rest;
  }

  /** Something was queued after the worker's last unlock. */
  ghost predicate TooLate(s: State) {
    (s.worker == Draining(Delete) || s.worker.Gone?) && s.beforeEnd < |s.enqueued|
  }

  lemma QueuedTooLate(s: State, t: nat)
    requires Invariant(s) && s.worker == Draining(Delete) && MayCall(s, t)
    requires s.todo[t] != [] && s.todo[t][0].QueueItem?
    ensures Legal(s, [t, t, t]) && TooLate(Run(s, [t, t, t]))
  {
    var s1 := Next(s, t);
    var s2 := Next(s1, t);
    First(s2, t, []);
    First(s1, t, [t]);
    First(s, t, [t, t]);
  }

  lemma {:induction false} TooLateForever(s: State, schedule: seq<nat>)
    requires Invariant(s) && TooLate(s) && Legal(s, schedule)
    ensures TooLate(Run(s, schedule)) && Run(s, schedule).freed != Run(s, schedule).enqueued
    decreases |schedule|
  {
    if schedule != [] {
      InvariantKept(s, schedule[0]);
      assert TooLate(Next(s, schedule[0]));
      TooLateForever(Next(s, schedule[0]), schedule[1..]);
    }
  }

  lemma {:induction false} GoOn(s: State) returns (schedule: seq<nat>)
    requires s.Shaped()
    ensures Legal(s, schedule) && forall t :: !Enabled(Run(s, schedule), t)
    decreases Work(s)
  {
    if t: nat :| Enabled(s, t) {
      WorkDecreases(s, t);
      var rest := GoOn(Next(s, t));
      First(s, t, rest);
      schedule := [t] + rest;
    } else {
      schedule := [];
    }
  }

  /** Client `i` has destroyed the queue, client `j` is going to queue an item, and the worker has not moved. */
  lemma BeforeTheRace(programs: seq<seq<Call>>, i: nat, p: nat, j: nat, q: nat) returns (schedule: seq<nat>)
    requires DestroyAt(programs, i, p) && ItemAt(programs, j, q) && (i != j || p < q)
    ensures Legal(Initial(programs), schedule)
    ensures var s := Run(Initial(programs), schedule);
      && MayCall(s, j) && s.todo[j] == programs[j][q..] && s.exitThread && s.event && s.worker.TakeEvent?
  {
    var s0 := Initial(programs);
    var a := ManyCalls(s0, j, q);
    if i == j {
      assert programs[i][p].Destroy?;
      return a;
    }
    var s1 := Run(s0, a);
    var b := ManyCalls(s1, i, p + 1);
    assert s1.todo[i][p].Destroy?;
    Then(s0, a, b);
    schedule := a + b;
  }

  lemma UnfreedIsLost(programs: seq<seq<Call>>, s: State)
    requires s.freed != s.enqueued
    ensures !NothingLost(programs, s)
  {
  }

  lemma RacyLoses(programs: seq<seq<Call>>) returns (schedule: seq<nat>)
    requires Racy(programs)
    ensures Maximal(programs, schedule) && !NothingLost(programs, Run(Initial(programs), schedule))
  {
    var s0 := Initial(programs);
    var i: nat, p: nat, j: nat, q: nat :|
      DestroyAt(programs, i, p) && ItemAt(programs, j, q) && (i != j || p < q);
    InvariantInitially(programs);
    var a := BeforeTheRace(programs, i, p, j, q);
    InvariantAlways(s0, a);
    var s1 := Run(s0, a);
    var b := WorkerGetsToDelete(s1);
    InvariantAlways(s1, b);
    var s2 := Run(s1, b);
    QueuedTooLate(s2, j);
    InvariantAlways(s2, [j, j, j]);
    var s3 := Run(s2, [j, j, j]);
    var c := GoOn(s3);
    TooLateForever(s3, c);
    Then(s2, [j, j, j], c);
    Then(s1, b, [j, j, j] + c);
    Then(s0, a, b + ([j, j, j] + c));
    schedule := a + (b + ([j, j, j] + c));
    UnfreedIsLost(programs, Run(s3, c));
  }

  /** Every run that cannot be continued has queued, run and freed everything if and only if no client queues an item
      after its own call of DestroyWorkQueue, and no two different clients do the one and the other.
    */
  lemma NothingLostIff(programs: seq<seq<Call>>)
    ensures (forall schedule :: Maximal(programs, schedule) ==> NothingLost(programs, Run(Initial(programs), schedule)))
      <==> !Racy(programs)
  {
    if Racy(programs) {
      var schedule := RacyLoses(programs);
      assert Maximal(programs, schedule);
    } else {
      forall schedule | Maximal(programs, schedule) ensures NothingLost(programs, Run(Initial(programs), schedule)) {
        RunsOfSettledLoseNothing(programs, schedule);
      }
    }
  }

  // ---------- An item queued after the worker's last unlock is lost ----------

  lemma {:induction false} AndThen(s0: State, schedule: seq<nat>, t: nat)
    requires Legal(s0, schedule) && Enabled(Run(s0, schedule), t)
    ensures Legal(s0, schedule + [t]) && Run(s0, schedule + [t]) == Next(Run(s0, schedule), t)
    decreases |schedule|
  {
    if schedule == [] {
      assert [t][1..] == [];
      assert schedule + [t] == [t];
    } else {
      assert (schedule + [t])[1..] == schedule[1..] + [t];
      AndThen(Next(s0, schedule[0]), schedule[1..], t);
    }
  }

  /** Client 0 destroys the work queue while client 1 is about to queue item 7. */
  const RACE: seq<seq<Call>> := [[Destroy], [QueueItem(7)]]

  lemma DestroyCalled() returns (schedule: seq<nat>)
    ensures Legal(Initial(RACE), schedule)
    ensures Run(Initial(RACE), schedule) ==
      Initial(RACE).(event := true, exitThread := true, clients := [Idle, Idle], todo := [[], [QueueItem(7)]])
  {
    schedule := [];
    assert Initial(RACE).clients == [Idle, Idle] && RACE[0][1..] == [];
    AndThen(Initial(RACE), schedule, 0); schedule := schedule + [0];
    AndThen(Initial(RACE), schedule, 0); schedule := schedule + [0];
    AndThen(Initial(RACE), schedule, 0); schedule := schedule + [0];
    AndThen(Initial(RACE), schedule, 0); schedule := schedule + [0];
    AndThen(Initial(RACE), schedule, 0); schedule := schedule + [0];
    var s := Run(Initial(RACE), schedule);
    assert s.clients == [Idle, Idle] && s.todo == [[], [QueueItem(7)]];
  }

  lemma WorkerEnds() returns (schedule: seq<nat>)
    ensures Legal(Initial(RACE), schedule)
    ensures Run(Initial(RACE), schedule) ==
      Initial(RACE).(exitThread := true, worker := Draining(Delete), clients := [Idle, Idle],
                     todo := [[], [QueueItem(7)]])
  {
    schedule := DestroyCalled();
    AndThen(Initial(RACE), schedule, 2); schedule := schedule + [2];
    AndThen(Initial(RACE), schedule, 2); schedule := schedule + [2];
    AndThen(Initial(RACE), schedule, 2); schedule := schedule + [2];
    AndThen(Initial(RACE), schedule, 2); schedule := schedule + [2];
    AndThen(Initial(RACE), schedule, 2); schedule := schedule + [2];
    AndThen(Initial(RACE), schedule, 2); schedule := schedule + [2];
    AndThen(Initial(RACE), schedule, 2); schedule := schedule + [2];
    AndThen(Initial(RACE), schedule, 2); schedule := schedule + [2];
  }

  /** The item is queued between the last unlock and the deletion: it neither runs nor is freed. */
  lemma LateItemIsLost() returns (schedule: seq<nat>)
    ensures Legal(Initial(RACE), schedule)
    ensures var s := Run(Initial(RACE), schedule);
      && (forall t :: !Enabled(s, t))
      && s.enqueued == [7] && s.ran == [] && s.freed == [] && s.worker.Gone?
  {
    schedule := WorkerEnds();
    AndThen(Initial(RACE), schedule, 1); schedule := schedule + [1];
    AndThen(Initial(RACE), schedule, 1); schedule := schedule + [1];
    AndThen(Initial(RACE), schedule, 1); schedule := schedule + [1];
    AndThen(Initial(RACE), schedule, 1); schedule := schedule + [1];
    AndThen(Initial(RACE), schedule, 1); schedule := schedule + [1];
    AndThen(Initial(RACE), schedule, 2); schedule := schedule + [2];
  }

  // ---------- The work queue itself ----------

  /** The work queue, its worker and its clients, changed in place one statement at a time. */
  class Queue {
    var queue: seq<Item>
    var event: bool
    var lock: Mutex
    var exitThread: bool
    var worker: WorkerPc
    var clients: seq<ClientPc>
    var todo: seq<seq<Call>>
    var enqueued: seq<Item>
    var ran: seq<Item>
    var freed: seq<Item>
    var beforeExit: nat
    var beforeEnd: nat

    ghost function Value(): State
      reads this
    {
      State(queue, event, lock, exitThread, worker, clients, todo, enqueued, ran, freed, beforeExit, beforeEnd)
    }

    constructor (programs: seq<seq<Call>>)
      ensures Value() == Initial(programs)
    {
      queue, event, lock, exitThread := [], false, None, false;
      worker, clients, todo := TakeEvent, seq(|programs|, i => Idle), programs;
      enqueued, ran, freed, beforeExit, beforeEnd := [], [], [], 0, 0;
    }

    /** The main loop of WorkerThread. */
    method LoopStep()
      requires Enabled(Value(), |clients|) && !worker.Draining?
      modifies this
      ensures Value() == WorkerStep(old(Value()))
    {
      match worker
      case TakeEvent =>
        event := false;
        worker := TakeLock;
      case TakeLock =>
        lock := Some(|clients|);
        worker := WorkerPc.Test;
      case Test =>
        worker := if queue == [] then ReadExit else WorkerPc.Dequeue;
      case Dequeue =>
        worker := WorkerPc.Unlock(queue[0]);
        queue := queue[1..];
      case Unlock(item) =>
        lock := None;
        worker := RunItem(item);
      case RunItem(item) =>
        ran := ran + [item];
        worker := FreeItem(item);
      case FreeItem(item) =>
        freed := freed + [item];
        worker := Relock;
      case Relock =>
        lock := Some(|clients|);
        worker := WorkerPc.Test;
      case ReadExit =>
        worker := UnlockLoop(exitThread);
      case UnlockLoop(exit) =>
        lock := None;
        worker := if exit then Draining(Drain.Lock) else TakeEvent;
    }

    /** Its cleanup. */
    method CleanupStep()
      requires Enabled(Value(), |clients|) && worker.Draining?
      modifies this
      ensures Value() == WorkerStep(old(Value()))
    {
      match worker.d
      case Lock =>
        lock := Some(|clients|);
        worker := Draining(Drain.Test);
      case Test =>
        worker := Draining(if queue == [] then Drain.Unlock else Drain.Dequeue);
      case Dequeue =>
        worker := Draining(Free(queue[0]));
        queue := queue[1..];
      case Free(item) =>
        freed := freed + [item];
        worker := Draining(Drain.Test);
      case Unlock =>
        lock := None;
        beforeEnd := |enqueued|;
        worker := Draining(Delete);
      case Delete =>
        worker := Gone;
    }

    method QueueWorkItemStep(t: nat)
      requires Enabled(Value(), t) && t < |clients| && clients[t].Queueing?
      modifies this
      ensures Value() == ClientStep(old(Value()), t)
    {
      var item := clients[t].item;
      match clients[t].q
      case Lock =>
        lock := Some(t);
        clients := clients[t := Queueing(Enqueue, item)];
      case Enqueue =>
        queue, enqueued := queue + [item], enqueued + [item];
        clients := clients[t := Queueing(Queueing.GiveEvent, item)];
      case GiveEvent =>
        event := true;
        clients := clients[t := Queueing(Queueing.Unlock, item)];
      case Unlock =>
        lock := None;
        clients := clients[t := Idle];
    }

    method DestroyWorkQueueStep(t: nat)
      requires Enabled(Value(), t) && t < |clients| && clients[t].Destroying?
      modifies this
      ensures Value() == ClientStep(old(Value()), t)
    {
      match clients[t].y
      case Lock =>
        lock := Some(t);
        clients := clients[t := Destroying(SetExit)];
      case SetExit =>
        if !exitThread {
          beforeExit := |enqueued|;
        }
        exitThread := true;
        clients := clients[t := Destroying(Destroying.GiveEvent)];
      case GiveEvent =>
        event := true;
        clients := clients[t := Destroying(Destroying.Unlock)];
      case Unlock =>
        lock := None;
        clients := clients[t := Idle];
    }

    method CallStep(t: nat)
      requires Enabled(Value(), t) && t < |clients| && clients[t].Idle?
      modifies this
      ensures Value() == ClientStep(old(Value()), t)
    {
      match todo[t][0] {
        case QueueItem(item) => clients := clients[t := Queueing(Queueing.Lock, item)];
        case Destroy => clients := clients[t := Destroying(Destroying.Lock)];
      }
      todo := todo[t := todo[t][1..]];
    }

    method Step(t: nat)
      requires Invariant(Value()) && Enabled(Value(), t)
      modifies this
      ensures Value() == Next(old(Value()), t) && Invariant(Value())
    {
      InvariantKept(Value(), t);
      if t == |clients| {
        if worker.Draining? {
          CleanupStep();
        } else {
          LoopStep();
        }
      } else {
        match clients[t]
        case Idle => CallStep(t);
        case Queueing(_, _) => QueueWorkItemStep(t);
        case Destroying(_) => DestroyWorkQueueStep(t);
      }
    }

    /** Runs any interleaving. */
    method Execute(schedule: seq<nat>)
      requires Invariant(Value()) && Legal(Value(), schedule)
      modifies this
      ensures Value() == Run(old(Value()), schedule) && Invariant(Value())
      ensures ran <= enqueued && freed <= enqueued
    {
      var k := 0;
      while k < |schedule|
        invariant k <= |schedule| && Invariant(Value()) && Legal(Value(), schedule[k..])
        invariant Run(Value(), schedule[k..]) == Run(old(Value()), schedule)
      {
        Step(schedule[k]);
        k := k + 1;
      }
      RunsInOrder(Value());
    }
  }
}
