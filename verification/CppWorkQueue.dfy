/** The C++ work queue (cworkqueue.cpp): a worker thread that takes work from a bounded FreeRTOS queue until it takes a
    NULL, any number of threads that queue work, and the destructor, which queues the NULL and waits for the worker.

    Client threads are 0 to n - 1 and the worker is thread n. Once the destructor has deleted the queue nobody can use
    it: a thread that still tries to has broken its contract, and never moves again.
  */
module CppWorkQueue {
  import opened Counting
  import opened FreeRtos
  import opened Interleavings

  datatype Item = Item(id: nat, freeAfterRun: bool)

  /** A `WorkItem *` in the queue; `None` is NULL. */
  type Entry = Option<Item>

  datatype Call = QueueWork(item: Item) | Destruct

  // What each thread is about to execute.
  datatype WorkerPc = Dequeue | RunItem(item: Item) | FreeItem(item: Item) | GiveComplete | Gone
  datatype Pc = Idle | Enqueue(item: Item) | EnqueueNull | TakeComplete | Delete

  datatype Client = Client(pc: Pc, todo: seq<Call>)

  datatype State = State(
    capacity: nat, queue: seq<Entry>, complete: bool, deleted: bool, worker: WorkerPc, clients: seq<Client>,
    enqueued: seq<Entry>, ran: seq<Item>, freed: seq<Item>)   // history
  {
    function Go(t: nat, pc: Pc): State
      requires t < |clients|
    {
      this.(clients := clients[t := clients[t].(pc := pc)])
    }
  }

  function Initial(capacity: nat, programs: seq<seq<Call>>): State {
    State(capacity, [], false, false, Dequeue,
          seq(|programs|, i requires 0 <= i < |programs| => Client(Idle, programs[i])), [], [], [])
  }

  predicate Enabled(s: State, t: nat) {
    if t == |s.clients| then
      match s.worker
      case Dequeue => !s.deleted && s.queue != []
      case GiveComplete => !s.deleted
      case Gone => false
      case _ => true
    else
      t < |s.clients| &&
      match s.clients[t].pc
      case Idle => s.clients[t].todo != []
      case Enqueue(_) | EnqueueNull => !s.deleted && |s.queue| < s.capacity
      case TakeComplete => !s.deleted && s.complete
      case Delete => !s.deleted
  }

  function WorkerStep(s: State): State
    requires Enabled(s, |s.clients|)
  {
    match s.worker
    case Dequeue =>
      var pc := match s.queue[0] case None => GiveComplete case Some(item) => RunItem(item);
      s.(queue := s.queue[1..], worker := pc)
    case RunItem(item) => s.(ran := s.ran + [item], worker := FreeItem(item))
    case FreeItem(item) => s.(freed := if item.freeAfterRun then s.freed + [item] else s.freed, worker := Dequeue)
    case GiveComplete => s.(complete := true, worker := Gone)
  }

  function ClientStep(s: State, t: nat): State
    requires Enabled(s, t) && t < |s.clients|
  {
    var c := s.clients[t];
    match c.pc
    case Idle =>
      var pc := match c.todo[0] case QueueWork(item) => Enqueue(item) case Destruct => EnqueueNull;
      s.(clients := s.clients[t := Client(pc, c.todo[1..])])
    case Enqueue(item) => s.Go(t, Idle).(queue := s.queue + [Some(item)], enqueued := s.enqueued + [Some(item)])
    case EnqueueNull => s.Go(t, TakeComplete).(queue := s.queue + [None], enqueued := s.enqueued + [None])
    case TakeComplete => s.Go(t, Delete).(complete := false)
    case Delete => s.Go(t, Idle).(deleted := true)
  }

  function Next(s: State, t: nat): State
    requires Enabled(s, t)
  {
    if t == |s.clients| then WorkerStep(s) else ClientStep(s, t)
  }

  // ---------- What should run and what should be freed ----------

  /** The work queued before the first NULL. */
  function BeforeNull(entries: seq<Entry>): seq<Item> {
    if entries == [] || entries[0].None? then [] else [entries[0].value] + BeforeNull(entries[1..])
  }

  function FreedAfterRun(items: seq<Item>): seq<Item> {
    if items == [] then []
    else
      var n := |items| - 1;
      FreedAfterRun(items[..n]) + if items[n].freeAfterRun then [items[n]] else []
  }

  function Entries(items: seq<Item>): seq<Entry> {
    seq(|items|, i requires 0 <= i < |items| => Some(items[i]))
  }

  lemma {:induction false} BeforeNullOf(items: seq<Item>, rest: seq<Entry>)
    ensures BeforeNull(Entries(items) + rest) == items + BeforeNull(rest)
  {
    if items == [] {
      assert Entries(items) + rest == rest;
    } else {
      assert (Entries(items) + rest)[1..] == Entries(items[1..]) + rest;
      BeforeNullOf(items[1..], rest);
    }
  }

  // ---------- The invariant ----------

  predicate Stopped(w: WorkerPc) { w.GiveComplete? || w.Gone? }

  /** What the worker has dequeued: what it ran, and what it is about to run. */
  function Taken(s: State): seq<Item> {
    s.ran + if s.worker.RunItem? then [s.worker.item] else []
  }

  /** The queue holds what was queued and not taken, in order; the worker stopped at the first NULL. */
  ghost predicate InOrder(s: State) {
    && |s.queue| <= s.capacity
    && s.enqueued == Entries(Taken(s)) + (if Stopped(s.worker) then [None] else []) + s.queue
  }

  /** Each item that ran was freed right after, if it asks for that. */
  ghost predicate Freed(s: State) {
    if s.worker.FreeItem? then
      s.ran != [] && s.ran[|s.ran| - 1] == s.worker.item && s.freed == FreedAfterRun(s.ran[..|s.ran| - 1])
    else s.freed == FreedAfterRun(s.ran)
  }

  /** The destructor's take has returned, and it has not deleted the queue yet. */
  predicate PastWait(c: Client) { c.pc.Delete? }

  predicate InDestructor(c: Client) { c.pc.TakeComplete? || c.pc.Delete? }

  /** ThreadComplete is given once, as the worker's last act; it is in the semaphore, or with the destructor, until the
      queue is deleted; and as long as it is not, whoever queued a NULL is still in the destructor.
    */
  ghost predicate Waits(s: State) {
    && Bit(s.complete) + Count(s.clients, PastWait) + Bit(s.deleted) == Bit(s.worker.Gone?)
    && (None in s.enqueued <==> s.deleted || Count(s.clients, InDestructor) >= 1)
  }

  ghost predicate Invariant(s: State) {
    InOrder(s) && Freed(s) && Waits(s)
  }

  lemma InvariantInitially(capacity: nat, programs: seq<seq<Call>>)
    ensures Invariant(Initial(capacity, programs))
  {
    CountNone(Initial(capacity, programs).clients, PastWait);
    CountNone(Initial(capacity, programs).clients, InDestructor);
  }

  lemma EntriesMore(items: seq<Item>, x: Item)
    ensures Entries(items + [x]) == Entries(items) + [Some(x)]
  {
  }

  lemma DequeueKeeps(s: State)
    requires Invariant(s) && Enabled(s, |s.clients|) && s.worker.Dequeue?
    ensures Invariant(WorkerStep(s))
  {
    assert s.queue == [s.queue[0]] + s.queue[1..];
    if s.queue[0].Some? {
      EntriesMore(s.ran, s.queue[0].value);
    }
  }

  lemma WorkKeeps(s: State)
    requires Invariant(s) && Enabled(s, |s.clients|) && !s.worker.Dequeue?
    ensures Invariant(WorkerStep(s))
  {
    if s.worker.RunItem? {
      assert (s.ran + [s.worker.item])[..|s.ran|] == s.ran;
    }
  }

  lemma ClientKeepsOrder(s: State, t: nat)
    requires InOrder(s) && Freed(s) && Enabled(s, t) && t < |s.clients|
    ensures InOrder(ClientStep(s, t)) && Freed(ClientStep(s, t))
  {
  }

  lemma ClientKeepsWaits(s: State, t: nat)
    requires Waits(s) && Enabled(s, t) && t < |s.clients|
    ensures Waits(ClientStep(s, t))
  {
    var c := ClientStep(s, t).clients[t];
    CountUpdate(s.clients, t, c, PastWait);
    CountUpdate(s.clients, t, c, InDestructor);
    if InDestructor(s.clients[t]) {
      CountMember(s.clients, t, InDestructor);
    }
  }

  lemma InvariantKept(s: State, t: nat)
    requires Invariant(s) && Enabled(s, t)
    ensures Invariant(Next(s, t)) && |Next(s, t).clients| == |s.clients|
  {
    if t < |s.clients| {
      ClientKeepsOrder(s, t);
      ClientKeepsWaits(s, t);
      return;
    } else if s.worker.Dequeue? {
      DequeueKeeps(s);
      return;
    } else {
      WorkKeeps(s);
      return;
    }
  }

  // ---------- Whole runs ----------

  ghost predicate Legal(s: State, schedule: seq<nat>)
    decreases |schedule|
  {
    schedule == [] || (Enabled(s, schedule[0]) && Legal(Next(s, schedule[0]), schedule[1..]))
  }

  ghost function Run(s: State, schedule: seq<nat>): State
    requires Legal(s, schedule)
    decreases |schedule|
  {
    if schedule == [] then s else Run(Next(s, schedule[0]), schedule[1..])
  }

  lemma {:induction false} InvariantAlways(s: State, schedule: seq<nat>)
    requires Invariant(s) && Legal(s, schedule)
    ensures Invariant(Run(s, schedule)) && |Run(s, schedule).clients| == |s.clients|
    ensures Run(s, schedule).capacity == s.capacity
    decreases |schedule|
  {
    if schedule != [] {
      InvariantKept(s, schedule[0]);
      InvariantAlways(Next(s, schedule[0]), schedule[1..]);
    }
  }

  // ---------- What is queued is what the clients ask for ----------

  /** What a call puts on the queue. */
  function EntryOf(call: Call): Entry {
    match call case QueueWork(item) => Some(item) case Destruct => None
  }

  function EntriesOf(calls: seq<Call>): seq<Entry> {
    if calls == [] then [] else [EntryOf(calls[0])] + EntriesOf(calls[1..])
  }

  function ItemsOf(calls: seq<Call>): seq<Item> {
    if calls == [] then [] else (if calls[0].QueueWork? then [calls[0].item] else []) + ItemsOf(calls[1..])
  }

  function ItemLists(programs: seq<seq<Call>>): seq<seq<Item>> {
    seq(|programs|, t requires 0 <= t < |programs| => ItemsOf(programs[t]))
  }

  /** What a client is going to put on the queue in the call it is in. */
  function ToQueue(pc: Pc): seq<Entry> {
    match pc case Enqueue(item) => [Some(item)] case EnqueueNull => [None] case _ => []
  }

  function Unqueued(c: Client): seq<Entry> { ToQueue(c.pc) + EntriesOf(c.todo) }

  /** The calls from which a client has not returned. */
  function Left(c: Client): seq<Call> {
    (match c.pc case Idle => [] case Enqueue(item) => [QueueWork(item)] case _ => [Destruct]) + c.todo
  }

  /** What each client's program puts on the queue is, in the order of the program, what it has put there and what it
      has not: `who` tells from whom the entries are.
    */
  ghost predicate QueuedAsAsked(programs: seq<seq<Call>>, s: State, who: seq<nat>) {
    && |s.clients| == |programs| && |who| == |s.enqueued|
    && (forall k :: 0 <= k < |who| ==> who[k] < |programs|)
    && (forall t :: 0 <= t < |programs| ==>
          EntriesOf(programs[t]) == By(s.enqueued, who, t) + Unqueued(s.clients[t]))
  }

  /** Client `c` is in its program, and no Destruct has returned before the queue was deleted. */
  ghost predicate ReturnedInTime(program: seq<Call>, c: Client, deleted: bool) {
    var n := |program| - |Left(c)|;
    n >= 0 && program[n..] == Left(c) && forall k :: 0 <= k < n && program[k].Destruct? ==> deleted
  }

  ghost predicate AllReturnedInTime(programs: seq<seq<Call>>, s: State) {
    && |s.clients| == |programs|
    && (forall t :: 0 <= t < |programs| ==> ReturnedInTime(programs[t], s.clients[t], s.deleted))
  }

  /** What a step puts on the queue comes from the client that makes it, and is the next that its program asks for. */
  lemma ClientAsks(s: State, t: nat)
    requires Enabled(s, t) && t < |s.clients|
    ensures var s', c := ClientStep(s, t), s.clients[t];
      && s'.clients == s.clients[t := s'.clients[t]]
      && s'.enqueued == s.enqueued + (if c.pc.Idle? then [] else ToQueue(c.pc))
      && Unqueued(c) == (if c.pc.Idle? then [] else ToQueue(c.pc)) + Unqueued(s'.clients[t])
  {
  }

  lemma ClientReturns(s: State, t: nat)
    requires Enabled(s, t) && t < |s.clients|
    ensures var s', left := ClientStep(s, t), Left(s.clients[t]);
      && (s.deleted ==> s'.deleted) && left != []
      && (Left(s'.clients[t]) == left ||
          (Left(s'.clients[t]) == left[1..] && (left[0].Destruct? ==> s'.deleted)))
  {
    var c := s.clients[t];
    if c.pc.Idle? {
      assert c.todo == [c.todo[0]] + c.todo[1..];
    }
  }

  lemma ReturnsInTime(program: seq<Call>, c: Client, deleted: bool, c': Client, deleted': bool)
    requires ReturnedInTime(program, c, deleted) && (deleted ==> deleted') && Left(c) != []
    requires Left(c') == Left(c) || (Left(c') == Left(c)[1..] && (Left(c)[0].Destruct? ==> deleted'))
    ensures ReturnedInTime(program, c', deleted')
  {
    var n := |program| - |Left(c)|;
    assert program[n] == Left(c)[0] && program[n..][1..] == program[n + 1..];
  }

  lemma ClientQueuesAsAsked(programs: seq<seq<Call>>, s: State, who: seq<nat>, t: nat) returns (who': seq<nat>)
    requires QueuedAsAsked(programs, s, who) && Enabled(s, t) && t < |s.clients|
    ensures QueuedAsAsked(programs, ClientStep(s, t), who')
  {
    var s', pc := ClientStep(s, t), s.clients[t].pc;
    ClientAsks(s, t);
    if pc.Idle? || ToQueue(pc) == [] {
      return who;
    }
    who' := who + [t];
    forall i | 0 <= i < |programs|
      ensures EntriesOf(programs[i]) == By(s'.enqueued, who', i) + Unqueued(s'.clients[i])
    {
      OneCame(s.enqueued, who, ToQueue(pc)[0], t, i, Unqueued(s.clients[i]), Unqueued(s'.clients[i]));
    }
  }

  lemma QueuedAsAskedKept(programs: seq<seq<Call>>, s: State, who: seq<nat>, t: nat) returns (who': seq<nat>)
    requires QueuedAsAsked(programs, s, who) && Enabled(s, t)
    ensures QueuedAsAsked(programs, Next(s, t), who')
  {
    if t == |s.clients| {
      assert WorkerStep(s).clients == s.clients && WorkerStep(s).enqueued == s.enqueued;
      return who;
    } else {
      who' := ClientQueuesAsAsked(programs, s, who, t);
      return;
    }
  }

  lemma ReturnedInTimeKept(programs: seq<seq<Call>>, s: State, t: nat)
    requires AllReturnedInTime(programs, s) && Enabled(s, t)
    ensures AllReturnedInTime(programs, Next(s, t))
  {
    if t == |s.clients| {
      assert WorkerStep(s).clients == s.clients && WorkerStep(s).deleted == s.deleted;
      return;
    } else {
      var s' := ClientStep(s, t);
      ClientAsks(s, t);
      ClientReturns(s, t);
      ReturnsInTime(programs[t], s.clients[t], s.deleted, s'.clients[t], s'.deleted);
      return;
    }
  }

  lemma {:induction false} AsAskedAlways(programs: seq<seq<Call>>, s: State, who: seq<nat>, schedule: seq<nat>)
    returns (who': seq<nat>)
    requires QueuedAsAsked(programs, s, who) && AllReturnedInTime(programs, s) && Legal(s, schedule)
    ensures QueuedAsAsked(programs, Run(s, schedule), who') && AllReturnedInTime(programs, Run(s, schedule))
    decreases |schedule|
  {
    if schedule == [] {
      return who;
    }
    var who1 := QueuedAsAskedKept(programs, s, who, schedule[0]);
    ReturnedInTimeKept(programs, s, schedule[0]);
    who' := AsAskedAlways(programs, Next(s, schedule[0]), who1, schedule[1..]);
  }

  /** Over every interleaving: what has been queued are the items, as they were passed, and the NULLs, of the calls
      that are past their Enqueue, each once and each client's in the order of its program; the queue never holds more
      than its capacity; and once a destructor has returned the queue is deleted.
    */
  lemma CallsQueueTheirItems(capacity: nat, programs: seq<seq<Call>>, schedule: seq<nat>) returns (who: seq<nat>)
    requires Legal(Initial(capacity, programs), schedule)
    ensures var s := Run(Initial(capacity, programs), schedule);
      QueuedAsAsked(programs, s, who) && AllReturnedInTime(programs, s) && |s.queue| <= capacity
  {
    var s := Initial(capacity, programs);
    InvariantInitially(capacity, programs);
    InvariantAlways(s, schedule);
    forall t | 0 <= t < |programs|
      ensures Unqueued(s.clients[t]) == EntriesOf(programs[t]) && Left(s.clients[t]) == programs[t]
    {
    }
    who := AsAskedAlways(programs, s, [], schedule);
  }

  // ---------- What the destructor promises ----------

  /** Work runs at most once and in the order of the queue, and none of it that was queued behind a NULL. */
  lemma RunsInOrder(s: State)
    requires Invariant(s)
    ensures s.ran <= BeforeNull(s.enqueued)
    ensures Stopped(s.worker) ==> s.ran == BeforeNull(s.enqueued) && s.enqueued == Entries(s.ran) + [None] + s.queue
  {
    if Stopped(s.worker) {
      assert s.enqueued == Entries(s.ran) + ([None] + s.queue);
      BeforeNullOf(s.ran, [None] + s.queue);
    } else {
      assert s.enqueued == Entries(Taken(s)) + s.queue;
      BeforeNullOf(Taken(s), s.queue);
      assert s.ran <= Taken(s) <= Taken(s) + BeforeNull(s.queue);
    }
  }

  /** When the destructor's take has returned, and ever after, everything queued before the NULL has run, once each and
      in order; exactly what asked for it was freed, once each; and the worker has left, so the queue may be deleted.
    */
  lemma DestructorWaits(capacity: nat, programs: seq<seq<Call>>, schedule: seq<nat>, d: nat)
    requires Legal(Initial(capacity, programs), schedule)
    requires var s := Run(Initial(capacity, programs), schedule);
      s.deleted || (d < |s.clients| && PastWait(s.clients[d]))
    ensures var s := Run(Initial(capacity, programs), schedule);
      && s.worker.Gone? && s.ran == BeforeNull(s.enqueued) && s.freed == FreedAfterRun(s.ran)
      && s.enqueued == Entries(s.ran) + [None] + s.queue
  {
    InvariantInitially(capacity, programs);
    InvariantAlways(Initial(capacity, programs), schedule);
    var s := Run(Initial(capacity, programs), schedule);
    if !s.deleted {
      CountMember(s.clients, d, PastWait);
    }
    RunsInOrder(s);
  }

  /** Steps the worker still has to make until it leaves. */
  function UntilGone(s: State): nat {
    match s.worker
    case Gone => 0
    case GiveComplete => 1
    case Dequeue => 2 + 3 * |BeforeNull(s.queue)|
    case RunItem(_) => 4 + 3 * |BeforeNull(s.queue)|
    case FreeItem(_) => 3 + 3 * |BeforeNull(s.queue)|
  }

  lemma {:induction false} BeforeNullStays(q: seq<Entry>, e: Entry)
    requires None in q
    ensures BeforeNull(q + [e]) == BeforeNull(q)
  {
    if q[0].Some? {
      assert (q + [e])[1..] == q[1..] + [e];
      BeforeNullStays(q[1..], e);
    }
  }

  lemma NullIsAhead(items: seq<Item>, rest: seq<Entry>)
    requires None in Entries(items) + rest
    ensures None in rest
  {
  }

  /** Once a NULL is queued the worker can always move until it has left, and what clients do does not put that off. */
  lemma WorkerLeaves(s: State, t: nat)
    requires Invariant(s) && None in s.enqueued && Enabled(s, t)
    ensures !s.worker.Gone? ==> Enabled(s, |s.clients|)
    ensures None in Next(s, t).enqueued
    ensures UntilGone(Next(s, t)) == if t == |s.clients| then UntilGone(s) - 1 else UntilGone(s)
  {
    if !Stopped(s.worker) {
      assert s.enqueued == Entries(Taken(s)) + s.queue;
      NullIsAhead(Taken(s), s.queue);
      if t < |s.clients| {
        BeforeNullStays(s.queue, None);
        if s.clients[t].pc.Enqueue? {
          BeforeNullStays(s.queue, Some(s.clients[t].pc.item));
        }
      }
    }
  }

  ghost predicate Done(s: State) {
    forall i :: 0 <= i < |s.clients| ==> s.clients[i].pc.Idle? && s.clients[i].todo == []
  }

  /** Once the worker has left, the destructor gets to the deletion. */
  lemma DestructorMoves(s: State)
    requires Waits(s) && s.worker.Gone? && None in s.enqueued
    ensures s.deleted || exists t :: Enabled(s, t)
  {
    if !s.deleted {
      var d := CountWitness(s.clients, if s.complete then InDestructor else PastWait);
      assert Enabled(s, d);
    }
  }

  lemma NobodyMoves(s: State)
    requires Invariant(s) && s.capacity >= 1 && !s.worker.Gone?
    requires forall t :: !Enabled(s, t)
    ensures Done(s) && s.enqueued == Entries(s.ran)
    ensures s.ran == BeforeNull(s.enqueued) && s.freed == FreedAfterRun(s.ran)
  {
    assert !Enabled(s, |s.clients|);
    assert s.queue == [] && s.worker.Dequeue? && None !in s.enqueued;
    assert s.enqueued == Entries(s.ran) == Entries(s.ran) + [];
    BeforeNullOf(s.ran, []);
    forall i | 0 <= i < |s.clients| ensures s.clients[i].pc.Idle? && s.clients[i].todo == [] {
      assert !Enabled(s, i);
      if InDestructor(s.clients[i]) {
        CountMember(s.clients, i, InDestructor);
      }
    }
  }

  /** When nobody can move, either all calls have returned and all the work queued has run; or the queue was destroyed,
      and what ran is the work queued before the NULL.
    */
  lemma Quiescence(capacity: nat, programs: seq<seq<Call>>, schedule: seq<nat>)
    requires capacity >= 1 && Legal(Initial(capacity, programs), schedule)
    requires forall t :: !Enabled(Run(Initial(capacity, programs), schedule), t)
    ensures var s := Run(Initial(capacity, programs), schedule);
      && s.ran == BeforeNull(s.enqueued) && s.freed == FreedAfterRun(s.ran)
      && (if s.worker.Gone? then s.deleted else Done(s) && s.enqueued == Entries(s.ran))
  {
    InvariantInitially(capacity, programs);
    InvariantAlways(Initial(capacity, programs), schedule);
    var s := Run(Initial(capacity, programs), schedule);
    if s.worker.Gone? {
      RunsInOrder(s);
      assert s.enqueued[|s.ran|] == None;
      DestructorMoves(s);
      return;
    } else {
      NobodyMoves(s);
      return;
    }
  }

  lemma {:induction false} ByEntries(items: seq<Item>, who: seq<nat>, t: nat)
    requires |who| == |items|
    ensures By(Entries(items), who, t) == Entries(By(items, who, t))
  {
    if items != [] {
      var n := |items| - 1;
      ByEntries(items[..n], who[..n], t);
      assert Entries(items)[..n] == Entries(items[..n]);
      EntriesMore(By(items[..n], who[..n], t), items[n]);
    }
  }

  lemma {:induction false} EntriesAreItems(calls: seq<Call>, items: seq<Item>)
    requires EntriesOf(calls) == Entries(items)
    ensures items == ItemsOf(calls) && forall q :: 0 <= q < |calls| ==> calls[q].QueueWork?
  {
    if calls == [] {
      assert |Entries(items)| == 0;
    } else {
      assert Entries(items)[0] == Some(items[0]) && EntriesOf(calls)[1..] == EntriesOf(calls[1..]);
      assert Entries(items)[1..] == Entries(items[1..]);
      EntriesAreItems(calls[1..], items[1..]);
    }
  }

  /** When all calls have returned and the queue is not destroyed, what has run is every item of every program, each
      once, and each client's in the order of its program.
    */
  lemma AllItemsRan(capacity: nat, programs: seq<seq<Call>>, schedule: seq<nat>) returns (who: seq<nat>)
    requires Legal(Initial(capacity, programs), schedule)
    requires var s := Run(Initial(capacity, programs), schedule); Done(s) && s.enqueued == Entries(s.ran)
    ensures var s := Run(Initial(capacity, programs), schedule);
      Interleaves(s.ran, who, ItemLists(programs)) && multiset(s.ran) == Together(ItemLists(programs))
  {
    who := CallsQueueTheirItems(capacity, programs, schedule);
    var s := Run(Initial(capacity, programs), schedule);
    forall t | 0 <= t < |programs| ensures By(s.ran, who, t) == ItemLists(programs)[t] {
      assert Unqueued(s.clients[t]) == [];
      ByEntries(s.ran, who, t);
      EntriesAreItems(programs[t], By(s.ran, who, t));
    }
    InterleavingHasAll(s.ran, who, ItemLists(programs));
  }

  lemma {:induction false} NullComesFromDestruct(calls: seq<Call>)
    requires None in EntriesOf(calls)
    ensures Destruct in calls
  {
    if !calls[0].Destruct? {
      NullComesFromDestruct(calls[1..]);
    }
  }

  /** Without a Destruct, every run that cannot be continued has returned from all calls and has run every item. */
  lemma AllWorkRuns(capacity: nat, programs: seq<seq<Call>>, schedule: seq<nat>) returns (who: seq<nat>)
    requires capacity >= 1 && Legal(Initial(capacity, programs), schedule)
    requires forall i :: 0 <= i < |programs| ==> Destruct !in programs[i]
    requires forall t :: !Enabled(Run(Initial(capacity, programs), schedule), t)
    ensures var s := Run(Initial(capacity, programs), schedule);
      Done(s) && Interleaves(s.ran, who, ItemLists(programs)) && multiset(s.ran) == Together(ItemLists(programs))
  {
    var s := Run(Initial(capacity, programs), schedule);
    Quiescence(capacity, programs, schedule);
    who := CallsQueueTheirItems(capacity, programs, schedule);
    if s.worker.Gone? {
      InvariantInitially(capacity, programs);
      InvariantAlways(Initial(capacity, programs), schedule);
      RunsInOrder(s);
      var k := |s.ran|;
      assert s.enqueued[k] == None;
      ComesFrom(s.enqueued, who, k);
      assert None in EntriesOf(programs[who[k]]);
      NullComesFromDestruct(programs[who[k]]);
      assert false;
    }
    who := AllItemsRan(capacity, programs, schedule);
  }

  // ---------- Every run ends ----------

  /** An upper bound of the steps that the rest of a call still causes, those of the worker included. */
  function Rank(c: Client): nat {
    7 * |c.todo| +
    match c.pc case Idle => 0 case Enqueue(_) => 4 case EnqueueNull => 6 case TakeComplete => 2 case Delete => 1
  }

  function WorkerRank(w: WorkerPc): nat {
    match w case Gone => 0 case Dequeue => 0 case FreeItem(_) => 1 case RunItem(_) => 2 case GiveComplete => 1
  }

  ghost function Work(s: State): nat {
    Total(s.clients, Rank) + 3 * |s.queue| + WorkerRank(s.worker)
  }

  lemma WorkDecreases(s: State, t: nat)
    requires Enabled(s, t)
    ensures Work(Next(s, t)) < Work(s)
  {
    if t < |s.clients| {
      TotalUpdate(s.clients, t, ClientStep(s, t).clients[t], Rank);
    }
  }

  lemma {:induction false} WorkBoundsSteps(s: State, schedule: seq<nat>)
    requires Legal(s, schedule)
    ensures |schedule| <= Work(s)
    decreases |schedule|
  {
    if schedule != [] {
      WorkDecreases(s, schedule[0]);
      WorkBoundsSteps(Next(s, schedule[0]), schedule[1..]);
    }
  }

  function Calls(programs: seq<seq<Call>>): nat {
    if programs == [] then 0 else |programs[0]| + Calls(programs[1..])
  }

  lemma {:induction false} InitialWork(capacity: nat, programs: seq<seq<Call>>)
    ensures Work(Initial(capacity, programs)) == 7 * Calls(programs)
  {
    if programs != [] {
      assert Initial(capacity, programs).clients[1..] == Initial(capacity, programs[1..]).clients;
      InitialWork(capacity, programs[1..]);
    }
  }

  /** However the threads are interleaved, a call causes at most seven steps. */
  lemma RunsEnd(capacity: nat, programs: seq<seq<Call>>, schedule: seq<nat>)
    requires Legal(Initial(capacity, programs), schedule)
    ensures |schedule| <= 7 * Calls(programs)
  {
    WorkBoundsSteps(Initial(capacity, programs), schedule);
    InitialWork(capacity, programs);
  }

  // ---------- The work queue itself ----------

  /** The work queue, its worker and its clients, changed in place one statement at a time. */
  class WorkQueue {
    const capacity: nat
    var queue: seq<Entry>
    var complete: bool
    var deleted: bool
    var worker: WorkerPc
    var clients: seq<Client>
    var enqueued: seq<Entry>
    var ran: seq<Item>
    var freed: seq<Item>

    ghost function Value(): State
      reads this
    {
      State(capacity, queue, complete, deleted, worker, clients, enqueued, ran, freed)
    }

    constructor (maxWorkItems: nat, programs: seq<seq<Call>>)
      ensures Value() == Initial(maxWorkItems, programs)
    {
      capacity, queue, complete, deleted, worker := maxWorkItems, [], false, false, Dequeue;
      clients := seq(|programs|, i requires 0 <= i < |programs| => Client(Idle, programs[i]));
      enqueued, ran, freed := [], [], [];
    }

    /** CWorkerThread::Run. */
    method RunStep()
      requires Enabled(Value(), |clients|)
      modifies this
      ensures Value() == WorkerStep(old(Value()))
    {
      match worker
      case Dequeue =>
        var work := queue[0];
        queue := queue[1..];
        worker := if work.None? then GiveComplete else RunItem(work.value);
      case RunItem(item) =>
        ran := ran + [item];
        worker := FreeItem(item);
      case FreeItem(item) =>
        if item.freeAfterRun {
          freed := freed + [item];
        }
        worker := Dequeue;
      case GiveComplete =>
        complete := true;
        worker := Gone;
    }

    /** QueueWork, the destructor, and the client between its calls. */
    method CallStep(t: nat)
      requires Enabled(Value(), t) && t < |clients|
      modifies this
      ensures Value() == ClientStep(old(Value()), t)
    {
      var c := clients[t];
      match c.pc
      case Idle =>
        var pc := match c.todo[0] case QueueWork(item) => Enqueue(item) case Destruct => EnqueueNull;
        clients := clients[t := Client(pc, c.todo[1..])];
      case Enqueue(item) =>
        queue, enqueued := queue + [Some(item)], enqueued + [Some(item)];
        clients := clients[t := c.(pc := Idle)];
      case EnqueueNull =>
        queue, enqueued := queue + [None], enqueued + [None];
        clients := clients[t := c.(pc := TakeComplete)];
      case TakeComplete =>
        complete := false;
        clients := clients[t := c.(pc := Delete)];
      case Delete =>
        deleted := true;
        clients := clients[t := c.(pc := Idle)];
    }

    method Step(t: nat)
      requires Invariant(Value()) && Enabled(Value(), t)
      modifies this
      ensures Value() == Next(old(Value()), t) && Invariant(Value())
    {
      InvariantKept(Value(), t);
      if t == |clients| {
        RunStep();
      } else {
        CallStep(t);
      }
    }

    /** Runs any interleaving. */
    method Execute(schedule: seq<nat>)
      requires Invariant(Value()) && Legal(Value(), schedule)
      modifies this
      ensures Value() == Run(old(Value()), schedule) && Invariant(Value())
      ensures ran <= BeforeNull(enqueued)
      ensures deleted ==> ran == BeforeNull(enqueued) && freed == FreedAfterRun(ran)
    {
      var k := 0;
      while k < |schedule|
        invariant k <= |schedule| && Invariant(Value()) && Legal(Value(), schedule[k..])
        invariant Run(Value(), schedule[k..]) == Run(old(Value()), schedule)
      {
        Step(schedule[k]);
        k := k + 1;
      }
      RunsInOrder(Value());
    }
  }
}
