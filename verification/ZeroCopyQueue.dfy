/** The zero-copy queue (zero_copy_queue.c): a memory pool of `itemCount` blocks, and a FreeRTOS queue with room for
    `itemCount` pointers. Items go from the pool to a client, through the queue to another client, and back.

    Calls of several threads take effect one at a time: the pool has its lock, and a FreeRTOS queue is atomic. A call on
    an empty or full queue is modelled after its timeout has run out.
  */
module ZeroCopyQueue {
  import opened Bytes
  import opened MemoryPool

  /** Each block is in one place: on the free list, in a client's hands, or in the queue. */
  ghost predicate OnePlace(held: set<nat>, hands: set<nat>, queued: seq<nat>) {
    && hands <= held
    && (forall i :: 0 <= i < |queued| ==> queued[i] in held && queued[i] !in hands)
    && (forall i, j :: 0 <= i < j < |queued| ==> queued[i] != queued[j])
    && (forall b :: b in held ==> b in hands || b in queued)
  }

  lemma Sent(held: set<nat>, hands: set<nat>, queued: seq<nat>, b: nat)
    requires OnePlace(held, hands, queued) && b in hands
    ensures OnePlace(held, hands - {b}, queued + [b]) && |hands - {b}| == |hands| - 1
  {
    var q := queued + [b];
    assert forall c :: c in q <==> c in queued || c == b;
  }

  lemma Received(held: set<nat>, hands: set<nat>, queued: seq<nat>)
    requires OnePlace(held, hands, queued) && queued != []
    ensures OnePlace(held, hands + {queued[0]}, queued[1..]) && |hands + {queued[0]}| == |hands| + 1
  {
    assert queued == [queued[0]] + queued[1..];
    assert forall c :: c in queued <==> c in queued[1..] || c == queued[0];
  }

  lemma Allocated(held: set<nat>, hands: set<nat>, queued: seq<nat>, b: nat)
    requires OnePlace(held, hands, queued) && b !in held
    ensures b !in hands && b !in queued
    ensures OnePlace(held + {b}, hands + {b}, queued) && |hands + {b}| == |hands| + 1
  {
  }

  lemma Freed(held: set<nat>, hands: set<nat>, queued: seq<nat>, b: nat)
    requires OnePlace(held, hands, queued) && b in hands
    ensures OnePlace(held - {b}, hands - {b}, queued) && |hands - {b}| == |hands| - 1
  {
  }

  /** What the FreeRTOS queue holds for the blocks in it: the addresses that their clients use. */
  function Pointers(queued: seq<nat>, alignment: nat): seq<nat> {
    if queued == [] then [] else [queued[0] + alignment] + Pointers(queued[1..], alignment)
  }

  lemma {:induction false} PointersMore(queued: seq<nat>, b: nat, alignment: nat)
    ensures Pointers(queued + [b], alignment) == Pointers(queued, alignment) + [b + alignment]
    ensures |Pointers(queued, alignment)| == |queued|
  {
    if queued == [] {
      assert [b][1..] == [];
    } else {
      assert (queued + [b])[1..] == queued[1..] + [b];
      PointersMore(queued[1..], b, alignment);
    }
  }

  class Queue {
    const pool: Pool
    const itemCount: nat
    var handle: seq<nat>             // the FreeRTOS queue, the oldest pointer first
    ghost var hands: set<nat>        // the blocks that clients hold
    ghost var queued: seq<nat>       // the blocks in the queue
    ghost var sent: seq<nat>         // every block ever enqueued, and every block ever dequeued
    ghost var received: seq<nat>

    ghost predicate Valid()
      reads this, pool, pool.mem
    {
      && pool.Valid()
      && OnePlace(pool.held, hands, queued)
      && |pool.free| + |hands| + |queued| == itemCount
      && handle == Pointers(queued, pool.alignment)
      && sent == received + queued
    }

    /** ZcqCreateQueue, with a pool that CreateMemoryPool has just made. */
    constructor (pool: Pool, itemCount: nat)
      requires pool.Valid() && pool.held == {} && |pool.free| == itemCount
      ensures Valid() && hands == {} && queued == [] && this.pool == pool && this.itemCount == itemCount
    {
      this.pool, this.itemCount := pool, itemCount;
      handle, hands, queued := [], {}, [];
      sent, received := [], [];
    }

    method ZcqAllocateItem() returns (item: nat)
      requires Valid()
      modifies this`hands, pool
      ensures Valid()
      ensures if old(pool.free) == [] then item == 0 && pool.free == [] && hands == old(hands)
              else item == old(pool.free)[0] + pool.alignment && pool.free == old(pool.free)[1..] &&
                   old(pool.free)[0] !in old(hands) && old(pool.free)[0] !in queued &&
                   hands == old(hands) + {old(pool.free)[0]}
      ensures forall b :: b in old(pool.held) ==> b in pool.View() && pool.View()[b] == old(pool.View())[b]
    {
      ghost var free, held := pool.free, pool.held;
      item := pool.MemoryPoolAllocate();
      if free != [] {
        Allocated(held, hands, queued, free[0]);
        hands := hands + {free[0]};
      }
    }

    method ZcqFreeItem(item: nat)
      requires Valid() && item >= pool.alignment && item - pool.alignment in hands
      modifies this`hands, pool, pool.mem
      ensures Valid() && hands == old(hands) - {item - pool.alignment}
      ensures pool.free == [item - pool.alignment] + old(pool.free)
      ensures pool.View() == old(pool.View()) - {item - pool.alignment}
    {
      ghost var b := item - pool.alignment;
      Freed(pool.held, hands, queued, b);
      pool.MemoryPoolFree(item);
      hands := hands - {b};
    }

    /** An item that a client holds always fits: the queue has room for every block there is. */
    method ZcqEnqueueItem(item: nat) returns (success: int)
      requires Valid() && item >= pool.alignment && item - pool.alignment in hands
      modifies this`hands, this`handle, this`queued, this`sent
      ensures Valid() && success == 1 && handle == old(handle) + [item]
      ensures queued == old(queued) + [item - pool.alignment] && hands == old(hands) - {item - pool.alignment}
      ensures sent == old(sent) + [item - pool.alignment]
    {
      ghost var b := item - pool.alignment;
      Sent(pool.held, hands, queued, b);
      PointersMore(queued, b, pool.alignment);
      if |handle| < itemCount {
        handle := handle + [item];
        success := 1;
      } else {
        success := 0;
      }
      hands, queued, sent := hands - {b}, queued + [b], sent + [b];
    }

    /** Items come out in the order in which they went in, with the bytes their sender left in them. */
    method ZcqDequeueItem() returns (item: nat)
      requires Valid()
      modifies this`hands, this`handle, this`queued, this`received
      ensures Valid()
      ensures if old(handle) == [] then item == 0 && handle == [] && hands == old(hands) && received == old(received)
              else item == old(handle)[0] && handle == old(handle)[1..] && item >= pool.alignment &&
                   queued == old(queued)[1..] && hands == old(hands) + {item - pool.alignment} &&
                   received == old(received) + [item - pool.alignment]
    {
      if handle == [] {
        return 0;
      }
      Received(pool.held, hands, queued);
      item := handle[0];
      handle := handle[1..];
      ghost var b := queued[0];
      assert received + queued == (received + [b]) + queued[1..];
      hands, queued, received := hands + {b}, queued[1..], received + [b];
    }

    /** Everything received was sent, in the same order. */
    lemma Fifo()
      requires Valid()
      ensures received <= sent && sent[|received|..] == queued
    {
    }
  }

  /** ZcqCreateQueue, when CreateMemoryPool's malloc returns `m`: null when xQueueCreate refuses the length, or when the
      alignment is bad.
    */
  method ZcqCreateQueue(mem: array<Byte>, itemSize: int, itemCount: int, alignment: int, m: nat)
    returns (zcq: Queue?)
    requires itemCount > 0 ==> Malloced(mem.Length, itemSize, itemCount, alignment, m)
    modifies mem
    ensures zcq != null <==> itemCount > 0 && ValidAlignment(Max(alignment, POINTER_SIZE))
    ensures zcq != null ==>
      && zcq.Valid() && zcq.itemCount == itemCount && zcq.hands == {} && zcq.handle == []
      && zcq.pool.mem == mem && zcq.pool.alignment == Max(alignment, POINTER_SIZE)
      && BlockSize(zcq.pool.itemSize, itemSize, zcq.pool.alignment)
      && zcq.pool.free == Carved(m + BUFFER_OFFSET, zcq.pool.itemSize, itemCount)
      && AlignedAs(zcq.pool.blocks, m + BUFFER_OFFSET, zcq.pool.alignment)
  {
    if itemCount <= 0 {
      return null;
    }
    var pool := CreateMemoryPool(mem, itemSize, itemCount, alignment, m);
    if pool == null {
      return null;
    }
    CarvedLength(m + BUFFER_OFFSET, pool.itemSize, itemCount);
    zcq := new Queue(pool, itemCount);
  }

  // ---------- Any use of the queue ----------

  datatype Use = Allocate | Free(block: nat) | Enqueue(block: nat) | Dequeue

  /** The queue as its clients see it: the pool's free blocks, the blocks in clients' hands and those in the queue. */
  datatype Places = Places(free: seq<nat>, hands: set<nat>, queued: seq<nat>)

  /** A use of something that nobody holds is no use of the queue, and is left out. */
  function Moved(p: Places, u: Use): Places {
    match u
    case Allocate => if p.free == [] then p else Places(p.free[1..], p.hands + {p.free[0]}, p.queued)
    case Free(b) => if b in p.hands then Places([b] + p.free, p.hands - {b}, p.queued) else p
    case Enqueue(b) => if b in p.hands then Places(p.free, p.hands - {b}, p.queued + [b]) else p
    case Dequeue => if p.queued == [] then p else Places(p.free, p.hands + {p.queued[0]}, p.queued[1..])
  }

  function AllMoved(p: Places, uses: seq<Use>): Places
    decreases |uses|
  {
    if uses == [] then p else AllMoved(Moved(p, uses[0]), uses[1..])
  }

  /** Over any sequence of uses each block is where it should be, in exactly one place, no call of ZcqEnqueueItem fails,
      and what was dequeued is a prefix of what was enqueued.
    */
  method Execute(zcq: Queue, uses: seq<Use>, before: Places) returns (after: Places, allSent: bool)
    requires zcq.Valid() && before == Places(zcq.pool.free, zcq.hands, zcq.queued)
    modifies zcq, zcq.pool, zcq.pool.mem
    ensures zcq.Valid() && allSent
    ensures after == AllMoved(before, uses) && after == Places(zcq.pool.free, zcq.hands, zcq.queued)
    ensures OnePlace(zcq.pool.held, after.hands, after.queued)
    ensures |after.free| + |after.hands| + |after.queued| == zcq.itemCount
    ensures zcq.received <= zcq.sent
  {
    after, allSent := before, true;
    var k := 0;
    while k < |uses|
      invariant k <= |uses| && zcq.Valid() && allSent
      invariant after == Places(zcq.pool.free, zcq.hands, zcq.queued)
      invariant AllMoved(after, uses[k..]) == AllMoved(before, uses)
    {
      match uses[k] {
        case Allocate =>
          var item := zcq.ZcqAllocateItem();
        case Free(b) =>
          if b in after.hands {
            zcq.ZcqFreeItem(b + zcq.pool.alignment);
          }
        case Enqueue(b) =>
          if b in after.hands {
            var success := zcq.ZcqEnqueueItem(b + zcq.pool.alignment);
            allSent := allSent && success == 1;
          }
        case Dequeue =>
          var item := zcq.ZcqDequeueItem();
      }
      after := Moved(after, uses[k]);
      k := k + 1;
    }
    zcq.Fifo();
  }
}
