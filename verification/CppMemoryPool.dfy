/** The C++ memory pool (cmem_pool.cpp): the addresses of the free blocks are in a list beside the memory, and are used
    first in, first out. An address is a number; 0 is NULL.
  */
module CppMemoryPool {
  import opened MemoryPool

  // ---------- Carving ----------

  /** The blocks cut from a region, the first one first. */
  ghost function Cut(address: nat, itemSize: nat, n: nat): seq<nat> {
    if n == 0 then [] else Cut(address, itemSize, n - 1) + [address + Span(n - 1, itemSize)]
  }

  lemma CutMore(rest: seq<nat>, address: nat, itemSize: nat, n: nat)
    ensures rest + Cut(address, itemSize, n) + [address + Span(n, itemSize)] == rest + Cut(address, itemSize, n + 1)
  {
  }

  lemma {:induction false} CutAt(address: nat, itemSize: nat, n: nat, k: nat)
    requires k < n
    ensures |Cut(address, itemSize, n)| == n && Cut(address, itemSize, n)[k] == address + Span(k, itemSize)
  {
    if n > 1 {
      CutAt(address, itemSize, n - 1, if k == n - 1 then 0 else k);
    }
  }

  /** The carved blocks lie inside the region, one after the other. */
  lemma CutLies(address: nat, itemSize: nat, n: nat, size: int, i: nat, j: nat)
    requires i < j < n && Fits(n, itemSize, size)
    ensures var c := Cut(address, itemSize, n);
      |c| == n && address <= c[i] && c[i] + itemSize <= c[j] && c[j] + itemSize <= address + size
  {
    CutAt(address, itemSize, n, i);
    CutAt(address, itemSize, n, j);
    SpanGrows(i + 1, j, itemSize);
    SpanGrows(j + 1, n, itemSize);
  }

  // ---------- The pool ----------

  ghost predicate Apart(blocks: set<nat>, itemSize: nat) {
    && 0 !in blocks
    && (forall b, c :: b in blocks && c in blocks && b != c ==> b + itemSize <= c || c + itemSize <= b)
  }

  lemma SharedAppend(blocks: set<nat>, free: seq<nat>, held: set<nat>, b: nat)
    requires Shared(blocks, {b}, free, held) && b in blocks && b !in free && b !in held
    ensures Shared(blocks, {}, free + [b], held)
  {
    assert forall c :: c in free + [b] <==> c == b || c in free;
  }

  class Pool {
    const itemSize: nat
    const alignment: nat
    var freeItems: seq<nat>
    ghost var blocks: set<nat>        // every block ever given to the pool
    ghost var held: set<nat>          // the blocks the clients hold
    ghost var entered: seq<nat>       // every block put on the list, by AddMemory or by Free
    ghost var taken: seq<nat>     // every block taken from it

    /** A pool without memory. */
    constructor (itemSize: nat, alignment: nat)
      requires itemSize > 0
      ensures Valid() && freeItems == entered == [] && held == {} && this.itemSize == itemSize
      ensures this.alignment == alignment && blocks == {}
    {
      this.itemSize, this.alignment, freeItems := itemSize, alignment, [];
      blocks, held, entered, taken := {}, {}, [], [];
    }

    /** Each block is free or held, and what has been taken from the list is what was put on it first. */
    ghost predicate Valid()
      reads this
    {
      && itemSize > 0 && Apart(blocks, itemSize) && Shared(blocks, {}, freeItems, held)
      && entered == taken + freeItems
    }

    method Allocate() returns (item: nat)
      requires Valid()
      modifies this`freeItems, this`held, this`taken
      ensures Valid()
      ensures if old(freeItems) == [] then item == 0 && freeItems == [] && held == old(held)
              else item == old(freeItems)[0] && freeItems == old(freeItems)[1..] &&
                   item != 0 && item !in old(held) && held == old(held) + {item}
    {
      if freeItems == [] {
        return 0;
      }
      SharedAllocate(blocks, freeItems, held);
      item := freeItems[0];
      assert freeItems == [item] + freeItems[1..];
      freeItems, held, taken := freeItems[1..], held + {item}, taken + [item];
    }

    method Free(item: nat)
      requires Valid() && item in held
      modifies this`freeItems, this`held, this`entered
      ensures Valid() && freeItems == old(freeItems) + [item] && held == old(held) - {item}
    {
      SharedFree(blocks, freeItems, held, item);
      held := held - {item};
      SharedAppend(blocks, freeItems, held, item);
      freeItems, entered := freeItems + [item], entered + [item];
    }

    /** The region [from, to) has no block of the pool in it. */
    ghost predicate Vacant(from: nat, to: int)
      reads this
    {
      0 < from && forall c :: c in blocks ==> c + itemSize <= from || to <= c
    }

    /** `n` blocks have been cut from the start of the region [address, end) and put behind `rest`. */
    ghost predicate Carving(address: nat, n: nat, end: int, rest: seq<nat>)
      reads this
    {
      Valid() && freeItems == rest + Cut(address, itemSize, n) && Vacant(address + Span(n, itemSize), end)
    }

    method AddBlock(b: nat, ghost address: nat, ghost n: nat, ghost end: int, ghost rest: seq<nat>)
      requires Carving(address, n, end, rest) && b == address + Span(n, itemSize) && b + itemSize <= end
      modifies this
      ensures Carving(address, n + 1, end, rest) && held == old(held)
    {
      SharedGrow(blocks, freeItems, held, b);
      CutMore(rest, address, itemSize, n);
      blocks := blocks + {b};
      SharedAppend(blocks, freeItems, held, b);
      freeItems, entered := freeItems + [b], entered + [b];
    }

    /** AddMemory, with the memory that malloc returned at `buffer`; the first constructor ends with the same loop. */
    method AddItems(buffer: nat, itemCount: int)
      requires Valid() && Vacant(buffer, buffer + Span(Max(itemCount, 0), itemSize))
      modifies this
      ensures Valid() && held == old(held)
      ensures freeItems == old(freeItems) + Cut(buffer, itemSize, Max(itemCount, 0))
    {
      ghost var end := buffer + Span(Max(itemCount, 0), itemSize);
      var address := buffer;
      var i := 0;
      while i < itemCount
        invariant i <= Max(itemCount, 0) && address == buffer + Span(i, itemSize)
        invariant Carving(buffer, i, end, old(freeItems)) && held == old(held)
      {
        SpanGrows(i + 1, itemCount, itemSize);
        AddBlock(address, buffer, i, end, old(freeItems));
        address := address + itemSize;
        i := i + 1;
      }
    }

    /** AddMemory over memory the caller provides, as many blocks as fit; the other constructor ends with the same
        loop.
      */
    method AddRegion(preallocatedMemory: nat, preallocatedMemorySize: int) returns (ghost n: nat)
      requires Valid() && Vacant(preallocatedMemory, preallocatedMemory + Max(preallocatedMemorySize, 0))
      modifies this
      ensures Valid() && held == old(held)
      ensures Fits(n, itemSize, preallocatedMemorySize)
      ensures freeItems == old(freeItems) + Cut(preallocatedMemory, itemSize, n)
    {
      ghost var end := preallocatedMemory + Max(preallocatedMemorySize, 0);
      var address, size := preallocatedMemory, preallocatedMemorySize;
      n := 0;
      while size >= itemSize
        invariant address == preallocatedMemory + Span(n, itemSize)
        invariant address + size == preallocatedMemory + preallocatedMemorySize && (n > 0 ==> size >= 0)
        invariant Carving(preallocatedMemory, n, end, old(freeItems)) && held == old(held)
        decreases size
      {
        AddBlock(address, preallocatedMemory, n, end, old(freeItems));
        address := address + itemSize;
        size := size - itemSize;
        n := n + 1;
      }
    }
  }

  /** The constructor over memory the caller provides; null stands for the exception about a bad alignment. */
  method CreateStatic(itemSize: int, preallocatedMemory: nat, preallocatedMemorySize: int, alignment: int)
    returns (pool: Pool?, ghost n: nat)
    requires preallocatedMemory > 0
    ensures pool != null <==> ValidAlignment(Max(alignment, POINTER_SIZE))
    ensures pool != null ==>
      && fresh(pool) && pool.Valid() && pool.alignment == Max(alignment, POINTER_SIZE)
      && BlockSizeCpp(pool.itemSize, itemSize, pool.alignment)
      && Fits(n, pool.itemSize, preallocatedMemorySize)
      && pool.held == {} && pool.freeItems == Cut(preallocatedMemory, pool.itemSize, n)
  {
    var a := CalculateAndVerifyAlignment(alignment);
    if a == 0 {
      return null, 0;
    }
    var size := CalculateItemSizeCpp(itemSize, a);
    pool := new Pool(size, a);
    n := pool.AddRegion(preallocatedMemory, preallocatedMemorySize);
  }

  // ---------- Any use of the pool ----------

  datatype Call = Allocate | Free(item: nat)

  /** The pool as its clients see it; freeing what is not held is no use of the pool, and is left out. */
  datatype Lists = Lists(free: seq<nat>, held: set<nat>)

  function ListsStep(s: Lists, call: Call): Lists {
    match call
    case Allocate => if s.free == [] then s else Lists(s.free[1..], s.held + {s.free[0]})
    case Free(item) => if item in s.held then Lists(s.free + [item], s.held - {item}) else s
  }

  function ListsRun(s: Lists, calls: seq<Call>): Lists
    decreases |calls|
  {
    if calls == [] then s else ListsRun(ListsStep(s, calls[0]), calls[1..])
  }

  /** Over any sequence of uses: blocks leave the list in the order in which they came to it, and no block is ever with
      two clients, or with a client and on the list.
    */
  method Execute(pool: Pool, calls: seq<Call>, s: Lists) returns (s': Lists)
    requires pool.Valid() && s == Lists(pool.freeItems, pool.held)
    modifies pool
    ensures s' == ListsRun(s, calls) && s' == Lists(pool.freeItems, pool.held) && pool.Valid()
    ensures pool.taken <= pool.entered && forall b :: b in s'.held ==> b !in s'.free
  {
    s' := s;
    var k := 0;
    while k < |calls|
      invariant k <= |calls| && pool.Valid() && s' == Lists(pool.freeItems, pool.held)
      invariant ListsRun(s', calls[k..]) == ListsRun(s, calls)
    {
      match calls[k] {
        case Allocate =>
          var item := pool.Allocate();
        case Free(item) =>
          if item in s'.held {
            pool.Free(item);
          }
      }
      s' := ListsStep(s', calls[k]);
      k := k + 1;
    }
  }
}
