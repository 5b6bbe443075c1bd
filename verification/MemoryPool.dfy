/** The C memory pool (mem_pool.c): blocks of one size, whose free list is kept inside the free blocks themselves.

    Memory is one array of bytes, and an address is an index into it; address 0 is NULL. A pointer takes four bytes, the
    least significant first, as on the ESP32. Of a block at address `b`, the first `alignment` bytes are the pool's and
    hold the link while the block is free; the rest is the client's, from `b + alignment` on.
  */
module MemoryPool {
  import opened Bytes

  const POINTER_SIZE := 4
  const ADDRESSES := 0x1_0000_0000

  // ---------- Pointers in memory ----------

  function PointerAt(m: seq<Byte>, a: nat): nat
    requires a + POINTER_SIZE <= |m|
  {
    m[a] as nat + 256 * (m[a + 1] as nat + 256 * (m[a + 2] as nat + 256 * m[a + 3] as nat))
  }

  /** Outside the `size` bytes at `a` the two memories are the same. */
  ghost predicate SameOutside(m: seq<Byte>, m': seq<Byte>, a: nat, size: nat) {
    |m| == |m'| && forall i :: 0 <= i < |m| && !(a <= i < a + size) ==> m[i] == m'[i]
  }

  method StorePointer(mem: array<Byte>, a: nat, p: nat)
    requires a + POINTER_SIZE <= mem.Length && p < ADDRESSES
    modifies mem
    ensures PointerAt(mem[..], a) == p && SameOutside(old(mem[..]), mem[..], a, POINTER_SIZE)
  {
    mem[a] := (p % 256) as Byte;
    mem[a + 1] := (p / 256 % 256) as Byte;
    mem[a + 2] := (p / 256 / 256 % 256) as Byte;
    mem[a + 3] := (p / 256 / 256 / 256) as Byte;
  }

  // ---------- The free list ----------

  ghost predicate LinkAt(m: seq<Byte>, a: nat, p: nat) {
    a + POINTER_SIZE <= |m| && PointerAt(m, a) == p
  }

  /** The links inside the free blocks, from the head of the stack to NULL. */
  ghost predicate Chain(m: seq<Byte>, head: nat, free: seq<nat>) {
    var f := free + [0];
    head == f[0] && forall k :: 0 <= k < |free| ==> LinkAt(m, f[k], f[k + 1])
  }

  /** Blocks lie inside memory, do not overlap, and have room for a link and a byte of the client's. */
  ghost predicate Laid(blocks: set<nat>, alignment: nat, itemSize: nat, limit: nat) {
    && POINTER_SIZE <= alignment < itemSize && limit <= ADDRESSES
    && (forall b :: b in blocks ==> 0 < b && b + itemSize <= limit)
    && (forall b, c :: b in blocks && c in blocks && b != c ==> b + itemSize <= c || c + itemSize <= b)
  }

  /** Every block, except those of `but`, is either free or held by a client. */
  ghost predicate Shared(blocks: set<nat>, but: set<nat>, free: seq<nat>, held: set<nat>) {
    && (forall i, j :: 0 <= i < j < |free| ==> free[i] != free[j])
    && (forall i :: 0 <= i < |free| ==> free[i] in blocks && free[i] !in held)
    && held <= blocks
    && (forall b :: b in blocks && b !in but ==> b in free || b in held)
  }

  /** Bytes written outside the links of the free blocks leave the free list as it is. */
  lemma ChainKept(m: seq<Byte>, m': seq<Byte>, head: nat, free: seq<nat>, a: nat, size: nat)
    requires Chain(m, head, free) && SameOutside(m, m', a, size)
    requires forall k :: 0 <= k < |free| ==> a + size <= free[k] || free[k] + POINTER_SIZE <= a
    ensures Chain(m', head, free)
  {
    var f := free + [0];
    forall k | 0 <= k < |free| ensures LinkAt(m', f[k], f[k + 1]) {
      assert LinkAt(m, f[k], f[k + 1]) && f[k] == free[k];
    }
  }

  lemma ChainPushed(m: seq<Byte>, head: nat, free: seq<nat>, b: nat)
    requires Chain(m, head, free) && LinkAt(m, b, head)
    ensures Chain(m, b, [b] + free)
  {
    var f, g := free + [0], [b] + free + [0];
    assert g == [b] + f;
    forall k | 0 <= k < |free| + 1 ensures LinkAt(m, g[k], g[k + 1]) {
      if k > 0 {
        assert LinkAt(m, f[k - 1], f[k]);
      }
    }
  }

  lemma ChainPopped(m: seq<Byte>, head: nat, free: seq<nat>)
    requires Chain(m, head, free) && free != []
    ensures head == free[0] && head + POINTER_SIZE <= |m| && Chain(m, PointerAt(m, head), free[1..])
  {
    var f, g := free + [0], free[1..] + [0];
    assert g == f[1..];
    assert LinkAt(m, f[0], f[1]);
    forall k | 0 <= k < |free| - 1 ensures LinkAt(m, g[k], g[k + 1]) {
      assert LinkAt(m, f[k + 1], f[k + 2]);
    }
  }

  function Slice(m: seq<Byte>, from: nat, to: nat): seq<Byte> {
    if from <= to <= |m| then m[from..to] else []
  }

  /** What the clients see: of each block they hold, the bytes from `from` to `to`. */
  ghost function Contents(m: seq<Byte>, held: set<nat>, from: nat, to: nat): map<nat, seq<Byte>>
  {
    map b | b in held :: Slice(m, b + from, b + to)
  }

  lemma ContentsKept(m: seq<Byte>, m': seq<Byte>, held: set<nat>, from: nat, to: nat, a: nat, n: nat)
    requires SameOutside(m, m', a, n) && from <= to
    requires forall b :: b in held ==> b + to <= |m| && (a + n <= b + from || b + to <= a)
    ensures Contents(m', held, from, to) == Contents(m, held, from, to)
  {
    forall b | b in held ensures m[b + from..b + to] == m'[b + from..b + to] {
    }
  }

  /** A byte written into the part of block `b` that its client sees changes that byte, and nothing else that is seen.
    */
  lemma ContentsWritten(m: seq<Byte>, held: set<nat>, from: nat, to: nat, b: nat, i: nat, v: Byte)
    requires b in held && from + i < to
    requires forall c :: c in held ==> c + to <= |m| && (c == b || c + to <= b + from || b + to <= c + from)
    ensures var seen := Contents(m, held, from, to);
      i < |seen[b]| && Contents(m[b + from + i := v], held, from, to) == seen[b := seen[b][i := v]]
  {
    var m' := m[b + from + i := v];
    assert m'[b + from..b + to] == m[b + from..b + to][i := v];
    forall c | c in held && c != b ensures m'[c + from..c + to] == m[c + from..c + to] {
    }
  }

  // ---------- Who has which block ----------

  lemma SharedPush(blocks: set<nat>, free: seq<nat>, held: set<nat>, b: nat)
    requires Shared(blocks, {b}, free, held) && b in blocks && b !in free && b !in held
    ensures Shared(blocks, {}, [b] + free, held)
  {
    var f := [b] + free;
    assert forall c :: c in f <==> c == b || c in free;
  }

  lemma SharedAllocate(blocks: set<nat>, free: seq<nat>, held: set<nat>)
    requires Shared(blocks, {}, free, held) && free != []
    ensures free[0] in blocks && free[0] !in held && Shared(blocks, {}, free[1..], held + {free[0]})
  {
    assert free == [free[0]] + free[1..];
    assert forall c :: c in free <==> c == free[0] || c in free[1..];
  }

  lemma SharedFree(blocks: set<nat>, free: seq<nat>, held: set<nat>, b: nat)
    requires Shared(blocks, {}, free, held) && b in held
    ensures b in blocks && b !in free && Shared(blocks, {b}, free, held - {b})
  {
  }

  // ---------- Sizes ----------

  lemma Successor(a: nat, c: nat)
    ensures (a + 1) * c == a * c + c
  {
  }

  lemma Associative(a: nat, b: nat, c: nat)
    ensures a * (b * c) == (a * b) * c
  {
  }

  lemma Monotone(a: nat, b: nat, c: nat)
    requires a <= b
    ensures a * c <= b * c
  {
  }

  function Max(a: int, b: int): int { if a < b then b else a }

  /** The bytes that `n` blocks, or `n` alignment units, take. */
  function Span(n: nat, itemSize: nat): nat {
    if n == 0 then 0 else Span(n - 1, itemSize) + itemSize
  }

  lemma {:induction false} SpanIsProduct(n: nat, itemSize: nat)
    ensures Span(n, itemSize) == n * itemSize
  {
    if n > 0 {
      SpanIsProduct(n - 1, itemSize);
      Successor(n - 1, itemSize);
    }
  }

  /** `n` blocks fit into a region, and no more. */
  ghost predicate Fits(n: nat, itemSize: nat, size: int) {
    Span(n, itemSize) <= Max(size, 0) < Span(n, itemSize) + itemSize
  }

  lemma {:induction false} SpanGrows(m: nat, n: nat, itemSize: nat)
    requires m <= n
    ensures Span(m, itemSize) <= Span(n, itemSize)
  {
    if m < n {
      SpanGrows(m, n - 1, itemSize);
    }
  }

  lemma Quotient(m: nat, d: nat)
    requires d > 0
    ensures m / d * d <= m < m / d * d + d && m % d == m - m / d * d
  {
  }

  lemma FitsIsQuotient(n: nat, itemSize: nat, size: int)
    requires itemSize > 0
    ensures Fits(n, itemSize, size) <==> n == Max(size, 0) / itemSize
  {
    var q := Max(size, 0) / itemSize;
    Quotient(Max(size, 0), itemSize);
    SpanIsProduct(q, itemSize);
    assert Fits(q, itemSize, size);
    if n < q {
      SpanGrows(n + 1, q, itemSize);
    } else if n > q {
      SpanGrows(q + 1, n, itemSize);
    }
  }

  ghost predicate ValidAlignment(a: int) {
    exists e :: 0 <= e < 31 && a == Power2(e)
  }

  /** `k` is the least number of alignment units that hold an item; a request that is not positive counts as one byte.
    */
  ghost predicate LeastUnits(k: nat, itemSize: int, alignment: nat) {
    k >= 1 && Span(k - 1, alignment) < Max(itemSize, 1) <= Span(k, alignment)
  }

  lemma LeastUnitsUnique(k: nat, l: nat, itemSize: int, alignment: nat)
    requires LeastUnits(k, itemSize, alignment) && LeastUnits(l, itemSize, alignment)
    ensures k == l
  {
    if k < l {
      SpanGrows(k, l - 1, alignment);
    } else if l < k {
      SpanGrows(l, k - 1, alignment);
    }
  }

  lemma RoundsUp(itemSize: int, alignment: nat)
    requires itemSize > alignment > 0
    ensures LeastUnits(itemSize / alignment + if itemSize % alignment != 0 then 1 else 0, itemSize, alignment)
  {
    var q := itemSize / alignment;
    Quotient(itemSize, alignment);
    SpanIsProduct(q, alignment);
  }

  /** The least number of alignment units that hold the item, and one more for the pool. */
  ghost predicate BlockSize(r: int, itemSize: int, alignment: nat) {
    exists k: nat :: LeastUnits(k, itemSize, alignment) && r == Span(k + 1, alignment)
  }

  /** Returns the alignment raised to the size of a pointer if that is a power of two below 2^31, and 0 otherwise. */
  method CalculateAndVerifyAlignment(alignment: int) returns (r: int)
    ensures r == Max(alignment, POINTER_SIZE) || r == 0
    ensures r != 0 <==> ValidAlignment(Max(alignment, POINTER_SIZE))
  {
    var a := alignment;
    if a < POINTER_SIZE {
      a := POINTER_SIZE;
    }
    var alignmentBit := 1;
    var i := 0;
    while i < 31
      invariant 0 <= i <= 31 && alignmentBit == Power2(i)
      invariant forall e :: 0 <= e < i ==> a != Power2(e)
    {
      if a == alignmentBit {
        break;
      }
      alignmentBit := alignmentBit * 2;
      i := i + 1;
    }
    return if i >= 31 then 0 else a;
  }

  method CalculateItemSize(itemSize: int, alignment: int) returns (r: int)
    requires alignment > 0
    ensures BlockSize(r, itemSize, alignment)
  {
    ghost var k := 1;
    if itemSize <= alignment {
      r := 2 * alignment;
    } else {
      RoundsUp(itemSize, alignment);
      var alignmentCount := itemSize / alignment;
      if itemSize % alignment != 0 {
        alignmentCount := alignmentCount + 1;
      }
      r := (alignmentCount + 1) * alignment;
      k := alignmentCount;
    }
    SpanIsProduct(k + 1, alignment);
    assert LeastUnits(k, itemSize, alignment) && r == Span(k + 1, alignment);
  }

  /** The least number of alignment units that hold the item alone. */
  ghost predicate BlockSizeCpp(r: int, itemSize: int, alignment: nat) {
    exists k: nat :: LeastUnits(k, itemSize, alignment) && r == Span(k, alignment)
  }

  /** The C++ pool keeps its free list outside the blocks, so its blocks hold the item alone. */
  method CalculateItemSizeCpp(itemSize: int, alignment: int) returns (r: int)
    requires alignment > 0
    ensures BlockSizeCpp(r, itemSize, alignment)
  {
    ghost var k := 1;
    if itemSize <= alignment {
      r := alignment;
    } else {
      RoundsUp(itemSize, alignment);
      var alignmentCount := itemSize / alignment;
      if itemSize % alignment != 0 {
        alignmentCount := alignmentCount + 1;
      }
      r := alignmentCount * alignment;
      k := alignmentCount;
    }
    SpanIsProduct(k, alignment);
    assert LeastUnits(k, itemSize, alignment) && r == Span(k, alignment);
  }

  /** A block of the C pool is one alignment unit bigger than one of the C++ pool. */
  lemma CItemHasOneUnitMore(c: int, cpp: int, itemSize: int, alignment: nat)
    requires BlockSize(c, itemSize, alignment) && BlockSizeCpp(cpp, itemSize, alignment)
    ensures c == cpp + alignment
  {
    var k: nat :| LeastUnits(k, itemSize, alignment) && c == Span(k + 1, alignment);
    var l: nat :| LeastUnits(l, itemSize, alignment) && cpp == Span(l, alignment);
    LeastUnitsUnique(k, l, itemSize, alignment);
  }

  lemma SharedGrow(blocks: set<nat>, free: seq<nat>, held: set<nat>, b: nat)
    requires Shared(blocks, {}, free, held) && b !in blocks
    ensures b !in free && b !in held && Shared(blocks + {b}, {b}, free, held)
  {
  }

  // ---------- Carving ----------

  /** The blocks cut from a region, the last one first: that is how a stack gets them. */
  function Carved(ptr: nat, itemSize: nat, n: nat): seq<nat> {
    if n == 0 then [] else [ptr + Span(n - 1, itemSize)] + Carved(ptr, itemSize, n - 1)
  }

  lemma CarvedMore(ptr: nat, itemSize: nat, n: nat, rest: seq<nat>)
    ensures [ptr + Span(n, itemSize)] + (Carved(ptr, itemSize, n) + rest) == Carved(ptr, itemSize, n + 1) + rest
  {
  }

  lemma {:induction false} CarvedAt(ptr: nat, itemSize: nat, n: nat, k: nat)
    requires k < n
    ensures |Carved(ptr, itemSize, n)| == n && Carved(ptr, itemSize, n)[k] == ptr + Span(n - 1 - k, itemSize)
  {
    if n > 1 {
      CarvedAt(ptr, itemSize, n - 1, if k == 0 then 0 else k - 1);
    }
  }

  lemma {:induction false} CarvedLength(ptr: nat, itemSize: nat, n: nat)
    ensures |Carved(ptr, itemSize, n)| == n
  {
    if n > 0 {
      CarvedLength(ptr, itemSize, n - 1);
    }
  }

  /** The carved blocks lie inside the region, one after the other. */
  lemma CarvedLies(ptr: nat, itemSize: nat, n: nat, size: int, i: nat, j: nat)
    requires i < j < n && Fits(n, itemSize, size)
    ensures var c := Carved(ptr, itemSize, n);
      |c| == n && ptr <= c[j] && c[j] + itemSize <= c[i] && c[i] + itemSize <= ptr + size
  {
    CarvedAt(ptr, itemSize, n, i);
    CarvedAt(ptr, itemSize, n, j);
    SpanGrows(n - 1 - j + 1, n - 1 - i, itemSize);
    SpanGrows(n - 1 - i + 1, n, itemSize);
  }

  /** Each starts a multiple of the alignment after the start of the region, as a block is a multiple of it. */
  lemma CarvedAligned(ptr: nat, units: nat, alignment: nat, n: nat, i: nat)
    requires i < n
    ensures |Carved(ptr, Span(units, alignment), n)| == n
    ensures Carved(ptr, Span(units, alignment), n)[i] == ptr + ((n - 1 - i) * units) * alignment
  {
    CarvedAt(ptr, Span(units, alignment), n, i);
    SpanIsProduct(units, alignment);
    SpanIsProduct(n - 1 - i, Span(units, alignment));
    Associative(n - 1 - i, units, alignment);
  }

  lemma OneMore(x: nat, d: nat)
    requires d > 0
    ensures (x + d) % d == x % d
  {
    var q, p := x / d, (x + d) / d;
    Quotient(x, d);
    Quotient(x + d, d);
    Successor(q, d);
    if p < q + 1 {
      Monotone(p, q, d);
    } else if p > q + 1 {
      Successor(q + 1, d);
      Monotone(q + 2, p, d);
    }
  }

  // ---------- Address boundaries ----------

  predicate Aligned(a: nat, d: nat) { d > 0 && a % d == 0 }

  lemma {:induction false} SpanAligned(a: nat, n: nat, d: nat)
    requires d > 0
    ensures Aligned(a + Span(n, d), d) <==> Aligned(a, d)
  {
    if n > 0 {
      OneMore(a + Span(n - 1, d), d);
      SpanAligned(a, n - 1, d);
    }
  }

  lemma {:induction false} SpansAligned(a: nat, n: nat, units: nat, d: nat)
    requires d > 0
    ensures Aligned(a + Span(n, Span(units, d)), d) <==> Aligned(a, d)
  {
    if n > 0 {
      SpanAligned(a + Span(n - 1, Span(units, d)), units, d);
      SpansAligned(a, n - 1, units, d);
    }
  }

  /** The item in a block, one alignment unit after its start, lies on an address boundary if and only if the region
      starts on one.
    */
  lemma AlignedIff(ptr: nat, units: nat, alignment: nat, n: nat, i: nat)
    requires i < n && alignment > 0
    ensures |Carved(ptr, Span(units, alignment), n)| == n
    ensures Aligned(Carved(ptr, Span(units, alignment), n)[i] + alignment, alignment) <==> Aligned(ptr, alignment)
  {
    CarvedAt(ptr, Span(units, alignment), n, i);
    SpansAligned(ptr, n - 1 - i, units, alignment);
    OneMore(Carved(ptr, Span(units, alignment), n)[i], alignment);
  }

  /** The items in the blocks lie on address boundaries if and only if `base` does. */
  ghost predicate AlignedAs(blocks: set<nat>, base: nat, alignment: nat) {
    forall b :: b in blocks ==> (Aligned(b + alignment, alignment) <==> Aligned(base, alignment))
  }

  lemma CarvedAlignedAs(blocks: set<nat>, ptr: nat, itemSize: nat, request: int, alignment: nat, n: nat)
    requires alignment > 0 && BlockSize(itemSize, request, alignment)
    requires forall b :: b in blocks ==> b in Carved(ptr, itemSize, n)
    ensures AlignedAs(blocks, ptr, alignment)
  {
    var k: nat :| LeastUnits(k, request, alignment) && itemSize == Span(k + 1, alignment);
    forall b | b in blocks ensures Aligned(b + alignment, alignment) <==> Aligned(ptr, alignment) {
      CarvedLength(ptr, itemSize, n);
      var i :| 0 <= i < n && Carved(ptr, itemSize, n)[i] == b;
      AlignedIff(ptr, k + 1, alignment, n, i);
    }
  }

  /** What CreateMemoryPool asks of malloc beside the blocks, sizeof(MemPool_t) less the byte in Buffer[1], and where in
      that struct Buffer is: behind Lock, Stack, ItemSize and Alignment.
    */
  const HEADER_SIZE := 23
  const BUFFER_OFFSET := 20

  lemma {:induction false} SumAligned(a: nat, b: nat, d: nat)
    requires Aligned(a, d)
    ensures Aligned(a + b, d) <==> Aligned(b, d)
    decreases a
  {
    if a >= d {
      OneMore(a - d, d);
      OneMore(a - d + b, d);
      SumAligned(a - d, b, d);
    } else {
      Quotient(a, d);
      SmallQuotient(a, d);
    }
  }

  lemma SmallQuotient(a: nat, d: nat)
    requires a < d
    ensures a % d == a
  {
  }

  /** A malloc that suits the alignment gives aligned items if and only if the alignment divides the offset of Buffer.
    */
  lemma SuitableMallocIff(m: nat, alignment: nat)
    requires Aligned(m, alignment)
    ensures Aligned(m + BUFFER_OFFSET, alignment) <==> Aligned(BUFFER_OFFSET, alignment)
  {
    SumAligned(m, BUFFER_OFFSET, alignment);
  }

  lemma {:induction false} MultiplesOfEight(e: nat)
    requires e >= 3
    ensures Power2(e) > 0 && Aligned(Power2(e), 8)
  {
    if e == 3 {
      assert Power2(3) == 8;
    } else {
      MultiplesOfEight(e - 1);
    }
  }

  lemma {:induction false} AlignedToMultiple(x: nat, d: nat, e: nat)
    requires Aligned(x, d) && Aligned(d, e)
    ensures Aligned(x, e)
    decreases x
  {
    if x >= d {
      OneMore(x - d, d);
      AlignedToMultiple(x - d, d, e);
      SumAligned(d, x - d, e);
    } else {
      SmallQuotient(x, d);
    }
  }

  lemma OffByFour(m: nat)
    requires Aligned(m, 8)
    ensures Aligned(m + BUFFER_OFFSET, 4) && !Aligned(m + BUFFER_OFFSET, 8)
  {
    AlignedToMultiple(m, 8, 4);
    SumAligned(m, BUFFER_OFFSET, 4);
    SumAligned(m, BUFFER_OFFSET, 8);
  }

  lemma CoarserThanPointer(e: nat)
    requires Power2(e) > 4
    ensures e >= 3
  {
    assert Power2(2) == 4;
  }

  /** With a malloc that returns addresses on eight-byte boundaries, the items of a pool lie on the boundaries that were
      asked for if and only if those are no coarser than a pointer.
    */
  lemma PromiseKeptIff(m: nat, alignment: int)
    requires Aligned(m, 8) && ValidAlignment(Max(alignment, POINTER_SIZE))
    ensures Aligned(m + BUFFER_OFFSET, Max(alignment, POINTER_SIZE)) <==> alignment <= POINTER_SIZE
  {
    OffByFour(m);
    if alignment > POINTER_SIZE {
      var e :| 0 <= e < 31 && alignment == Power2(e);
      CoarserThanPointer(e);
      MultiplesOfEight(e);
      if Aligned(m + BUFFER_OFFSET, alignment) {
        AlignedToMultiple(m + BUFFER_OFFSET, alignment, 8);
      }
    }
  }

  // ---------- The pool ----------

  class Pool {
    const mem: array<Byte>
    const itemSize: nat
    const alignment: nat
    var count: int                 // Stack.Count
    var head: nat                  // Stack.Head.Next
    ghost var blocks: set<nat>     // every block ever given to the pool
    ghost var free: seq<nat>       // the blocks on the free list, the next to be allocated first
    ghost var held: set<nat>       // the blocks the clients hold

    /** A pool without memory. */
    constructor (mem: array<Byte>, itemSize: nat, alignment: nat)
      requires POINTER_SIZE <= alignment < itemSize && mem.Length <= ADDRESSES
      ensures Valid() && free == [] && blocks == {} && held == {}
      ensures this.mem == mem && this.itemSize == itemSize && this.alignment == alignment
    {
      this.mem, this.itemSize, this.alignment := mem, itemSize, alignment;
      count, head := 0, 0;
      blocks, free, held := {}, [], {};
    }

    ghost predicate ValidBut(but: set<nat>)
      reads this, mem
    {
      && Laid(blocks, alignment, itemSize, mem.Length)
      && Shared(blocks, but, free, held)
      && count == |free|
      && Chain(mem[..], head, free)
    }

    ghost predicate Valid()
      reads this, mem
    {
      ValidBut({})
    }

    ghost function View(): map<nat, seq<Byte>>
      reads this, mem
    {
      Contents(mem[..], held, alignment, itemSize)
    }

    lemma ViewSize(b: nat)
      requires Valid() && b in held
      ensures b in View() && |View()[b]| == itemSize - alignment
    {
    }

    /** PushOnStack of the node inside block `b`. */
    method Push(b: nat)
      requires ValidBut({b}) && b in blocks && b !in free && b !in held
      modifies this`count, this`head, this`free, mem
      ensures Valid() && free == [b] + old(free)
      ensures View() == old(View())
    {
      SharedPush(blocks, free, held, b);
      HeadFits();
      StorePointer(mem, b, head);
      ghost var m, m' := old(mem[..]), mem[..];
      ChainKept(m, m', head, free, b, POINTER_SIZE);
      ChainPushed(m', head, free, b);
      ContentsKept(m, m', held, alignment, itemSize, b, POINTER_SIZE);
      head := b;
      count := count + 1;
      free := [b] + free;
    }

    lemma HeadFits()
      requires Chain(mem[..], head, free) && Laid(blocks, alignment, itemSize, mem.Length)
      requires forall i :: 0 <= i < |free| ==> free[i] in blocks
      ensures head < ADDRESSES
    {
      if free != [] {
        assert head == free[0] && free[0] in blocks;
      }
    }

    method MemoryPoolAllocate() returns (p: nat)
      requires Valid()
      modifies this
      ensures Valid() && blocks == old(blocks)
      ensures forall b :: b in old(held) ==> b in View() && View()[b] == old(View())[b]
      ensures if old(free) == [] then p == 0 && free == [] && held == old(held)
              else p == old(free)[0] + alignment && free == old(free)[1..] &&
                   old(free)[0] !in old(held) && held == old(held) + {old(free)[0]}
    {
      if count == 0 {
        return 0;
      }
      ChainPopped(mem[..], head, free);
      SharedAllocate(blocks, free, held);
      var node := head;
      head := PointerAt(mem[..], node);
      count := count - 1;
      p := node + alignment;
      free := free[1..];
      held := held + {node};
    }

    method MemoryPoolFree(p: nat)
      requires Valid() && p >= alignment && p - alignment in held
      modifies this, mem
      ensures Valid() && blocks == old(blocks)
      ensures free == [p - alignment] + old(free) && held == old(held) - {p - alignment}
      ensures View() == old(View()) - {p - alignment}
    {
      var node := p - alignment;
      SharedFree(blocks, free, held, node);
      held := held - {node};
      assert View() == old(View()) - {node};
      Push(node);
    }

    /** A client writes a byte of an item it holds. */
    method ClientWrite(p: nat, i: nat, v: Byte)
      requires Valid() && p >= alignment && p - alignment in held && i < itemSize - alignment
      modifies mem
      ensures Valid()
      ensures View() == old(View())[p - alignment := old(View())[p - alignment][i := v]]
    {
      ContentsWritten(mem[..], held, alignment, itemSize, p - alignment, i, v);
      mem[p + i] := v;
      ChainKept(old(mem[..]), mem[..], head, free, p + i, 1);
      assert mem[..] == old(mem[..])[p + i := v];
    }

    /** The region [from, to) is inside memory and has no block of the pool in it. */
    ghost predicate Vacant(from: nat, to: int)
      reads this
    {
      && 0 < from && to <= mem.Length
      && (forall c :: c in blocks ==> c + itemSize <= from || to <= c)
    }

    /** `n` blocks have been cut from the start of the region [base, end) and pushed on a free list `rest`. */
    ghost predicate Carving(base: nat, n: nat, end: int, rest: seq<nat>)
      reads this, mem
    {
      Valid() && free == Carved(base, itemSize, n) + rest && Vacant(base + Span(n, itemSize), end)
    }

    method AddBlock(b: nat, ghost base: nat, ghost n: nat, ghost end: int, ghost rest: seq<nat>)
      requires Carving(base, n, end, rest) && b == base + Span(n, itemSize) && b + itemSize <= end
      modifies this, mem
      ensures Carving(base, n + 1, end, rest) && View() == old(View()) && held == old(held)
    {
      SharedGrow(blocks, free, held, b);
      CarvedMore(base, itemSize, n, rest);
      blocks := blocks + {b};
      Push(b);
    }

    /** The loop of CreateMemoryPool and AddExtraMemoryToPool over `itemCount` blocks of new memory. */
    method AddItems(buffer: nat, itemCount: int)
      requires Valid() && Vacant(buffer, buffer + Span(Max(itemCount, 0), itemSize))
      modifies this, mem
      ensures Valid() && View() == old(View()) && held == old(held)
      ensures free == Carved(buffer, itemSize, Max(itemCount, 0)) + old(free)
    {
      ghost var end := buffer + Span(Max(itemCount, 0), itemSize);
      var ptr := buffer;
      var i := 0;
      assert Carved(buffer, itemSize, 0) + free == free;
      while i < itemCount
        invariant i <= Max(itemCount, 0) && ptr == buffer + Span(i, itemSize)
        invariant Carving(buffer, i, end, old(free)) && View() == old(View()) && held == old(held)
      {
        SpanGrows(i + 1, itemCount, itemSize);
        AddBlock(ptr, buffer, i, end, old(free));
        ptr := ptr + itemSize;
        i := i + 1;
      }
    }

    /** The loop of CreateMemoryPoolStatic over the memory the caller provides: as many blocks as fit. */
    method AddRegion(preallocatedMemory: nat, preallocatedMemorySize: int) returns (ghost n: nat)
      requires Valid() && Vacant(preallocatedMemory, preallocatedMemory + Max(preallocatedMemorySize, 0))
      modifies this, mem
      ensures Valid() && View() == old(View()) && held == old(held)
      ensures Fits(n, itemSize, preallocatedMemorySize)
      ensures free == Carved(preallocatedMemory, itemSize, n) + old(free)
    {
      ghost var end := preallocatedMemory + Max(preallocatedMemorySize, 0);
      var ptr, size := preallocatedMemory, preallocatedMemorySize;
      n := 0;
      assert Carved(preallocatedMemory, itemSize, 0) + free == free;
      while size >= itemSize
        invariant ptr == preallocatedMemory + Span(n, itemSize)
        invariant ptr + size == preallocatedMemory + preallocatedMemorySize && (n > 0 ==> size >= 0)
        invariant Carving(preallocatedMemory, n, end, old(free)) && View() == old(View()) && held == old(held)
        decreases size
      {
        AddBlock(ptr, preallocatedMemory, n, end, old(free));
        ptr := ptr + itemSize;
        size := size - itemSize;
        n := n + 1;
      }
    }

    /** AddExtraMemoryToPoolStatic, up to the push that leaves the region: if the region is smaller than a block it ends
        and adds nothing; otherwise it pushes the blocks that fit, its guard still holds, and the next block that it
        pushes, at `next`, is not inside the region.
      */
    method AddExtraMemoryToPoolStatic(preallocatedMemory: nat, preallocatedMemorySize: int)
      returns (ends: bool, next: nat, ghost n: nat)
      requires Valid() && Vacant(preallocatedMemory, preallocatedMemory + Max(preallocatedMemorySize, 0))
      modifies this, mem
      ensures Valid() && View() == old(View()) && held == old(held)
      ensures ends <==> preallocatedMemorySize < itemSize
      ensures Fits(n, itemSize, preallocatedMemorySize) && free == Carved(preallocatedMemory, itemSize, n) + old(free)
      ensures next == preallocatedMemory + Span(n, itemSize)
      ensures !ends ==> next <= preallocatedMemory + preallocatedMemorySize < next + itemSize
    {
      ghost var end := preallocatedMemory + Max(preallocatedMemorySize, 0);
      next, n := preallocatedMemory, 0;
      assert Carved(preallocatedMemory, itemSize, 0) + free == free;
      while preallocatedMemorySize >= itemSize && next + itemSize <= preallocatedMemory + preallocatedMemorySize
        invariant next == preallocatedMemory + Span(n, itemSize) <= end
        invariant Carving(preallocatedMemory, n, end, old(free)) && View() == old(View()) && held == old(held)
        decreases end - next
      {
        AddBlock(next, preallocatedMemory, n, end, old(free));
        next := next + itemSize;
        n := n + 1;
      }
      ends := preallocatedMemorySize < itemSize;
    }
  }

  /** CreateMemoryPoolStatic: null when the alignment is bad, and otherwise a pool over the memory the caller gives. */
  method CreateMemoryPoolStatic(mem: array<Byte>, itemSize: int, preallocatedMemory: nat, preallocatedMemorySize: int,
                                alignment: int)
    returns (pool: Pool?, ghost n: nat)
    requires mem.Length <= ADDRESSES && preallocatedMemory > 0
    requires preallocatedMemory + Max(preallocatedMemorySize, 0) <= mem.Length
    modifies mem
    ensures pool != null <==> ValidAlignment(Max(alignment, POINTER_SIZE))
    ensures pool != null ==>
      && fresh(pool) && pool.mem == mem && pool.alignment == Max(alignment, POINTER_SIZE)
      && BlockSize(pool.itemSize, itemSize, pool.alignment)
      && pool.Valid() && pool.held == {} && pool.free == Carved(preallocatedMemory, pool.itemSize, n)
      && Fits(n, pool.itemSize, preallocatedMemorySize)
  {
    var a := CalculateAndVerifyAlignment(alignment);
    if a == 0 {
      n := 0;
      return null, 0;
    }
    var size := CalculateItemSize(itemSize, a);
    pool := new Pool(mem, size, a);
    n := pool.AddRegion(preallocatedMemory, preallocatedMemorySize);
  }

  /** Memory at `m` for the struct and `itemCount` blocks, if there are to be any. */
  ghost predicate Malloced(limit: nat, itemSize: int, itemCount: int, alignment: int, m: nat) {
    && 0 < m && limit <= ADDRESSES
    && (ValidAlignment(Max(alignment, POINTER_SIZE)) ==>
          forall size: nat :: BlockSize(size, itemSize, Max(alignment, POINTER_SIZE)) ==>
            m + HEADER_SIZE + Span(Max(itemCount, 0), size) <= limit)
  }

  /** CreateMemoryPool, when malloc returns `m`: null when the alignment is bad, and otherwise a pool over the Buffer
      inside the struct.
    */
  method CreateMemoryPool(mem: array<Byte>, itemSize: int, itemCount: int, alignment: int, m: nat)
    returns (pool: Pool?)
    requires Malloced(mem.Length, itemSize, itemCount, alignment, m)
    modifies mem
    ensures pool != null <==> ValidAlignment(Max(alignment, POINTER_SIZE))
    ensures pool != null ==>
      && fresh(pool) && pool.mem == mem && pool.alignment == Max(alignment, POINTER_SIZE)
      && BlockSize(pool.itemSize, itemSize, pool.alignment)
      && pool.Valid() && pool.held == {}
      && pool.free == Carved(m + BUFFER_OFFSET, pool.itemSize, Max(itemCount, 0))
      && AlignedAs(pool.blocks, m + BUFFER_OFFSET, pool.alignment)
  {
    var a := CalculateAndVerifyAlignment(alignment);
    if a == 0 {
      return null;
    }
    var size := CalculateItemSize(itemSize, a);
    pool := new Pool(mem, size, a);
    pool.AddItems(m + BUFFER_OFFSET, itemCount);
    CarvedAlignedAs(pool.blocks, m + BUFFER_OFFSET, size, itemSize, a, Max(itemCount, 0));
  }

  // ---------- Any use of the pool ----------

  datatype Op = Allocate | Free(item: nat) | Write(target: nat, offset: nat, value: Byte)

  /** The pool as its clients see it: the free blocks in order, the blocks held, and every byte that a client has
      written into an item since the item was allocated.
    */
  datatype Spec = Spec(free: seq<nat>, held: set<nat>, written: map<(nat, nat), Byte>)

  /** A use of something the client does not hold is no use of the pool, and is left out. */
  function SpecStep(s: Spec, op: Op, alignment: nat, itemSize: nat): Spec {
    match op
    case Allocate =>
      if s.free == [] then s else Spec(s.free[1..], s.held + {s.free[0]}, s.written)
    case Free(p) =>
      if p < alignment || p - alignment !in s.held then s
      else
        var b := p - alignment;
        Spec([b] + s.free, s.held - {b}, map k | k in s.written && k.0 != b :: s.written[k])
    case Write(p, i, v) =>
      if p < alignment || p - alignment !in s.held || itemSize <= alignment + i then s
      else s.(written := s.written[(p - alignment, i) := v])
  }

  function SpecRun(s: Spec, ops: seq<Op>, alignment: nat, itemSize: nat): Spec
    decreases |ops|
  {
    if ops == [] then s else SpecRun(SpecStep(s, ops[0], alignment, itemSize), ops[1..], alignment, itemSize)
  }

  /** No operation of the list writes byte `i` of block `b` or frees the block. */
  predicate LeavesAlone(ops: seq<Op>, b: nat, i: nat, alignment: nat) {
    forall k :: 0 <= k < |ops| ==>
      match ops[k]
      case Allocate => true
      case Free(p) => p != b + alignment
      case Write(p, j, _) => p != b + alignment || j != i
  }

  lemma {:induction false} WrittenStays(s: Spec, ops: seq<Op>, b: nat, i: nat, alignment: nat, itemSize: nat)
    requires b in s.held && (b, i) in s.written && LeavesAlone(ops, b, i, alignment)
    ensures var s' := SpecRun(s, ops, alignment, itemSize);
      b in s'.held && (b, i) in s'.written && s'.written[(b, i)] == s.written[(b, i)]
    decreases |ops|
  {
    if ops != [] {
      assert ops[0] != Free(b + alignment);
      assert LeavesAlone(ops[1..], b, i, alignment);
      WrittenStays(SpecStep(s, ops[0], alignment, itemSize), ops[1..], b, i, alignment, itemSize);
    }
  }

  /** A byte written to an item that is held reads back after any operations that neither free the item nor write that
      byte again.
    */
  lemma WriteReadsBack(s: Spec, p: nat, i: nat, v: Byte, ops: seq<Op>, alignment: nat, itemSize: nat)
    requires alignment <= p && p - alignment in s.held && alignment + i < itemSize
    requires LeavesAlone(ops, p - alignment, i, alignment)
    ensures var s' := SpecRun(SpecStep(s, Write(p, i, v), alignment, itemSize), ops, alignment, itemSize);
      p - alignment in s'.held && (p - alignment, i) in s'.written && s'.written[(p - alignment, i)] == v
  {
    WrittenStays(SpecStep(s, Write(p, i, v), alignment, itemSize), ops, p - alignment, i, alignment, itemSize);
  }

  /** Every byte written reads back. */
  ghost predicate Remembers(view: map<nat, seq<Byte>>, written: map<(nat, nat), Byte>) {
    forall k :: k in written ==> k.0 in view && k.1 < |view[k.0]| && view[k.0][k.1] == written[k]
  }

  /** What SpecStep makes of the bytes written, and of the view, when an item that is held is written. */
  lemma RemembersWrite(s: Spec, p: nat, i: nat, v: Byte, alignment: nat, itemSize: nat, view: map<nat, seq<Byte>>)
    requires alignment <= p && p - alignment in s.held && alignment + i < itemSize
    requires p - alignment in view && i < |view[p - alignment]| && Remembers(view, s.written)
    ensures var b, s' := p - alignment, SpecStep(s, Write(p, i, v), alignment, itemSize);
      s'.free == s.free && s'.held == s.held && Remembers(view[b := view[b][i := v]], s'.written)
  {
  }

  lemma RemembersFree(view: map<nat, seq<Byte>>, written: map<(nat, nat), Byte>, b: nat)
    requires Remembers(view, written)
    ensures Remembers(view - {b}, map k | k in written && k.0 != b :: written[k])
  {
  }

  lemma RemembersAllocate(view: map<nat, seq<Byte>>, written: map<(nat, nat), Byte>, view': map<nat, seq<Byte>>)
    requires Remembers(view, written) && forall b :: b in view ==> b in view' && view'[b] == view[b]
    ensures Remembers(view', written)
  {
  }

  /** The pool is in the state that its clients expect. */
  ghost predicate Agrees(pool: Pool, s: Spec)
    reads pool, pool.mem
  {
    pool.Valid() && s.free == pool.free && s.held == pool.held && Remembers(pool.View(), s.written)
  }

  method DoAllocate(pool: Pool, s: Spec)
    requires Agrees(pool, s)
    modifies pool, pool.mem
    ensures Agrees(pool, SpecStep(s, Allocate, pool.alignment, pool.itemSize)) && pool.blocks == old(pool.blocks)
  {
    ghost var view := pool.View();
    var p := pool.MemoryPoolAllocate();
    RemembersAllocate(view, s.written, pool.View());
  }

  method DoFree(pool: Pool, p: nat, s: Spec)
    requires Agrees(pool, s)
    modifies pool, pool.mem
    ensures Agrees(pool, SpecStep(s, Free(p), pool.alignment, pool.itemSize)) && pool.blocks == old(pool.blocks)
  {
    if p >= pool.alignment && p - pool.alignment in s.held {
      RemembersFree(pool.View(), s.written, p - pool.alignment);
      pool.MemoryPoolFree(p);
    }
  }

  method DoWrite(pool: Pool, p: nat, i: nat, v: Byte, s: Spec)
    requires Agrees(pool, s)
    modifies pool, pool.mem
    ensures Agrees(pool, SpecStep(s, Write(p, i, v), pool.alignment, pool.itemSize)) && pool.blocks == old(pool.blocks)
  {
    if p >= pool.alignment && p - pool.alignment in s.held && pool.alignment + i < pool.itemSize {
      pool.ViewSize(p - pool.alignment);
      RemembersWrite(s, p, i, v, pool.alignment, pool.itemSize, pool.View());
      pool.ClientWrite(p, i, v);
    }
  }

  /** Over any sequence of uses the pool hands out and takes back the blocks it should, and no byte that a client wrote
      changes until that client overwrites it or frees the item.
    */
  method Execute(pool: Pool, ops: seq<Op>, s: Spec) returns (s': Spec)
    requires Agrees(pool, s)
    modifies pool, pool.mem
    ensures s' == SpecRun(s, ops, pool.alignment, pool.itemSize) && Agrees(pool, s')
    ensures pool.blocks == old(pool.blocks)
  {
    s' := s;
    var k := 0;
    while k < |ops|
      invariant k <= |ops| && Agrees(pool, s') && pool.blocks == old(pool.blocks)
      invariant SpecRun(s', ops[k..], pool.alignment, pool.itemSize) == SpecRun(s, ops, pool.alignment, pool.itemSize)
    {
      match ops[k] {
        case Allocate => DoAllocate(pool, s');
        case Free(p) => DoFree(pool, p, s');
        case Write(p, i, v) => DoWrite(pool, p, i, v, s');
      }
      s' := SpecStep(s', ops[k], pool.alignment, pool.itemSize);
      k := k + 1;
    }
  }

  /** What MemoryPoolAllocate returns after any use of a pool. */
  method AllocateAfter(pool: Pool, ops: seq<Op>, s: Spec, ghost base: nat) returns (item: nat)
    requires Agrees(pool, s) && AlignedAs(pool.blocks, base, pool.alignment)
    modifies pool, pool.mem
    ensures var free := SpecRun(s, ops, pool.alignment, pool.itemSize).free;
      item == if free == [] then 0 else free[0] + pool.alignment
    ensures item != 0 ==> (Aligned(item, pool.alignment) <==> Aligned(base, pool.alignment))
  {
    var s' := Execute(pool, ops, s);
    assert pool.free != [] ==> pool.free[0] in pool.blocks;
    item := pool.MemoryPoolAllocate();
  }

  /** After any use of a new pool, the item that MemoryPoolAllocate returns lies on an address boundary if and only if
      the Buffer behind malloc's address does.
    */
  method AllocateFromNewPool(mem: array<Byte>, itemSize: int, itemCount: int, alignment: int, m: nat, ops: seq<Op>)
    returns (pool: Pool?, item: nat)
    requires Malloced(mem.Length, itemSize, itemCount, alignment, m)
    modifies mem
    ensures pool != null <==> ValidAlignment(Max(alignment, POINTER_SIZE))
    ensures pool != null ==>
      pool.alignment == Max(alignment, POINTER_SIZE) && BlockSize(pool.itemSize, itemSize, pool.alignment)
    ensures pool != null ==>
      var start := Spec(Carved(m + BUFFER_OFFSET, pool.itemSize, Max(itemCount, 0)), {}, map[]);
      var free := SpecRun(start, ops, pool.alignment, pool.itemSize).free;
      item == if free == [] then 0 else free[0] + pool.alignment
    ensures pool != null && item != 0 ==>
      (Aligned(item, pool.alignment) <==> Aligned(m + BUFFER_OFFSET, pool.alignment))
  {
    item := 0;
    pool := CreateMemoryPool(mem, itemSize, itemCount, alignment, m);
    if pool == null {
      return;
    }
    var start := Spec(Carved(m + BUFFER_OFFSET, pool.itemSize, Max(itemCount, 0)), {}, map[]);
    item := AllocateAfter(pool, ops, start, m + BUFFER_OFFSET);
  }

  /** A pool of one item of eight bytes on an eight-byte boundary, with malloc's address on a boundary of 4096: the item
      lies four bytes off.
    */
  method MisalignedItem(mem: array<Byte>) returns (item: nat)
    requires 4096 + HEADER_SIZE + 16 <= mem.Length <= ADDRESSES
    modifies mem
    ensures item == 4096 + 28 && !Aligned(item, 8)
  {
    OneEightByteItem();
    var pool;
    pool, item := AllocateFromNewPool(mem, 8, 1, 8, 4096, []);
  }

  lemma OneEightByteItem()
    ensures ValidAlignment(8) && forall size: nat :: BlockSize(size, 8, 8) ==> size == 16
  {
    assert Power2(3) == 8;
    forall size: nat | BlockSize(size, 8, 8) ensures size == 16 {
      var k: nat :| LeastUnits(k, 8, 8) && size == Span(k + 1, 8);
      assert Span(1, 8) == 8;
      assert LeastUnits(1, 8, 8);
      LeastUnitsUnique(1, k, 8, 8);
    }
  }

  // ---------- AddExtraMemoryToPoolStatic ----------

  /** The variables of its loop: the body moves `ptr` on and leaves the size as it is. */
  datatype Cursor = Cursor(ptr: nat, size: int)

  predicate Guard(c: Cursor, itemSize: nat) { c.size >= itemSize }

  function Body(c: Cursor, itemSize: nat): Cursor { Cursor(c.ptr + itemSize, c.size) }

  function Iterate(c: Cursor, itemSize: nat, n: nat): Cursor {
    if n == 0 then c else Body(Iterate(c, itemSize, n - 1), itemSize)
  }

  lemma {:induction false} IterateAt(c: Cursor, itemSize: nat, n: nat)
    ensures Iterate(c, itemSize, n) == Cursor(c.ptr + n * itemSize, c.size)
  {
    if n > 0 {
      IterateAt(c, itemSize, n - 1);
      Successor(n - 1, itemSize);
    }
  }

  /** The loop ends if and only if the region is smaller than a block, and then it adds nothing. Otherwise it goes on
      forever, and pushes, at the latest in round `size`, a block that is not inside the region.
    */
  lemma AddStaticEndsIff(ptr: nat, size: int, itemSize: nat)
    requires itemSize > 0
    ensures (exists n :: !Guard(Iterate(Cursor(ptr, size), itemSize, n), itemSize)) <==> size < itemSize
    ensures size >= itemSize ==>
      var c := Iterate(Cursor(ptr, size), itemSize, size); Guard(c, itemSize) && c.ptr + itemSize > ptr + size
  {
    forall n: nat ensures Iterate(Cursor(ptr, size), itemSize, n).size == size {
      IterateAt(Cursor(ptr, size), itemSize, n);
    }
    assert Iterate(Cursor(ptr, size), itemSize, 0) == Cursor(ptr, size);
    if size >= itemSize {
      IterateAt(Cursor(ptr, size), itemSize, size);
      Monotone(1, itemSize, size);
    }
  }

  /** A region of one block of 16 bytes at 4096: the second round pushes a block that starts where the region ends. */
  lemma OneBlockTooMany()
    ensures var c := Iterate(Cursor(4096, 16), 16, 1); Guard(c, 16) && c.ptr == 4096 + 16
  {
    IterateAt(Cursor(4096, 16), 16, 1);
  }
}
