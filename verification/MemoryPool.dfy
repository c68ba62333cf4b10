/** The block allocator of memory.c: 1024 blocks of 64 bytes, one bit each, and its statistics. */
module MemoryPool {
  import opened Words
  import opened Wrappers

  const BLOCK_SIZE: nat := 64
  const NUM_BLOCKS: nat := 1024
  const NUM_BYTES: nat := 128
  const POOL_SIZE: nat := 65536

  // ---------------------------------------------------------------------------------------------
  // Bits
  // ---------------------------------------------------------------------------------------------

  /** `1 << bit` on a byte. */
  function Mask(bit: nat): bv8
    requires bit < 8
  {
    match bit
    case 0 => 0x01
    case 1 => 0x02
    case 2 => 0x04
    case 3 => 0x08
    case 4 => 0x10
    case 5 => 0x20
    case 6 => 0x40
    case _ => 0x80
  }

  predicate BitSet(byte: bv8, bit: nat)
    requires bit < 8
  {
    byte & Mask(bit) != 0
  }

  /** Setting a bit with | sets that bit and no other. */
  lemma SetBit(byte: bv8, bit: nat, other: nat)
    requires bit < 8 && other < 8
    ensures BitSet(byte | Mask(bit), other) <==> bit == other || BitSet(byte, other)
  {
  }

  /** Clearing a bit with & ~ clears that bit and no other. */
  lemma ClearBit(byte: bv8, bit: nat, other: nat)
    requires bit < 8 && other < 8
    ensures BitSet(byte & !Mask(bit), other) <==> bit != other && BitSet(byte, other)
  {
  }

  /** Which blocks the bitmap marks as used. */
  function UsedBlocks(bytes: seq<bv8>): (used: seq<bool>)
    requires |bytes| == NUM_BYTES
    ensures |used| == NUM_BLOCKS
    ensures forall i :: 0 <= i < NUM_BLOCKS ==> used[i] == BitSet(bytes[i / 8], i % 8)
  {
    seq(NUM_BLOCKS, i requires 0 <= i < NUM_BLOCKS => BitSet(bytes[i / 8], i % 8))
  }

  /** A block is the one bit of one byte. */
  lemma OneBit(i: nat, block: nat)
    ensures i / 8 == block / 8 && i % 8 == block % 8 <==> i == block
  {
  }

  /** One byte of the bitmap replaced by another that differs in one bit. */
  lemma ByteReplaced(bytes: seq<bv8>, block: nat, byte: bv8, value: bool)
    requires |bytes| == NUM_BYTES && block < NUM_BLOCKS
    requires forall bit: nat :: bit < 8 ==>
      BitSet(byte, bit) == if bit == block % 8 then value else BitSet(bytes[block / 8], bit)
    ensures UsedBlocks(bytes[block / 8 := byte]) == UsedBlocks(bytes)[block := value]
  {
    hide BitSet;
    var after := bytes[block / 8 := byte];
    forall i | 0 <= i < NUM_BLOCKS ensures UsedBlocks(after)[i] == UsedBlocks(bytes)[block := value][i] {
      OneBit(i, block);
    }
  }

  lemma ByteSet(bytes: seq<bv8>, block: nat)
    requires |bytes| == NUM_BYTES && block < NUM_BLOCKS
    ensures UsedBlocks(bytes[block / 8 := bytes[block / 8] | Mask(block % 8)]) == UsedBlocks(bytes)[block := true]
  {
    hide Mask, BitSet, UsedBlocks;
    var byte := bytes[block / 8] | Mask(block % 8);
    forall bit: nat | bit < 8
      ensures BitSet(byte, bit) == if bit == block % 8 then true else BitSet(bytes[block / 8], bit)
    {
      SetBit(bytes[block / 8], block % 8, bit);
    }
    ByteReplaced(bytes, block, byte, true);
  }

  lemma ByteCleared(bytes: seq<bv8>, block: nat)
    requires |bytes| == NUM_BYTES && block < NUM_BLOCKS
    ensures UsedBlocks(bytes[block / 8 := bytes[block / 8] & !Mask(block % 8)]) == UsedBlocks(bytes)[block := false]
  {
    hide Mask, BitSet, UsedBlocks;
    var byte := bytes[block / 8] & !Mask(block % 8);
    forall bit: nat | bit < 8
      ensures BitSet(byte, bit) == if bit == block % 8 then false else BitSet(bytes[block / 8], bit)
    {
      ClearBit(bytes[block / 8], block % 8, bit);
    }
    ByteReplaced(bytes, block, byte, false);
  }

  // ---------------------------------------------------------------------------------------------
  // The pool as a value
  // ---------------------------------------------------------------------------------------------

  predicate FreeRun(used: seq<bool>, start: nat, n: nat) {
    start + n <= |used| && forall i :: start <= i < start + n ==> !used[i]
  }

  /** The lowest start of n consecutive free blocks from position i on, or -1. */
  function FirstFitFrom(used: seq<bool>, n: nat, i: nat): int
    decreases |used| - i
  {
    if i >= |used| then -1 else if FreeRun(used, i, n) then i else FirstFitFrom(used, n, i + 1)
  }

  function FirstFit(used: seq<bool>, n: nat): int {
    FirstFitFrom(used, n, 0)
  }

  lemma {:induction false} FirstFitFromCorrect(used: seq<bool>, n: nat, i: nat)
    requires n > 0
    ensures var r := FirstFitFrom(used, n, i);
      && (r == -1 <==> forall s :: i <= s < |used| ==> !FreeRun(used, s, n))
      && (r != -1 ==> i <= r < |used| && FreeRun(used, r, n) && forall s :: i <= s < r ==> !FreeRun(used, s, n))
    decreases |used| - i
  {
    if i < |used| && !FreeRun(used, i, n) {
      FirstFitFromCorrect(used, n, i + 1);
    }
  }

  /** First fit is sound, complete and lowest. */
  lemma FirstFitCorrect(used: seq<bool>, n: nat)
    requires n > 0
    ensures FirstFit(used, n) == -1 <==> !exists s: nat :: FreeRun(used, s, n)
    ensures FirstFit(used, n) != -1 ==>
      && FirstFit(used, n) >= 0 && FreeRun(used, FirstFit(used, n), n)
      && forall s: nat :: FreeRun(used, s, n) ==> FirstFit(used, n) <= s
  {
    FirstFitFromCorrect(used, n, 0);
  }

  function CountUsed(used: seq<bool>): nat {
    if used == [] then 0 else CountUsed(used[..|used| - 1]) + if used[|used| - 1] then 1 else 0
  }

  datatype Pool = Pool(used: seq<bool>, usedBlocks: nat, freeBlocks: nat, allocs: nat, frees: nat, peak: nat)

  function InitPool(): Pool {
    Pool(seq(NUM_BLOCKS, _ => false), 0, NUM_BLOCKS, 0, 0, 0)
  }

  /** The bitmap with n blocks from start on marked. */
  function Marked(used: seq<bool>, start: nat, n: nat, value: bool): (r: seq<bool>)
    ensures |r| == |used|
    ensures forall i :: 0 <= i < |used| ==> r[i] == if start <= i < start + n then value else used[i]
  {
    seq(|used|, i requires 0 <= i < |used| => if start <= i < start + n then value else used[i])
  }

  /** Blocks that kmalloc looks for: the sum wraps at 2^32. */
  function BlocksFor(size: nat): nat {
    (size + BLOCK_SIZE - 1) % WORD / BLOCK_SIZE
  }

  datatype Allocation = Allocation(ptr: Option<nat>, pool: Pool)

  /** kmalloc. A pointer is an offset into the pool. For no blocks at all the search still stops at
      the first free one. */
  function Alloc(p: Pool, size: nat): Allocation {
    if size == 0 then Allocation(None, p) else
      var n := BlocksFor(size);
      var start := FirstFit(p.used, if n == 0 then 1 else n);
      if start < 0 then Allocation(None, p) else
        var inUse := (p.usedBlocks + n) % WORD;
        Allocation(Some(start * BLOCK_SIZE),
          Pool(Marked(p.used, start, n, true), inUse, (p.freeBlocks - n) % WORD, (p.allocs + 1) % WORD, p.frees,
               if inUse > p.peak then inUse else p.peak))
  }

  /** kfree of an address given relative to the pool: NULL, addresses outside, unaligned ones and
      free blocks are refused; otherwise one block is released. */
  function Free(p: Pool, ptr: Option<int>): Pool
    requires |p.used| == NUM_BLOCKS
  {
    if ptr.None? || ptr.value < 0 || ptr.value >= POOL_SIZE || ptr.value % BLOCK_SIZE != 0 then p else
      var block := ptr.value / BLOCK_SIZE;
      if !p.used[block] then p else
        Pool(p.used[block := false], (p.usedBlocks - 1) % WORD, (p.freeBlocks + 1) % WORD, p.allocs,
             (p.frees + 1) % WORD, p.peak)
  }

  /** memory_get_stats: the two block counts are recounted. */
  function Recounted(p: Pool): Pool {
    p.(usedBlocks := CountUsed(p.used), freeBlocks := (NUM_BLOCKS - CountUsed(p.used)) % WORD)
  }

  // ---------------------------------------------------------------------------------------------
  // Counters and bitmap agree
  // ---------------------------------------------------------------------------------------------

  predicate Consistent(p: Pool) {
    && |p.used| == NUM_BLOCKS
    && p.usedBlocks == CountUsed(p.used)
    && p.usedBlocks + p.freeBlocks == NUM_BLOCKS
    && p.usedBlocks <= p.peak <= NUM_BLOCKS
  }

  lemma CountBound(used: seq<bool>)
    ensures CountUsed(used) <= |used|
  {
  }

  lemma CountNone(used: seq<bool>)
    requires forall i :: 0 <= i < |used| ==> !used[i]
    ensures CountUsed(used) == 0
  {
  }

  lemma CountSet(used: seq<bool>, i: nat, value: bool)
    requires i < |used| && used[i] != value
    ensures CountUsed(used[i := value]) == CountUsed(used) + if value then 1 else -1
  {
    var n := |used| - 1;
    if i < n {
      CountSet(used[..n], i, value);
      assert used[i := value][..n] == used[..n][i := value];
    } else {
      assert used[i := value][..n] == used[..n];
    }
  }

  lemma MarkStep(used: seq<bool>, start: nat, n: nat, value: bool)
    requires start + n < |used|
    ensures Marked(used, start, n + 1, value) == Marked(used, start, n, value)[start + n := value]
  {
  }

  lemma MarkNone(used: seq<bool>, start: nat, value: bool)
    ensures Marked(used, start, 0, value) == used
  {
  }

  lemma CountMarked(used: seq<bool>, start: nat, n: nat)
    requires FreeRun(used, start, n)
    ensures CountUsed(Marked(used, start, n, true)) == CountUsed(used) + n
  {
    if n == 0 {
      MarkNone(used, start, true);
    } else {
      CountMarked(used, start, n - 1);
      MarkStep(used, start, n - 1, true);
      CountSet(Marked(used, start, n - 1, true), start + n - 1, true);
    }
  }

  lemma InitConsistent()
    ensures Consistent(InitPool())
  {
    CountNone(InitPool().used);
  }

  /** An allocation reserves previously free blocks, all of its own region and nothing else, and the
      counters follow. */
  lemma AllocKeepsConsistent(p: Pool, size: nat)
    requires Consistent(p) && size < WORD
    ensures var a := Alloc(p, size);
      && Consistent(a.pool)
      && (a.ptr.Some? ==> var start := a.ptr.value / BLOCK_SIZE; var n := BlocksFor(size);
           && a.ptr.value == start * BLOCK_SIZE && a.ptr.value < POOL_SIZE
           && FreeRun(p.used, start, n) && a.pool.used == Marked(p.used, start, n, true)
           && a.pool.usedBlocks == p.usedBlocks + n)
      && (a.ptr.None? ==> a.pool == p)
  {
    hide FirstFitFrom, CountUsed;
    var n := BlocksFor(size);
    var n' := if n == 0 then 1 else n;
    FirstFitCorrect(p.used, n');
    if FirstFit(p.used, n') >= 0 {
      CountMarked(p.used, FirstFit(p.used, n'), n);
      CountBound(Marked(p.used, FirstFit(p.used, n'), n, true));
    }
  }

  lemma FreeKeepsConsistent(p: Pool, ptr: Option<int>)
    requires Consistent(p)
    ensures Consistent(Free(p, ptr))
  {
    CountBound(p.used);
    if ptr.Some? && 0 <= ptr.value < POOL_SIZE && p.used[ptr.value / BLOCK_SIZE] {
      CountSet(p.used, ptr.value / BLOCK_SIZE, false);
      CountBound(p.used[ptr.value / BLOCK_SIZE := false]);
    }
  }

  /** kfree does something if and only if it is given the address of a used block, and then that block
      alone is free afterwards. */
  lemma FreeReleasesIff(p: Pool, ptr: Option<int>)
    requires |p.used| == NUM_BLOCKS
    ensures Free(p, ptr) != p <==> exists b :: 0 <= b < NUM_BLOCKS && p.used[b] && ptr == Some(b * 64)
    ensures forall b :: 0 <= b < NUM_BLOCKS && p.used[b] && ptr == Some(b * 64) ==>
      Free(p, ptr).used == p.used[b := false]
  {
    if ptr.Some? && 0 <= ptr.value < POOL_SIZE && ptr.value % BLOCK_SIZE == 0 {
      var b := ptr.value / BLOCK_SIZE;
      assert ptr.value == b * 64;
      if p.used[b] {
        assert Free(p, ptr).used[b] != p.used[b];
      }
    }
  }

  /** A request for nothing gets nothing, and one that gets nothing changes nothing. */
  lemma NothingGiven(p: Pool, size: nat)
    ensures size == 0 ==> Alloc(p, size).ptr.None?
    ensures Alloc(p, size).ptr.None? ==> Alloc(p, size).pool == p
  {
  }

  /** The recount never changes anything. */
  lemma RecountChangesNothing(p: Pool)
    requires Consistent(p)
    ensures Recounted(p) == p
  {
    CountBound(p.used);
  }

  /** An allocation fails exactly when no run of free blocks is long enough. */
  lemma AllocFailsIff(p: Pool, size: nat, n: nat)
    requires 0 < size && size + BLOCK_SIZE - 1 < WORD
    requires (n - 1) * BLOCK_SIZE < size <= n * BLOCK_SIZE
    ensures Alloc(p, size).ptr.None? <==> !exists s: nat :: FreeRun(p.used, s, n)
  {
    assert BlocksFor(size) == n;
    FirstFitCorrect(p.used, n);
  }

  /** The bytes handed out are reserved: they lie in the pool, in blocks that were free and are now used. */
  predicate Reserves(p: Pool, a: Allocation, size: nat) {
    a.ptr.Some? && |p.used| == |a.pool.used| == NUM_BLOCKS &&
    var first := a.ptr.value / BLOCK_SIZE; var last := (a.ptr.value + size - 1) / BLOCK_SIZE;
    first <= last < NUM_BLOCKS && forall i :: first <= i <= last ==> !p.used[i] && a.pool.used[i]
  }

  /** A pointer that kmalloc returns is backed by `size` reserved bytes exactly when the rounding of
      the size does not wrap; for the 63 largest sizes it points at a block that stays free. */
  lemma AllocReservesIff(p: Pool, size: nat)
    requires Consistent(p) && 0 < size < WORD && Alloc(p, size).ptr.Some?
    ensures Reserves(p, Alloc(p, size), size) <==> size + BLOCK_SIZE - 1 < WORD
  {
    hide Alloc, CountUsed;
    var a, n := Alloc(p, size), BlocksFor(size);
    var start := a.ptr.value / BLOCK_SIZE;
    AllocKeepsConsistent(p, size);
    if size + BLOCK_SIZE - 1 < WORD {
      assert (a.ptr.value + size - 1) / BLOCK_SIZE == start + n - 1;
    } else {
      assert n == 0;
      assert a.pool.used == p.used;
    }
  }

  /** When the size wraps to no blocks at all, the block pointed at is free before and after. */
  lemma NothingMarked(p: Pool, size: nat)
    requires Consistent(p) && 0 < size < WORD && Alloc(p, size).ptr.Some? && BlocksFor(size) == 0
    ensures Alloc(p, size).ptr.value < POOL_SIZE && Alloc(p, size).ptr.value % BLOCK_SIZE == 0
    ensures Alloc(p, size).pool.used == p.used && !p.used[Alloc(p, size).ptr.value / BLOCK_SIZE]
  {
    hide FirstFitFrom, CountUsed;
    FirstFitCorrect(p.used, 1);
    MarkNone(p.used, FirstFit(p.used, 1), true);
  }

  /** kfree of what kmalloc returned restores the bitmap exactly when at most one block was marked,
      since it releases one block only. The block counts come back with the bitmap. */
  lemma FreeUndoesAllocIff(p: Pool, size: nat)
    requires Consistent(p) && 0 < size < WORD && Alloc(p, size).ptr.Some?
    ensures |Alloc(p, size).pool.used| == NUM_BLOCKS
    ensures var q := Free(Alloc(p, size).pool, Some(Alloc(p, size).ptr.value));
      && (q.used == p.used <==> size <= BLOCK_SIZE || size + BLOCK_SIZE - 1 >= WORD)
      && (q.used == p.used ==> q.usedBlocks == p.usedBlocks && q.freeBlocks == p.freeBlocks)
  {
    hide Alloc, CountUsed;
    var a, n := Alloc(p, size), BlocksFor(size);
    var start := a.ptr.value / BLOCK_SIZE;
    AllocKeepsConsistent(p, size);
    FreeKeepsConsistent(a.pool, Some(a.ptr.value));
    var q := Free(a.pool, Some(a.ptr.value));
    assert n <= 1 <==> size <= BLOCK_SIZE || size + BLOCK_SIZE - 1 >= WORD;
    if n == 0 {
      NothingMarked(p, size);
    } else if n > 1 {
      assert q.used[start + 1] && !p.used[start + 1];
    }
  }

  /** From memory_init, a request for 2^32 - 1 bytes gets a pointer that no byte is reserved for. */
  lemma HugeRequestSucceeds()
    ensures var a := Alloc(InitPool(), 0xFFFF_FFFF);
      a.ptr == Some(0) && a.pool.used == InitPool().used && !Reserves(InitPool(), a, 0xFFFF_FFFF)
  {
    hide CountUsed, Reserves;
    InitConsistent();
    FirstFitCorrect(InitPool().used, 1);
    assert FreeRun(InitPool().used, 0, 1);
    AllocReservesIff(InitPool(), 0xFFFF_FFFF);
  }

  /** From memory_init, 65 bytes allocated and freed leave one block used for good. */
  lemma SecondBlockLeaks()
    ensures var a := Alloc(InitPool(), 65);
      && a.ptr == Some(0) && |a.pool.used| == NUM_BLOCKS
      && Free(a.pool, Some(0)).used == InitPool().used[1 := true] && Free(a.pool, Some(0)).usedBlocks == 1
  {
    hide CountUsed, FirstFit, Marked;
    FirstFitCorrect(InitPool().used, 2);
    assert FreeRun(InitPool().used, 0, 2);
    var a := Alloc(InitPool(), 65);
    assert BlocksFor(65) == 2 && a.pool.used == Marked(InitPool().used, 0, 2, true);
    assert Marked(InitPool().used, 0, 2, true)[0 := false] == InitPool().used[1 := true];
  }

  // ---------------------------------------------------------------------------------------------
  // Runs
  // ---------------------------------------------------------------------------------------------

  datatype Call = Kmalloc(size: nat) | Kfree(ptr: Option<int>) | GetStats

  function Next(p: Pool, c: Call): Pool
    requires |p.used| == NUM_BLOCKS
  {
    match c
    case Kmalloc(size) => Alloc(p, size).pool
    case Kfree(ptr) => Free(p, ptr)
    case GetStats => Recounted(p)
  }

  lemma NextKeepsConsistent(p: Pool, c: Call)
    requires Consistent(p) && (c.Kmalloc? ==> c.size < WORD)
    ensures Consistent(Next(p, c))
    ensures Next(p, c).peak == if Next(p, c).usedBlocks > p.peak then Next(p, c).usedBlocks else p.peak
  {
    match c
    case Kmalloc(size) => AllocKeepsConsistent(p, size);
    case Kfree(ptr) => FreeKeepsConsistent(p, ptr);
    case GetStats => RecountChangesNothing(p);
  }

  predicate WordSizes(cs: seq<Call>) {
    forall c :: c in cs && c.Kmalloc? ==> c.size < WORD
  }

  lemma AllocLength(p: Pool, c: Call)
    requires |p.used| == NUM_BLOCKS
    ensures |Next(p, c).used| == NUM_BLOCKS
  {
  }

  function Run(p: Pool, cs: seq<Call>): Pool
    requires |p.used| == NUM_BLOCKS
    decreases |cs|
  {
    if cs == [] then p else
      AllocLength(p, cs[0]);
      Run(Next(p, cs[0]), cs[1..])
  }

  /** The greatest number of blocks in use at any moment of the run. */
  function MaxInUse(p: Pool, cs: seq<Call>): nat
    requires |p.used| == NUM_BLOCKS
    decreases |cs|
  {
    if cs == [] then CountUsed(p.used) else
      AllocLength(p, cs[0]);
      var later := MaxInUse(Next(p, cs[0]), cs[1..]);
      if CountUsed(p.used) > later then CountUsed(p.used) else later
  }

  /** Over any run the counters equal a recount, used and free make 1024, and the peak is the
      greatest use there ever was. */
  lemma {:induction false} RunKeepsCounters(p: Pool, cs: seq<Call>)
    requires Consistent(p) && WordSizes(cs)
    ensures Consistent(Run(p, cs))
    ensures Run(p, cs).peak == if MaxInUse(p, cs) > p.peak then MaxInUse(p, cs) else p.peak
    decreases |cs|
  {
    if cs != [] {
      assert cs[0] in cs;
      NextKeepsConsistent(p, cs[0]);
      RunKeepsCounters(Next(p, cs[0]), cs[1..]);
    }
  }

  /** From memory_init: the peak is exactly the greatest use there ever was. */
  lemma ReachableCounters(cs: seq<Call>)
    requires WordSizes(cs)
    ensures Consistent(Run(InitPool(), cs)) && Run(InitPool(), cs).peak == MaxInUse(InitPool(), cs)
  {
    InitConsistent();
    RunKeepsCounters(InitPool(), cs);
  }

  /** How many calls of the run got a pointer. */
  function PointersGiven(p: Pool, cs: seq<Call>): nat
    requires |p.used| == NUM_BLOCKS
    decreases |cs|
  {
    if cs == [] then 0 else
      AllocLength(p, cs[0]);
      (if cs[0].Kmalloc? && Alloc(p, cs[0].size).ptr.Some? then 1 else 0)
      + PointersGiven(Next(p, cs[0]), cs[1..])
  }

  /** How many calls of kfree in the run changed the bitmap. */
  function BlocksReleased(p: Pool, cs: seq<Call>): nat
    requires |p.used| == NUM_BLOCKS
    decreases |cs|
  {
    if cs == [] then 0 else
      AllocLength(p, cs[0]);
      (if cs[0].Kfree? && Next(p, cs[0]).used != p.used then 1 else 0)
      + BlocksReleased(Next(p, cs[0]), cs[1..])
  }

  lemma NextCountsCalls(p: Pool, c: Call)
    requires |p.used| == NUM_BLOCKS
    ensures Next(p, c).allocs % WORD
         == (p.allocs + if c.Kmalloc? && Alloc(p, c.size).ptr.Some? then 1 else 0) % WORD
    ensures Next(p, c).frees % WORD == (p.frees + if c.Kfree? && Next(p, c).used != p.used then 1 else 0) % WORD
  {
    hide FirstFit, Marked, CountUsed, BlocksFor;
    assert WORD == 0x1_0000_0000;
    if c.Kfree? && c.ptr.Some? && 0 <= c.ptr.value < POOL_SIZE && p.used[c.ptr.value / BLOCK_SIZE] {
      assert !p.used[c.ptr.value / BLOCK_SIZE := false][c.ptr.value / BLOCK_SIZE];
    }
  }

  lemma ModShift(a: int, b: int, c: int)
    requires a % WORD == b % WORD
    ensures (a + c) % WORD == (b + c) % WORD
  {
    assert WORD == 0x1_0000_0000;
  }

  /** Over any run the two call counters of the statistics are the numbers of pointers given and of blocks
      released, modulo 2^32. */
  lemma {:induction false} RunCountsCalls(p: Pool, cs: seq<Call>)
    requires |p.used| == NUM_BLOCKS
    ensures Run(p, cs).allocs % WORD == (p.allocs + PointersGiven(p, cs)) % WORD
    ensures Run(p, cs).frees % WORD == (p.frees + BlocksReleased(p, cs)) % WORD
    decreases |cs|
  {
    if cs != [] {
      hide Next, Alloc;
      AllocLength(p, cs[0]);
      NextCountsCalls(p, cs[0]);
      var q := Next(p, cs[0]);
      RunCountsCalls(q, cs[1..]);
      var given, released := PointersGiven(q, cs[1..]), BlocksReleased(q, cs[1..]);
      ModShift(q.allocs, p.allocs + PointersGiven(p, cs) - given, given);
      ModShift(q.frees, p.frees + BlocksReleased(p, cs) - released, released);
    }
  }

  // ---------------------------------------------------------------------------------------------
  // The allocator in memory
  // ---------------------------------------------------------------------------------------------

  /** No run long enough starts between a position and a used block too close to it. */
  lemma SkipBlocked(used: seq<bool>, n: nat, s: nat, i: nat)
    requires s <= i < |used| && used[i] && i - s < n
    ensures FirstFitFrom(used, n, s) == FirstFitFrom(used, n, i + 1)
    decreases i - s
  {
    assert !FreeRun(used, s, n);
    if s < i {
      SkipBlocked(used, n, s + 1, i);
    }
  }

  lemma TooLate(used: seq<bool>, n: nat, s: nat)
    requires s <= |used| < s + n
    ensures FirstFitFrom(used, n, s) == -1
    decreases |used| - s
  {
    if s < |used| {
      TooLate(used, n, s + 1);
    }
  }

  class Allocator {
    const bitmap: array<bv8>
    var usedBlocks: nat
    var freeBlocks: nat
    var allocCount: nat
    var freeCount: nat
    var peakUsage: nat

    ghost predicate Valid() {
      bitmap.Length == NUM_BYTES
    }

    ghost function Used(): seq<bool>
      reads bitmap
      requires Valid()
    {
      UsedBlocks(bitmap[..])
    }

    ghost function View(): Pool
      reads this, bitmap
      requires Valid()
    {
      Pool(Used(), usedBlocks, freeBlocks, allocCount, freeCount, peakUsage)
    }

    /** memory_init. */
    constructor ()
      ensures Valid() && View() == InitPool() && fresh(bitmap)
    {
      bitmap := new bv8[NUM_BYTES](_ => 0);
      usedBlocks, freeBlocks, allocCount, freeCount, peakUsage := 0, NUM_BLOCKS, 0, 0, 0;
      new;
      assert forall i :: 0 <= i < NUM_BLOCKS ==> !BitSet(bitmap[i / 8], i % 8);
    }

    method IsBlockUsed(block: nat) returns (used: bool)
      requires Valid() && block < NUM_BLOCKS
      ensures used == Used()[block]
    {
      used := bitmap[block / 8] & Mask(block % 8) != 0;
    }

    method SetBlockUsed(block: nat)
      requires Valid() && block < NUM_BLOCKS
      modifies bitmap
      ensures Used() == old(Used())[block := true]
    {
      hide Mask, UsedBlocks;
      ByteSet(bitmap[..], block);
      ghost var after := bitmap[..][block / 8 := bitmap[block / 8] | Mask(block % 8)];
      bitmap[block / 8] := bitmap[block / 8] | Mask(block % 8);
      assert bitmap[..] == after;
    }

    method SetBlockFree(block: nat)
      requires Valid() && block < NUM_BLOCKS
      modifies bitmap
      ensures Used() == old(Used())[block := false]
    {
      hide Mask, UsedBlocks;
      ByteCleared(bitmap[..], block);
      ghost var after := bitmap[..][block / 8 := bitmap[block / 8] & !Mask(block % 8)];
      bitmap[block / 8] := bitmap[block / 8] & !Mask(block % 8);
      assert bitmap[..] == after;
    }

    /** find_free_blocks: one scan with a count of consecutive free blocks. */
    method FindFreeBlocks(n: nat) returns (start: int)
      requires Valid()
      ensures start == FirstFit(Used(), if n == 0 then 1 else n)
    {
      var consecutive := 0;
      start := -1;
      ghost var used := Used();
      ghost var want := if n == 0 then 1 else n;
      var i := 0;
      while i < NUM_BLOCKS
        invariant i <= NUM_BLOCKS && consecutive < want && consecutive <= i
        invariant start == if consecutive == 0 then -1 else i - consecutive
        invariant forall j :: i - consecutive <= j < i ==> !used[j]
        invariant FirstFit(used, want) == FirstFitFrom(used, want, i - consecutive)
      {
        var blocked := IsBlockUsed(i);
        if !blocked {
          if consecutive == 0 {
            start := i;
          }
          consecutive := consecutive + 1;
          if consecutive >= n {
            assert FreeRun(used, start, want);
            return;
          }
        } else {
          SkipBlocked(used, want, i - consecutive, i);
          consecutive := 0;
          start := -1;
        }
        i := i + 1;
      }
      TooLate(used, want, NUM_BLOCKS - consecutive);
      start := -1;
    }

    /** count_used_blocks. */
    method CountUsedBlocks() returns (count: nat)
      requires Valid()
      ensures count == CountUsed(Used())
    {
      count := 0;
      for i := 0 to NUM_BLOCKS
        invariant count == CountUsed(Used()[..i])
      {
        var used := IsBlockUsed(i);
        if used {
          count := count + 1;
        }
        assert Used()[..i + 1][..i] == Used()[..i];
      }
      assert Used()[..NUM_BLOCKS] == Used();
    }

    /** The marking loop of kmalloc. */
    method MarkUsed(start: nat, n: nat)
      requires Valid() && start + n <= NUM_BLOCKS
      modifies bitmap
      ensures Used() == Marked(old(Used()), start, n, true)
    {
      hide UsedBlocks, Marked;
      ghost var used := Used();
      MarkNone(used, start, true);
      for i := 0 to n
        invariant Used() == Marked(used, start, i, true)
      {
        MarkStep(used, start, i, true);
        SetBlockUsed(start + i);
      }
    }

    /** kmalloc: an offset into the pool, or None for NULL. */
    method Malloc(size: nat) returns (ptr: Option<nat>)
      requires Valid() && size < WORD
      modifies this, bitmap
      ensures Allocation(ptr, View()) == Alloc(old(View()), size)
    {
      hide FirstFitFrom, UsedBlocks, Marked;
      if size == 0 {
        return None;
      }
      var n := (size + BLOCK_SIZE - 1) % WORD / BLOCK_SIZE;
      var start := FindFreeBlocks(n);
      if start < 0 {
        return None;
      }
      FirstFitCorrect(Used(), if n == 0 then 1 else n);
      MarkUsed(start, n);
      usedBlocks := (usedBlocks + n) % WORD;
      freeBlocks := (freeBlocks - n) % WORD;
      allocCount := (allocCount + 1) % WORD;
      if usedBlocks > peakUsage {
        peakUsage := usedBlocks;
      }
      ptr := Some(start * BLOCK_SIZE);
    }

    /** kfree, of an address relative to the pool. */
    method Release(ptr: Option<int>)
      requires Valid()
      modifies this, bitmap
      ensures View() == Free(old(View()), ptr)
    {
      if ptr.None? || ptr.value < 0 || ptr.value >= POOL_SIZE || ptr.value % BLOCK_SIZE != 0 {
        return;
      }
      var block := ptr.value / BLOCK_SIZE;
      var used := IsBlockUsed(block);
      if !used {
        return;
      }
      SetBlockFree(block);
      usedBlocks := (usedBlocks - 1) % WORD;
      freeBlocks := (freeBlocks + 1) % WORD;
      freeCount := (freeCount + 1) % WORD;
    }

    /** memory_get_stats. */
    method Stats() returns (stats: (nat, nat, nat, nat, nat))
      requires Valid()
      modifies this
      ensures View() == Recounted(old(View()))
      ensures stats == (usedBlocks, freeBlocks, allocCount, freeCount, peakUsage)
    {
      usedBlocks := CountUsedBlocks();
      freeBlocks := (NUM_BLOCKS - usedBlocks) % WORD;
      stats := (usedBlocks, freeBlocks, allocCount, freeCount, peakUsage);
    }
  }
}
