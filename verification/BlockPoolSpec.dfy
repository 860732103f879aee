// The pool of memory blocks: its geometry, and the free list threaded through the blocks nobody holds.
module BlockPoolSpec {
  import opened Words
  import opened Messages
  import opened Residues

  const NULL_OFFSET: nat := 0xFFFF_FFFF_FFFF_FFFF

  // A message is a handle on a block: container is the address of the pool the block is in, 0 when there is none.
  datatype MessageState = MessageState(container: nat, capacity: nat, offset: nat, used: nat, read: nat, meta: Meta)

  // base is the pool's own address, header the size of the pool object in front of the blocks, and memory the bytes
  // from base on.
  datatype Pool = Pool(
    base: nat, header: nat, memory: seq<Byte>, poolSize: nat, blockSize: nat, blockCount: nat, rootOffset: nat)

  // ---- sizes ----

  function CacheAligned(size: nat): (r: nat)
    ensures r % CACHE_LINE == 0 && size <= r < size + CACHE_LINE
  {
    (size + CACHE_LINE - 1) / CACHE_LINE * CACHE_LINE
  }

  // Where the first block starts: the first cache line at or after the end of the pool object, seen from base.
  function Start(base: nat, header: nat): (r: nat)
    ensures (base + r) % CACHE_LINE == 0 && header <= r < header + CACHE_LINE
  {
    var end := base + header + CACHE_LINE - 1;
    end - end % CACHE_LINE - base
  }

  function SpaceNeeded(header: nat, blockSize: nat, messageCount: nat): nat {
    header + CacheAligned(blockSize) * messageCount + CACHE_LINE
  }

  function BlockAt(start: nat, blockSize: nat, k: nat): (r: nat)
    ensures r >= start
  {
    start + k * blockSize
  }

  lemma BlocksInOrder(start: nat, blockSize: nat, j: nat, k: nat)
    requires j < k
    ensures BlockAt(start, blockSize, j) + blockSize <= BlockAt(start, blockSize, k)
  {
    assert (j + 1) * blockSize <= k * blockSize;
  }

  lemma BlockAfter(start: nat, blockSize: nat, k: nat)
    ensures BlockAt(start, blockSize, k + 1) == BlockAt(start, blockSize, k) + blockSize
    ensures BlockAt(start, blockSize, 0) == start
  {
  }

  // How many blocks fit: the number of links that preAllocate writes.
  function BlocksIn(poolSize: nat, start: nat, blockSize: nat): nat
    requires blockSize > 0
  {
    if poolSize < start then 0 else (poolSize - start) / blockSize
  }

  // Space asked for with spaceNeeded, and slack more, has room for the blocks asked for, and for a few more exactly
  // where the alignment of the pool leaves them.
  lemma SpaceIsEnough(base: nat, header: nat, blockSize: nat, messageCount: nat, slack: nat)
    requires blockSize > 0
    ensures var start, size := Start(base, header), CacheAligned(blockSize);
      BlocksIn(SpaceNeeded(header, blockSize, messageCount) + slack, start, size)
      == messageCount + (CACHE_LINE + slack - (start - header)) / size
  {
    var start, size := Start(base, header), CacheAligned(blockSize);
    var spare := CACHE_LINE + slack - (start - header);
    assert SpaceNeeded(header, blockSize, messageCount) + slack - start == messageCount * size + spare;
    DivideSum(messageCount, size, spare);
  }

  lemma DivideSum(q: nat, n: nat, r: nat)
    requires n > 0
    ensures q * n + r >= 0 && (q * n + r) / n == q + r / n
  {
    var k, rest := r / n, r % n;
    assert q * n + r == (q + k) * n + rest;
    Decompose(q + k, rest, n);
  }

  lemma NoGapExactlyWhenAligned(base: nat, header: nat)
    ensures Start(base, header) == header <==> (base + header) % CACHE_LINE == 0
  {
  }

  lemma AtLeastOneLine(size: nat)
    requires size > 0
    ensures CacheAligned(size) >= CACHE_LINE
  {
  }

  // A pool sized by spaceNeeded has the blocks asked for or one more; with the extra cache line
  // of MemoryPool, at most two more.
  lemma OneOrTwoMore(base: nat, header: nat, blockSize: nat, messageCount: nat)
    requires blockSize > 0
    ensures var start, size, space := Start(base, header), CacheAligned(blockSize),
      SpaceNeeded(header, blockSize, messageCount);
      var plain, roomy := BlocksIn(space, start, size), BlocksIn(space + CACHE_LINE, start, size);
      var most := size == CACHE_LINE && (base + header) % CACHE_LINE == 0;
      && messageCount <= plain <= messageCount + 1 && (plain == messageCount + 1 <==> most)
      && messageCount <= roomy <= messageCount + 2 && (roomy == messageCount + 2 <==> most)
  {
    var d, size := Start(base, header) - header, CacheAligned(blockSize);
    SpaceIsEnough(base, header, blockSize, messageCount, 0);
    SpaceIsEnough(base, header, blockSize, messageCount, CACHE_LINE);
    NoGapExactlyWhenAligned(base, header);
    AtLeastOneLine(blockSize);
    Quotients(CACHE_LINE - d, size);
    Quotients(2 * CACHE_LINE - d, size);
  }

  lemma RoomForOne(base: nat, header: nat, blockSize: nat, messageCount: nat)
    requires blockSize > 0 && messageCount > 0
    ensures Start(base, header) + CacheAligned(blockSize) <= SpaceNeeded(header, blockSize, messageCount)
  {
    assert CacheAligned(blockSize) * messageCount >= CacheAligned(blockSize);
  }

  lemma Quotients(a: nat, n: nat)
    requires CACHE_LINE <= n && a <= 2 * CACHE_LINE
    ensures 0 <= a / n <= 2
    ensures a <= CACHE_LINE ==> a / n <= 1 && (a / n == 1 <==> n == CACHE_LINE == a)
    ensures a / n == 2 <==> n == CACHE_LINE && a == 2 * CACHE_LINE
  {
    if a < n {
      Decompose(0, a, n);
    } else if a < 2 * n {
      Decompose(1, a - n, n);
    } else {
      Decompose(2, a - 2 * n, n);
    }
  }

  // ---- the free list ----

  predicate Geometry(p: Pool) {
    && p.base > 0 && p.blockSize > 0 && p.blockSize % CACHE_LINE == 0 && p.blockCount > 0
    && BlockAt(Start(p.base, p.header), p.blockSize, p.blockCount) <= p.poolSize <= |p.memory|
    && p.poolSize < NULL_OFFSET
  }

  ghost predicate IsBlock(p: Pool, offset: nat) {
    exists k: nat :: k < p.blockCount && offset == BlockAt(Start(p.base, p.header), p.blockSize, k)
  }

  // The block after the first i of the list, or the mark of its end.
  function Next(free: seq<nat>, i: nat): nat {
    if i < |free| then free[i] else NULL_OFFSET
  }

  // From root the links lead through exactly these offsets, in this order.
  ghost predicate Links(memory: seq<Byte>, root: nat, free: seq<nat>) {
    && root == Next(free, 0)
    && (forall i: nat | i < |free| :: WordAt(memory, free[i]) == Next(free, i + 1))
  }

  // The free list goes through blocks of the pool, each once.
  ghost predicate Threaded(p: Pool, free: seq<nat>) {
    && Geometry(p)
    && (forall i: nat | i < |free| :: IsBlock(p, free[i]))
    && (forall i: nat, j: nat | i < j < |free| :: free[i] != free[j])
    && Links(p.memory, p.rootOffset, free)
  }

  lemma OnCacheLine(base: nat, start: nat, blockSize: nat, k: nat)
    requires (base + start) % CACHE_LINE == 0 && blockSize % CACHE_LINE == 0
    ensures (base + BlockAt(start, blockSize, k)) % CACHE_LINE == 0
  {
    var lines := blockSize / CACHE_LINE;
    assert k * blockSize == (k * lines) * CACHE_LINE;
    ShiftCell(base + start, k * lines, CACHE_LINE);
  }

  lemma BlockInside(p: Pool, a: nat)
    requires Geometry(p) && IsBlock(p, a)
    ensures (p.base + a) % CACHE_LINE == 0 && p.header <= a && a + p.blockSize <= p.poolSize && WORD <= p.blockSize
  {
    var start := Start(p.base, p.header);
    var k: nat :| k < p.blockCount && a == BlockAt(start, p.blockSize, k);
    BlocksInOrder(start, p.blockSize, k, p.blockCount);
    OnCacheLine(p.base, start, p.blockSize, k);
    WholeLines(p.blockSize);
  }

  lemma WholeLines(size: nat)
    requires size > 0 && size % CACHE_LINE == 0
    ensures size >= CACHE_LINE
  {
  }

  // Blocks do not overlap.
  lemma BlocksApart(p: Pool, a: nat, b: nat)
    requires Geometry(p) && IsBlock(p, a) && IsBlock(p, b)
    ensures a == b || a + p.blockSize <= b || b + p.blockSize <= a
  {
    var start := Start(p.base, p.header);
    var j: nat :| j < p.blockCount && a == BlockAt(start, p.blockSize, j);
    var k: nat :| k < p.blockCount && b == BlockAt(start, p.blockSize, k);
    if j < k { BlocksInOrder(start, p.blockSize, j, k); }
    if k < j { BlocksInOrder(start, p.blockSize, k, j); }
  }

  // The links decide the list.
  lemma {:induction false} OneList(memory: seq<Byte>, root: nat, free: seq<nat>, other: seq<nat>)
    requires Links(memory, root, free) && Links(memory, root, other)
    requires NULL_OFFSET !in free && NULL_OFFSET !in other
    ensures free == other
    decreases |free|
  {
    if free == [] || other == [] {
    } else {
      assert forall i: nat :: Next(free[1..], i) == Next(free, i + 1);
      assert forall i: nat :: Next(other[1..], i) == Next(other, i + 1);
      OneList(memory, WordAt(memory, root), free[1..], other[1..]);
      assert free == [root] + free[1..] && other == [root] + other[1..];
    }
  }

  // All the blocks, in the order of their addresses: the list that preAllocate threads.
  function AllBlocks(p: Pool): (r: seq<nat>)
    ensures |r| == p.blockCount
  {
    seq(p.blockCount, (k: nat) requires k < p.blockCount => BlockAt(Start(p.base, p.header), p.blockSize, k))
  }

  // The first k blocks are linked one to the next, and the last of them to current.
  ghost predicate LinkedUpTo(memory: seq<Byte>, start: nat, blockSize: nat, k: nat, current: nat) {
    forall j: nat | j < k ::
      WordAt(memory, BlockAt(start, blockSize, j)) == if j + 1 < k then BlockAt(start, blockSize, j + 1) else current
  }

  lemma LinkOne(memory: seq<Byte>, start: nat, blockSize: nat, k: nat, next: nat)
    requires WORD <= blockSize && BlockAt(start, blockSize, k) + blockSize <= |memory| && next <= NULL_OFFSET
    requires LinkedUpTo(memory, start, blockSize, k, BlockAt(start, blockSize, k))
    ensures LinkedUpTo(WithWord(memory, BlockAt(start, blockSize, k), next), start, blockSize, k + 1, next)
  {
    var current := BlockAt(start, blockSize, k);
    WordWritten(memory, current, next);
    forall j: nat | j < k
      ensures WordAt(WithWord(memory, current, next), BlockAt(start, blockSize, j)) ==
        WordAt(memory, BlockAt(start, blockSize, j))
    {
      BlocksInOrder(start, blockSize, j, k);
      WordElsewhere(memory, current, next, BlockAt(start, blockSize, j));
    }
  }

  lemma NoMoreFit(poolSize: nat, start: nat, blockSize: nat, k: nat)
    requires blockSize > 0 && BlockAt(start, blockSize, k) <= poolSize < BlockAt(start, blockSize, k) + blockSize
    ensures BlocksIn(poolSize, start, blockSize) == k
  {
    Decompose(k, poolSize - BlockAt(start, blockSize, k), blockSize);
  }

  lemma AllThreaded(p: Pool)
    requires Geometry(p) && p.rootOffset == Start(p.base, p.header)
    requires LinkedUpTo(p.memory, p.rootOffset, p.blockSize, p.blockCount, NULL_OFFSET)
    ensures Threaded(p, AllBlocks(p))
  {
    var all := AllBlocks(p);
    forall i: nat, j: nat | i < j < |all| ensures all[i] != all[j] {
      BlocksInOrder(p.rootOffset, p.blockSize, i, j);
    }
    assert BlockAt(p.rootOffset, p.blockSize, 0) == p.rootOffset;
  }

  // ---- operations on a message ----

  function Set(m: MessageState, container: nat, capacity: nat, offset: nat, used: nat): MessageState {
    m.(container := container, capacity := if capacity == 0 then used else capacity, offset := offset, used := used)
  }

  function Reset(m: MessageState): MessageState {
    m.(container := 0, capacity := 0, offset := 0, used := 0)
  }

  function SetEmpty(m: MessageState): MessageState {
    m.(used := 0, read := 0)
  }

  // The blocks change hands; what the source said goes with its block.
  function MoveTo(source: MessageState, target: MessageState): (MessageState, MessageState) {
    (source.(container := target.container, capacity := target.capacity, offset := target.offset, used := 0, read := 0),
     target.(container := source.container, capacity := source.capacity, offset := source.offset,
             used := source.used, read := source.read, meta := source.meta))
  }

  datatype Failure = PoolTooSmall | OutOfMemory | WrongAllocator | UsedBeyondCapacity | ReadBeyondUsed

  datatype Outcome = Done | Failed(why: Failure)

  function SetUsed(m: MessageState, used: nat): (MessageState, Outcome) {
    if used > m.capacity then (m, Failed(UsedBeyondCapacity)) else (m.(used := used), Done)
  }

  function SetRead(m: MessageState, read: nat): (MessageState, Outcome) {
    if read > m.used then (m, Failed(ReadBeyondUsed)) else (m.(read := read), Done)
  }

  // The used size is raised first, so a copy that does not fit writes nothing.
  function Append(memory: seq<Byte>, m: MessageState, data: seq<Byte>): (seq<Byte>, MessageState, Outcome) {
    var (raised, outcome) := SetUsed(m, m.used + |data|);
    if outcome.Failed? then (memory, m, outcome) else (WithBytes(memory, m.offset + m.used, data), raised, Done)
  }

  // ---- operations on the pool ----

  function TryAllocate(p: Pool, m: MessageState): (Pool, MessageState, bool) {
    if p.rootOffset == NULL_OFFSET then (p, m, false)
    else (p.(rootOffset := WordAt(p.memory, p.rootOffset)), Set(m, p.base, p.blockSize, p.rootOffset, 0), true)
  }

  function Release(p: Pool, m: MessageState): (Pool, MessageState, Outcome) {
    if m.container != p.base then (p, m, Failed(WrongAllocator))
    else (p.(memory := WithWord(p.memory, m.offset, p.rootOffset), rootOffset := m.offset), Reset(m), Done)
  }

  // The message is on a block of the pool, all of it.
  ghost predicate OnBlock(p: Pool, m: MessageState) {
    m.container == p.base && m.capacity == p.blockSize && IsBlock(p, m.offset)
  }

  lemma AllocateTakesFirst(p: Pool, free: seq<nat>, m: MessageState)
    requires Threaded(p, free)
    ensures var (q, n, ok) := TryAllocate(p, m);
      && (ok <==> free != [])
      && (ok ==>
            && Threaded(q, free[1..]) && OnBlock(q, n)
            && n.offset == free[0] && n.offset !in free[1..] && n.used == 0
            && n.read == m.read && n.meta == m.meta)
  {
    if free != [] {
      BlockInside(p, free[0]);
      assert forall i: nat :: Next(free[1..], i) == Next(free, i + 1);
    }
  }

  lemma PushLink(p: Pool, free: seq<nat>, block: nat)
    requires Threaded(p, free) && IsBlock(p, block) && block !in free
    ensures block + WORD <= |p.memory|
    ensures Links(WithWord(p.memory, block, p.rootOffset), block, [block] + free)
  {
    BlockInside(p, block);
    if free != [] { BlockInside(p, free[0]); }
    var memory := WithWord(p.memory, block, p.rootOffset);
    var all := [block] + free;
    WordWritten(p.memory, block, p.rootOffset);
    forall i: nat | i < |all| ensures WordAt(memory, all[i]) == Next(all, i + 1) {
      if i > 0 {
        BlockInside(p, free[i - 1]);
        BlocksApart(p, block, free[i - 1]);
        WordElsewhere(p.memory, block, p.rootOffset, free[i - 1]);
      }
    }
  }

  lemma ReleasePutsFirst(p: Pool, free: seq<nat>, m: MessageState)
    requires Threaded(p, free) && OnBlock(p, m) && m.offset !in free
    ensures var (q, n, outcome) := Release(p, m);
      && Threaded(q, [m.offset] + free) && outcome.Done?
      && n.container == 0 && n.capacity == 0 && n.used == 0 && n.read == m.read && n.meta == m.meta
  {
    PushLink(p, free, m.offset);
    var all := [m.offset] + free;
    forall i: nat | i < |all| ensures IsBlock(Release(p, m).0, all[i]) {
      assert IsBlock(p, all[i]);
    }
  }

  // Whoever writes inside a block that is not on the list leaves the list alone.
  lemma WritingLeavesList(p: Pool, free: seq<nat>, block: nat, memory: seq<Byte>)
    requires Threaded(p, free) && IsBlock(p, block) && block !in free && |memory| == |p.memory|
    requires forall i: nat | i < |memory| && (i < block || block + p.blockSize <= i) :: memory[i] == p.memory[i]
    ensures Threaded(p.(memory := memory), free)
  {
    forall i: nat | i < |free|
      ensures IsBlock(p.(memory := memory), free[i]) && WordAt(memory, free[i]) == Next(free, i + 1)
    {
      BlockInside(p, free[i]);
      BlocksApart(p, block, free[i]);
      WordUntouched(p.memory, memory, free[i]);
    }
  }

  // Appending stays inside the block.
  lemma AppendStaysInside(p: Pool, m: MessageState, data: seq<Byte>)
    requires Geometry(p) && OnBlock(p, m)
    ensures m.offset + m.capacity <= |p.memory|
    ensures var (memory, n, outcome) := Append(p.memory, m, data);
      && |memory| == |p.memory|
      && (outcome.Done? <==> m.used + |data| <= m.capacity)
      && (outcome.Done? ==>
            && n.used == m.used + |data|
            && memory[m.offset..m.offset + n.used] == p.memory[m.offset..m.offset + m.used] + data)
      && (forall i: nat | i < |memory| && (i < m.offset || m.offset + m.capacity <= i) :: memory[i] == p.memory[i])
  {
    BlockInside(p, m.offset);
  }

  // The layout never changes.
  predicate SameGeometry(p: Pool, q: Pool) {
    && q.base == p.base && q.header == p.header && q.poolSize == p.poolSize && q.blockSize == p.blockSize
    && q.blockCount == p.blockCount && |q.memory| == |p.memory|
  }

  lemma SameBlocks(p: Pool, q: Pool)
    requires SameGeometry(p, q)
    ensures Geometry(p) <==> Geometry(q)
    ensures forall o: nat :: IsBlock(p, o) <==> IsBlock(q, o)
    ensures forall m: MessageState :: OnBlock(p, m) <==> OnBlock(q, m)
  {
  }
}
