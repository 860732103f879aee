// The pool of blocks and the messages on them, with their fields updated in place and the memory an array of bytes.
// Each method is proved to do what BlockPoolSpec says; free is the list that the links in the memory spell out.
module BlockPool {
  import opened Words
  import opened Messages
  import opened BlockPoolSpec
  import Spec = BlockPoolSpec

  const UNUSED := Meta(0, 0, 0)

  class Message {
    var container: nat
    var capacity: nat
    var offset: nat
    var used: nat
    var read: nat
    var meta: Meta

    function State(): MessageState
      reads this
    {
      MessageState(container, capacity, offset, used, read, meta)
    }

    // The handle before its constructor asks the pool for a block.
    constructor ()
      ensures State() == MessageState(0, 0, 0, 0, 0, UNUSED)
    {
      container, capacity, offset, used, read, meta := 0, 0, 0, 0, 0, UNUSED;
    }

    method Set(container: nat, capacity: nat, offset: nat, used: nat)
      modifies this
      ensures State() == Spec.Set(old(State()), container, capacity, offset, used)
      ensures capacity == 0 || used <= capacity ==> this.used <= this.capacity
    {
      this.container := container;
      this.capacity := if capacity == 0 then used else capacity;
      this.offset := offset;
      this.used := used;
    }

    method Reset()
      modifies this
      ensures State() == Spec.Reset(old(State()))
      ensures container == 0 && capacity == 0 && used == 0
    {
      container, capacity, offset, used := 0, 0, 0, 0;
    }

    method SetEmpty()
      modifies this
      ensures State() == Spec.SetEmpty(old(State()))
    {
      used, read := 0, 0;
    }

    method SetUsed(used: nat) returns (outcome: Outcome)
      modifies this
      ensures (State(), outcome) == Spec.SetUsed(old(State()), used)
      ensures outcome.Done? <==> used <= capacity
      ensures old(this.used) <= capacity ==> this.used <= capacity
    {
      if used > capacity {
        return Failed(UsedBeyondCapacity);
      }
      this.used := used;
      return Done;
    }

    method SetRead(read: nat) returns (outcome: Outcome)
      modifies this
      ensures (State(), outcome) == Spec.SetRead(old(State()), read)
      ensures outcome.Done? <==> read <= used
      ensures old(this.read) <= used ==> this.read <= used
    {
      if read > used {
        return Failed(ReadBeyondUsed);
      }
      this.read := read;
      return Done;
    }

    // A message moved to itself only loses its contents.
    method MoveTo(target: Message)
      modifies this, target
      ensures this != target ==> (State(), target.State()) == Spec.MoveTo(old(State()), old(target.State()))
      ensures used == read == 0
      ensures this == target ==> State() == Spec.SetEmpty(old(State()))
    {
      container, target.container := target.container, container;
      capacity, target.capacity := target.capacity, capacity;
      offset, target.offset := target.offset, offset;
      target.used := used;
      target.read := read;
      target.meta := meta;
      used := 0;
      read := 0;
    }

    // The pool is the one at the address the message carries, if it carries one.
    method Release(pool: HQMemoryBlockPool)
      requires container != 0 ==>
        && pool.base == container && pool.Valid() && OnBlock(pool.State(), State())
        && offset !in pool.free
      modifies this, pool, pool.memory
      ensures old(container) == 0 ==>
        && State() == old(State()) && pool.State() == old(pool.State())
        && pool.free == old(pool.free)
      ensures old(container) != 0 ==>
        && pool.Valid() && pool.free == [old(offset)] + old(pool.free)
        && pool.State() == Spec.Release(old(pool.State()), old(State())).0 && State() == Spec.Reset(old(State()))
      ensures old(container) != 0 ==> container == 0 && capacity == 0 && used == 0
    {
      if container != 0 {
        var outcome := pool.Release(this);
      }
    }
  }

  class HQMemoryBlockPool {
    const base: nat
    const header: nat
    const memory: array<Byte>
    var poolSize: nat
    var blockSize: nat
    var blockCount: nat
    var rootOffset: nat
    ghost var free: seq<nat>

    function State(): Pool
      reads this, memory
    {
      Pool(base, header, memory[..], poolSize, blockSize, blockCount, rootOffset)
    }

    ghost predicate Valid()
      reads this, memory
    {
      Threaded(State(), free)
    }

    // The pool object in front of memory that holds nothing yet.
    constructor (base: nat, header: nat, memory: array<Byte>, poolSize: nat, blockSize: nat)
      ensures this.base == base && this.header == header && this.memory == memory
      ensures State() == Pool(base, header, memory[..], poolSize, CacheAligned(blockSize), 0, NULL_OFFSET) && free == []
    {
      this.base, this.header, this.memory := base, header, memory;
      this.poolSize, this.blockSize, this.blockCount := poolSize, CacheAligned(blockSize), 0;
      rootOffset := NULL_OFFSET;
      free := [];
    }

    method WriteBytes(offset: nat, data: seq<Byte>)
      requires offset + |data| <= memory.Length
      modifies memory
      ensures memory[..] == WithBytes(old(memory[..]), offset, data)
    {
      forall i | 0 <= i < |data| {
        memory[offset + i] := data[i];
      }
    }

    method WriteWord(offset: nat, w: nat)
      requires offset + WORD <= memory.Length
      modifies memory
      ensures memory[..] == WithWord(old(memory[..]), offset, w)
    {
      WriteBytes(offset, ToBytes(w, WORD));
    }

    method ReadWord(offset: nat) returns (w: nat)
      requires offset + WORD <= memory.Length
      ensures w == WordAt(memory[..], offset)
    {
      w := FromBytes(memory[offset..offset + WORD]);
      assert memory[offset..offset + WORD] == memory[..][offset..offset + WORD];
    }

    // As the constructor calls it: with the sizes it has just stored.
    method PreAllocate() returns (outcome: Outcome)
      requires base > 0 && blockSize > 0 && blockSize % CACHE_LINE == 0 && poolSize <= memory.Length
        && poolSize < NULL_OFFSET
      modifies this, memory
      ensures outcome == if Start(base, header) + blockSize > poolSize then Failed(PoolTooSmall) else Done
      ensures outcome.Failed? ==> State() == old(State()) && free == old(free)
      ensures outcome.Done? ==>
        && Valid() && free == AllBlocks(State()) && poolSize == old(poolSize) && blockSize == old(blockSize)
        && blockCount == BlocksIn(poolSize, Start(base, header), blockSize)
    {
      WholeLines(blockSize);
      var current := Start(base, header);
      if current + blockSize > poolSize {
        return Failed(PoolTooSmall);
      }
      ThreadBlocks(current);
      free := AllBlocks(State());
      AllThreaded(State());
      return Done;
    }

    // Each block that fits is linked to the next.
    method ThreadBlocks(start: nat)
      requires WORD <= blockSize && start + blockSize <= poolSize <= memory.Length && poolSize < NULL_OFFSET
      modifies this, memory
      ensures poolSize == old(poolSize) && blockSize == old(blockSize) && rootOffset == start
      ensures blockCount > 0 && blockCount == BlocksIn(poolSize, start, blockSize)
      ensures BlockAt(start, blockSize, blockCount) <= poolSize
      ensures LinkedUpTo(memory[..], start, blockSize, blockCount, NULL_OFFSET)
    {
      blockCount := 0;
      var current := start;
      rootOffset := current;
      while current != NULL_OFFSET
        invariant poolSize == old(poolSize) && blockSize == old(blockSize) && rootOffset == start
        invariant current != NULL_OFFSET ==>
          && current == BlockAt(start, blockSize, blockCount)
          && current + blockSize <= poolSize
        invariant current == NULL_OFFSET ==>
          blockCount > 0
          && BlockAt(start, blockSize, blockCount) <= poolSize < BlockAt(start, blockSize, blockCount) + blockSize
        invariant LinkedUpTo(memory[..], start, blockSize, blockCount, current)
        decreases if current == NULL_OFFSET then 0 else poolSize - current
      {
        var next := current + blockSize;
        BlockAfter(start, blockSize, blockCount);
        if next + blockSize > poolSize {
          next := NULL_OFFSET;
        }
        LinkOne(memory[..], start, blockSize, blockCount, next);
        WriteWord(current, next);
        current := next;
        blockCount := blockCount + 1;
      }
      NoMoreFit(poolSize, start, blockSize, blockCount);
    }

    method TryAllocate(message: Message) returns (ok: bool)
      requires Valid()
      modifies this, message
      ensures Valid() && ok == (old(free) != []) && free == if ok then old(free)[1..] else []
      ensures (State(), message.State(), ok) == Spec.TryAllocate(old(State()), old(message.State()))
      ensures ok ==> OnBlock(State(), message.State()) && message.offset == old(free)[0] && message.offset !in free
    {
      AllocateTakesFirst(State(), free, message.State());
      var offset := rootOffset;
      ok := offset != NULL_OFFSET;
      if ok {
        BlockInside(State(), free[0]);
        rootOffset := ReadWord(offset);
        message.Set(base, blockSize, offset, 0);
        free := free[1..];
      }
    }

    method Allocate(message: Message) returns (outcome: Outcome)
      requires Valid()
      modifies this, message
      ensures Valid() && outcome == if old(free) == [] then Failed(OutOfMemory) else Done
      ensures (State(), message.State(), outcome.Done?) == Spec.TryAllocate(old(State()), old(message.State()))
      ensures free == if outcome.Done? then old(free)[1..] else []
      ensures outcome.Done? ==>
        && OnBlock(State(), message.State()) && message.offset == old(free)[0]
        && message.offset !in free
    {
      var ok := TryAllocate(message);
      return if ok then Done else Failed(OutOfMemory);
    }

    // Only a message on a block of this pool that is not free may come back; one from elsewhere is refused.
    method Release(message: Message) returns (outcome: Outcome)
      requires Valid() && (message.container == base ==> OnBlock(State(), message.State()) && message.offset !in free)
      modifies this, memory, message
      ensures Valid() && outcome == if old(message.container) == base then Done else Failed(WrongAllocator)
      ensures outcome.Done? ==>
        && free == [old(message.offset)] + old(free)
        && State() == Spec.Release(old(State()), old(message.State())).0
        && message.State() == Spec.Reset(old(message.State()))
      ensures outcome.Failed? ==>
        && State() == old(State()) && message.State() == old(message.State())
        && free == old(free)
    {
      if message.container != base {
        return Failed(WrongAllocator);
      }
      BlockInside(State(), message.offset);
      ReleasePutsFirst(State(), free, message.State());
      WriteWord(message.offset, rootOffset);
      rootOffset := message.offset;
      free := [message.offset] + free;
      message.Reset();
      return Done;
    }

    method IsEmpty() returns (empty: bool)
      requires Valid()
      ensures empty <==> free == []
    {
      if free != [] { BlockInside(State(), free[0]); }
      empty := rootOffset == NULL_OFFSET;
    }

    // appendBinaryCopy: the used size first, then the bytes behind what the message already says.
    method Append(message: Message, data: seq<Byte>) returns (outcome: Outcome)
      requires Valid() && OnBlock(State(), message.State()) && message.offset !in free
      modifies memory, message
      ensures Valid() && message.offset == old(message.offset) && OnBlock(State(), message.State())
      ensures outcome == if old(message.used) + |data| > message.capacity then Failed(UsedBeyondCapacity) else Done
      ensures outcome.Failed? ==> memory[..] == old(memory[..]) && message.State() == old(message.State())
      ensures outcome.Done? ==>
        && message.State() == old(message.State()).(used := old(message.used) + |data|)
        && memory[..] == WithBytes(old(memory[..]), message.offset + old(message.used), data)
    {
      BlockInside(State(), message.offset);
      var position := message.offset + message.used;
      outcome := message.SetUsed(message.used + |data|);
      if outcome.Failed? {
        return;
      }
      ghost var before := State();
      WriteBytes(position, data);
      WritingLeavesList(before, free, message.offset, memory[..]);
    }
  }

  class MemoryPool {
    const allocatedSize: nat
    const pool: HQMemoryBlockPool
    var numberOfAllocations: nat
    // Failed where the constructor throws.
    var constructed: Outcome

    ghost predicate Valid()
      reads this, pool, pool.memory
    {
      pool.Valid()
    }

    // base is where the memory happens to lie. A pool for no messages is made if a block fits in the spare room.
    constructor (blockSize: nat, count: nat, base: nat, header: nat)
      requires blockSize > 0 && base > 0
      requires SpaceNeeded(header, blockSize, count) + CACHE_LINE < NULL_OFFSET
      ensures fresh(pool) && fresh(pool.memory) && numberOfAllocations == 0
      ensures allocatedSize == pool.memory.Length == pool.poolSize
      ensures constructed ==
        if count == 0 && Start(base, header) + CacheAligned(blockSize) > header + 2 * CACHE_LINE
          then Failed(PoolTooSmall)
        else Done
      ensures constructed.Done? ==>
        && Valid() && pool.base == base && pool.free == AllBlocks(pool.State())
        && pool.blockSize == CacheAligned(blockSize)
        && count <= pool.blockCount <= count + 2 && pool.blockCount > 0
    {
      allocatedSize := SpaceNeeded(header, blockSize, count) + CACHE_LINE;
      var memory := new Byte[SpaceNeeded(header, blockSize, count) + CACHE_LINE];
      pool := new HQMemoryBlockPool(
        base, header, memory, SpaceNeeded(header, blockSize, count) + CACHE_LINE, blockSize);
      numberOfAllocations := 0;
      constructed := Done;
      new;
      AtLeastOneLine(blockSize);
      OneOrTwoMore(base, header, blockSize, count);
      if count > 0 {
        RoomForOne(base, header, blockSize, count);
      }
      constructed := pool.PreAllocate();
    }

    method TryAllocate(message: Message) returns (ok: bool)
      requires Valid()
      modifies this, pool, message
      ensures Valid() && ok == (old(pool.free) != [])
      ensures pool.free == if ok then old(pool.free)[1..] else []
      ensures numberOfAllocations == old(numberOfAllocations) + if ok then 1 else 0
      ensures ok ==>
        && OnBlock(pool.State(), message.State()) && message.offset == old(pool.free)[0]
        && message.offset !in pool.free
      ensures !ok ==> message.State() == old(message.State())
    {
      ok := pool.TryAllocate(message);
      if ok {
        numberOfAllocations := numberOfAllocations + 1;
      }
    }

    method Allocate(message: Message) returns (outcome: Outcome)
      requires Valid()
      modifies this, pool, message
      ensures Valid() && outcome == if old(pool.free) == [] then Failed(OutOfMemory) else Done
      ensures pool.free == if outcome.Done? then old(pool.free)[1..] else []
      ensures numberOfAllocations == old(numberOfAllocations) + if outcome.Done? then 1 else 0
      ensures SameGeometry(old(pool.State()), pool.State())
      ensures outcome.Done? ==>
        OnBlock(pool.State(), message.State()) && message.offset == old(pool.free)[0] && message.offset !in pool.free
    {
      outcome := pool.Allocate(message);
      if outcome.Done? {
        numberOfAllocations := numberOfAllocations + 1;
      }
    }
  }
}
