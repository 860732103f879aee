// Who holds which block: a pool, any number of messages, and any sequence of operations on them.
module Custody {
  import opened Words
  import opened Messages
  import opened BlockPoolSpec
  import Spec = BlockPoolSpec

  datatype System = System(pool: Pool, handles: seq<MessageState>)

  // AllocateElsewhere is an allocation from another pool. Release is Message.release, run by the destructor too, and
  // ReturnTo the release called on this pool. Poke is a write through the pointer the message gives out.
  datatype Action =
    | Allocate(h: nat)
    | AllocateElsewhere(h: nat, container: nat, capacity: nat, offset: nat)
    | Release(h: nat)
    | ReturnTo(h: nat)
    | Move(h: nat, to: nat)
    | SetUsed(h: nat, used: nat)
    | SetRead(h: nat, read: nat)
    | SetEmpty(h: nat)
    | SetMeta(h: nat, meta: Meta)
    | Append(h: nat, data: seq<Byte>)
    | Poke(h: nat, position: nat, byte: Byte)

  predicate Attached(s: System, h: nat) {
    h < |s.handles| && s.handles[h].container == s.pool.base
  }

  function WithHandle(s: System, h: nat, m: MessageState): System
    requires h < |s.handles|
  {
    s.(handles := s.handles[h := m])
  }

  function Returned(s: System, h: nat): System
    requires h < |s.handles|
  {
    var (pool, m, _) := Spec.Release(s.pool, s.handles[h]);
    System(pool, s.handles[h := m])
  }

  function Moved(s: System, h: nat, to: nat): System
    requires h < |s.handles| && to < |s.handles|
  {
    if h == to then WithHandle(s, h, Spec.SetEmpty(s.handles[h]))
    else
      var (source, target) := Spec.MoveTo(s.handles[h], s.handles[to]);
      s.(handles := s.handles[h := source][to := target])
  }

  function Appended(s: System, h: nat, data: seq<Byte>): System
    requires h < |s.handles|
  {
    var (memory, m, _) := Spec.Append(s.pool.memory, s.handles[h], data);
    if Attached(s, h) then System(s.pool.(memory := memory), s.handles[h := m]) else WithHandle(s, h, m)
  }

  function Step(s: System, a: Action): System {
    if a.h >= |s.handles| then s
    else
      var m := s.handles[a.h];
      match a
      case Allocate(h) =>
        var (pool, n, _) := Spec.TryAllocate(s.pool, m);
        System(pool, s.handles[h := n])
      case AllocateElsewhere(h, container, capacity, offset) =>
        if container == 0 || container == s.pool.base then s
        else WithHandle(s, h, Spec.Set(m, container, capacity, offset, 0))
      case Release(h) =>
        if m.container == 0 then s
        else if Attached(s, h) then Returned(s, h)
        else WithHandle(s, h, Spec.Reset(m))
      case ReturnTo(h) => Returned(s, h)
      case Move(h, to) => if to < |s.handles| then Moved(s, h, to) else s
      case SetUsed(h, used) => WithHandle(s, h, Spec.SetUsed(m, used).0)
      case SetRead(h, read) => WithHandle(s, h, Spec.SetRead(m, read).0)
      case SetEmpty(h) => WithHandle(s, h, Spec.SetEmpty(m))
      case SetMeta(h, meta) => WithHandle(s, h, m.(meta := meta))
      case Append(h, data) => Appended(s, h, data)
      case Poke(h, position, byte) =>
        if Attached(s, h) && position < m.capacity then
          s.(pool := s.pool.(memory := WithBytes(s.pool.memory, m.offset + position, [byte])))
        else s
  }

  // ---- one holder at most ----

  // The links spell out free, and every message of the pool is alone on a whole block that is not free.
  ghost predicate Orderly(s: System, free: seq<nat>) {
    && Threaded(s.pool, free)
    && (forall h: nat | Attached(s, h) ::
          && OnBlock(s.pool, s.handles[h]) && s.handles[h].offset !in free
          && s.handles[h].used <= s.handles[h].capacity)
    && (forall h: nat, k: nat | Attached(s, h) && Attached(s, k) && h != k ::
          s.handles[h].offset != s.handles[k].offset)
  }

  // Changes to one handle that leave it where it is.
  lemma HandleKept(s: System, free: seq<nat>, h: nat, m: MessageState)
    requires Orderly(s, free) && h < |s.handles|
    requires m.container == s.handles[h].container && m.capacity == s.handles[h].capacity
      && m.offset == s.handles[h].offset
    requires m.used <= m.capacity || m.container != s.pool.base
    ensures Orderly(WithHandle(s, h, m), free)
  {
    var t := WithHandle(s, h, m);
    forall k: nat | Attached(t, k)
      ensures Attached(s, k) && t.handles[k].offset == s.handles[k].offset && OnBlock(t.pool, t.handles[k])
    {
    }
  }

  // The handle is taken off the pool's blocks.
  lemma HandleGone(s: System, free: seq<nat>, h: nat, m: MessageState)
    requires Orderly(s, free) && h < |s.handles| && m.container != s.pool.base
    ensures Orderly(WithHandle(s, h, m), free)
  {
    var t := WithHandle(s, h, m);
    forall k: nat | Attached(t, k) ensures Attached(s, k) && t.handles[k] == s.handles[k] {
    }
  }

  lemma AllocateOrderly(s: System, free: seq<nat>, h: nat)
    requires Orderly(s, free) && h < |s.handles| && free != []
    ensures var t := Step(s, Allocate(h));
      Orderly(t, free[1..]) && SameGeometry(s.pool, t.pool) && Attached(t, h) && t.handles[h].offset == free[0]
      && forall k: nat | k != h :: Attached(t, k) <==> Attached(s, k)
  {
    AllocateTakesFirst(s.pool, free, s.handles[h]);
    var t := Step(s, Allocate(h));
    SameBlocks(s.pool, t.pool);
    assert free[0] in free;
    forall k: nat | k != h && Attached(t, k)
      ensures Attached(s, k) && t.handles[k] == s.handles[k] && s.handles[k].offset !in free[1..]
    {
    }
  }

  lemma AllocateFails(s: System, h: nat)
    requires Orderly(s, []) && h < |s.handles|
    ensures Step(s, Allocate(h)) == s
  {
  }

  lemma ReturnOrderly(s: System, free: seq<nat>, h: nat)
    requires Orderly(s, free) && Attached(s, h)
    ensures var t := Returned(s, h);
      Orderly(t, [s.handles[h].offset] + free) && SameGeometry(s.pool, t.pool) && !Attached(t, h)
      && forall k: nat | k != h :: Attached(t, k) <==> Attached(s, k)
  {
    ReleasePutsFirst(s.pool, free, s.handles[h]);
    var t := Returned(s, h);
    SameBlocks(s.pool, t.pool);
    forall k: nat | Attached(t, k) ensures k != h && Attached(s, k) && t.handles[k] == s.handles[k] {
    }
  }

  lemma MoveOrderly(s: System, free: seq<nat>, h: nat, to: nat)
    requires Orderly(s, free) && h < |s.handles| && to < |s.handles|
    ensures Orderly(Moved(s, h, to), free)
  {
    if h == to {
      HandleKept(s, free, h, Spec.SetEmpty(s.handles[h]));
    } else {
      var t := Moved(s, h, to);
      forall k: nat | Attached(t, k)
        ensures var j := if k == h then to else if k == to then h else k;
          Attached(s, j) && t.handles[k].offset == s.handles[j].offset && t.handles[k].capacity == s.handles[j].capacity
      {
      }
    }
  }

  // Bytes written inside the block of a message.
  lemma WriteOrderly(s: System, free: seq<nat>, h: nat, memory: seq<Byte>)
    requires Orderly(s, free) && Attached(s, h) && |memory| == |s.pool.memory|
    requires forall i: nat | i < |memory| && (i < s.handles[h].offset || s.handles[h].offset + s.pool.blockSize <= i) ::
      memory[i] == s.pool.memory[i]
    ensures Orderly(s.(pool := s.pool.(memory := memory)), free)
  {
    WritingLeavesList(s.pool, free, s.handles[h].offset, memory);
    SameBlocks(s.pool, s.pool.(memory := memory));
  }

  lemma AppendOrderly(s: System, free: seq<nat>, h: nat, data: seq<Byte>)
    requires Orderly(s, free) && h < |s.handles|
    ensures Orderly(Appended(s, h, data), free)
  {
    var (memory, m, outcome) := Spec.Append(s.pool.memory, s.handles[h], data);
    if Attached(s, h) {
      AppendStaysInside(s.pool, s.handles[h], data);
      WriteOrderly(s, free, h, memory);
      HandleKept(s.(pool := s.pool.(memory := memory)), free, h, m);
    } else {
      HandleGone(s, free, h, m);
    }
  }

  lemma PokeOrderly(s: System, free: seq<nat>, h: nat, position: nat, byte: Byte)
    requires Orderly(s, free)
    ensures Orderly(Step(s, Poke(h, position, byte)), free)
  {
    if Attached(s, h) && position < s.handles[h].capacity {
      BlockInside(s.pool, s.handles[h].offset);
      WriteOrderly(s, free, h, WithBytes(s.pool.memory, s.handles[h].offset + position, [byte]));
    }
  }

  // The free list after a step.
  function FreeAfter(s: System, free: seq<nat>, a: Action): seq<nat> {
    if a.Allocate? && a.h < |s.handles| && free != [] then free[1..]
    else if (a.Release? || a.ReturnTo?) && Attached(s, a.h) then [s.handles[a.h].offset] + free
    else free
  }

  lemma StepOrderly(s: System, free: seq<nat>, a: Action)
    requires Orderly(s, free)
    ensures Orderly(Step(s, a), FreeAfter(s, free, a))
  {
    if a.h < |s.handles| {
      var m := s.handles[a.h];
      match a
      case Allocate(h) => if free == [] { AllocateFails(s, h); } else { AllocateOrderly(s, free, h); }
      case AllocateElsewhere(h, container, capacity, offset) =>
        if container != 0 && container != s.pool.base {
          HandleGone(s, free, h, Spec.Set(m, container, capacity, offset, 0));
        }
      case Release(h) =>
        if Attached(s, h) { ReturnOrderly(s, free, h); } else { HandleGone(s, free, h, Spec.Reset(m)); }
      case ReturnTo(h) => if Attached(s, h) { ReturnOrderly(s, free, h); } else { HandleGone(s, free, h, m); }
      case Move(h, to) => if to < |s.handles| { MoveOrderly(s, free, h, to); }
      case SetUsed(h, used) => HandleKept(s, free, h, Spec.SetUsed(m, used).0);
      case SetRead(h, read) => HandleKept(s, free, h, Spec.SetRead(m, read).0);
      case SetEmpty(h) => HandleKept(s, free, h, Spec.SetEmpty(m));
      case SetMeta(h, meta) => HandleKept(s, free, h, m.(meta := meta));
      case Append(h, data) => AppendOrderly(s, free, h, data);
      case Poke(h, position, byte) => PokeOrderly(s, free, h, position, byte);
    }
  }

  // ---- no block lost ----

  ghost predicate Holder(s: System, block: nat) {
    exists h: nat :: Attached(s, h) && s.handles[h].offset == block
  }

  // Every block is free or under a message.
  ghost predicate Complete(s: System, free: seq<nat>) {
    forall block: nat | IsBlock(s.pool, block) :: block in free || Holder(s, block)
  }

  // A successful allocation into a message that is on a block of this pool: the block it was on is forgotten.
  predicate Overwrites(s: System, a: Action) {
    && Attached(s, a.h)
    && match a
       case Allocate(_) => s.pool.rootOffset != NULL_OFFSET
       case AllocateElsewhere(_, container, _, _) => container != 0 && container != s.pool.base
       case _ => false
  }

  lemma StepGeometry(s: System, free: seq<nat>, a: Action)
    requires Orderly(s, free)
    ensures SameGeometry(s.pool, Step(s, a).pool) && |Step(s, a).handles| == |s.handles|
  {
    if a.Allocate? && a.h < |s.handles| && free != [] {
      AllocateOrderly(s, free, a.h);
    }
  }

  // What is free or held after a step was so before it.
  lemma NothingAppears(s: System, free: seq<nat>, a: Action, block: nat)
    requires Orderly(s, free) && (block in FreeAfter(s, free, a) || Holder(Step(s, a), block))
    ensures block in free || Holder(s, block)
  {
    var t := Step(s, a);
    if block in FreeAfter(s, free, a) {
      if block !in free { assert Attached(s, a.h) && s.handles[a.h].offset == block; }
    } else {
      var h: nat :| Attached(t, h) && t.handles[h].offset == block;
      if a.Allocate? && a.h < |s.handles| && free != [] {
        AllocateOrderly(s, free, a.h);
        if h != a.h { assert Attached(s, h); }
      } else {
        var j := if a.Move? && a.h < |s.handles| && a.to < |s.handles| && h == a.h then a.to
                 else if a.Move? && a.h < |s.handles| && h == a.to then a.h else h;
        assert Attached(s, j) && s.handles[j].offset == block;
      }
    }
  }

  // Unless an allocation overwrites a message, what was free or held still is.
  lemma NothingVanishes(s: System, free: seq<nat>, a: Action, block: nat)
    requires Orderly(s, free) && !Overwrites(s, a) && (block in free || Holder(s, block))
    ensures block in FreeAfter(s, free, a) || Holder(Step(s, a), block)
  {
    var t := Step(s, a);
    if a.Allocate? && a.h < |s.handles| && free != [] {
      AllocateOrderly(s, free, a.h);
      if block == free[0] {
        assert Attached(t, a.h) && t.handles[a.h].offset == block;
      } else if block !in free {
        var h: nat :| Attached(s, h) && s.handles[h].offset == block;
        assert h != a.h && Attached(t, h) && t.handles[h].offset == block;
      }
    } else if block !in free {
      var h: nat :| Attached(s, h) && s.handles[h].offset == block;
      var j := if a.Move? && a.h < |s.handles| && a.to < |s.handles| && h == a.h then a.to
               else if a.Move? && a.h < |s.handles| && h == a.to then a.h else h;
      if !((a.Release? || a.ReturnTo?) && h == a.h) {
        assert Attached(t, j) && t.handles[j].offset == block;
      }
    }
  }

  // The block under a message that is overwritten is lost.
  lemma OverwritingLoses(s: System, free: seq<nat>, a: Action)
    requires Orderly(s, free) && Overwrites(s, a)
    ensures s.handles[a.h].offset !in FreeAfter(s, free, a) && !Holder(Step(s, a), s.handles[a.h].offset)
  {
    var t := Step(s, a);
    var block := s.handles[a.h].offset;
    if a.Allocate? { AllocateOrderly(s, free, a.h); }
    forall h: nat | Attached(t, h) ensures t.handles[h].offset != block {
      if h == a.h {
        assert t.handles[h].offset in free;
      } else {
        assert Attached(s, h) && t.handles[h] == s.handles[h];
      }
    }
  }

  // A step keeps every block accounted for exactly if it overwrites no message, and a lost block never comes back.
  lemma StepComplete(s: System, free: seq<nat>, a: Action)
    requires Orderly(s, free)
    ensures Complete(Step(s, a), FreeAfter(s, free, a)) <==> Complete(s, free) && !Overwrites(s, a)
  {
    var t, left := Step(s, a), FreeAfter(s, free, a);
    StepGeometry(s, free, a);
    SameBlocks(s.pool, t.pool);
    if Complete(s, free) && !Overwrites(s, a) {
      forall block: nat | IsBlock(t.pool, block) ensures block in left || Holder(t, block) {
        NothingVanishes(s, free, a, block);
      }
    }
    if Overwrites(s, a) {
      OverwritingLoses(s, free, a);
      assert IsBlock(t.pool, s.handles[a.h].offset);
    }
    if !Complete(s, free) {
      var block: nat :| IsBlock(s.pool, block) && block !in free && !Holder(s, block);
      if Complete(t, left) { NothingAppears(s, free, a, block); }
    }
  }

  // ---- runs ----

  function After(s: System, actions: seq<Action>): System
    decreases |actions|
  {
    if actions == [] then s else After(Step(s, actions[0]), actions[1..])
  }

  function FreeAfterAll(s: System, free: seq<nat>, actions: seq<Action>): seq<nat>
    decreases |actions|
  {
    if actions == [] then free else FreeAfterAll(Step(s, actions[0]), FreeAfter(s, free, actions[0]), actions[1..])
  }

  lemma {:induction false} AfterJoin(s: System, first: seq<Action>, second: seq<Action>)
    ensures After(s, first + second) == After(After(s, first), second)
    decreases |first|
  {
    if first == [] {
      assert first + second == second;
    } else {
      assert (first + second)[1..] == first[1..] + second;
      AfterJoin(Step(s, first[0]), first[1..], second);
    }
  }

  // No allocation of the run overwrites a message.
  predicate Careful(s: System, actions: seq<Action>)
    decreases |actions|
  {
    actions != [] ==> !Overwrites(s, actions[0]) && Careful(Step(s, actions[0]), actions[1..])
  }

  // Through any mix of operations the free list stays a list of distinct blocks, no block is free and held or held
  // twice, and all of them are accounted for exactly if no allocation was made into a message still on one.
  lemma {:induction false} EveryBlockHasOneHolder(s: System, free: seq<nat>, actions: seq<Action>)
    requires Orderly(s, free)
    ensures Orderly(After(s, actions), FreeAfterAll(s, free, actions))
    ensures SameGeometry(s.pool, After(s, actions).pool)
    ensures Complete(After(s, actions), FreeAfterAll(s, free, actions)) <==> Complete(s, free) && Careful(s, actions)
    decreases |actions|
  {
    if actions == [] {
    } else {
      StepOrderly(s, free, actions[0]);
      StepGeometry(s, free, actions[0]);
      StepComplete(s, free, actions[0]);
      EveryBlockHasOneHolder(Step(s, actions[0]), FreeAfter(s, free, actions[0]), actions[1..]);
    }
  }

  // Releasing twice is releasing once.
  lemma ReleaseTwice(s: System, h: nat)
    requires s.pool.base > 0
    ensures After(s, [Release(h), Release(h)]) == Step(s, Release(h))
  {
    var t := Step(s, Release(h));
    assert Step(t, Release(h)) == t;
    assert [Release(h), Release(h)][1..] == [Release(h)];
    assert [Release(h)][1..] == [];
    assert After(t, [Release(h)]) == After(Step(t, Release(h)), []);
  }

  // ---- what a message says ----

  datatype Text = Text(bytes: seq<Byte>, read: nat, meta: Meta)

  // The bytes in use, how far they have been read, and what travels with them.
  ghost function Says(s: System, h: nat): Text
    requires Attached(s, h) && s.handles[h].offset + s.handles[h].used <= |s.pool.memory|
  {
    var m := s.handles[h];
    Text(s.pool.memory[m.offset..m.offset + m.used], m.read, m.meta)
  }

  predicate InBounds(s: System, h: nat) {
    Attached(s, h) && s.handles[h].offset + s.handles[h].used <= |s.pool.memory|
  }

  lemma AttachedInBounds(s: System, free: seq<nat>, h: nat)
    requires Orderly(s, free) && Attached(s, h)
    ensures InBounds(s, h)
  {
    BlockInside(s.pool, s.handles[h].offset);
  }

  // Where what message h says is after an action: moves carry it along, and it is gone when the message that has it is
  // written, released, allocated into or moved onto.
  function Follow(s: System, h: nat, a: Action): int {
    if a.Move? && a.h < |s.handles| && a.to < |s.handles| then
      if a.h == a.to then (if h == a.h then -1 else h)
      else if h == a.h then a.to
      else if h == a.to then -1
      else h
    else if a.h == h then -1
    else h
  }

  // Memory outside the blocks and blocks of others stay as they are.
  lemma StepKeepsBlock(s: System, free: seq<nat>, a: Action, h: nat)
    requires Orderly(s, free) && Attached(s, h) && (a.Move? || a.h != h)
    ensures var b := s.handles[h].offset;
      && b + s.pool.blockSize <= |s.pool.memory| == |Step(s, a).pool.memory|
      && Step(s, a).pool.memory[b..b + s.pool.blockSize] == s.pool.memory[b..b + s.pool.blockSize]
  {
    StepGeometry(s, free, a);
    BlockInside(s.pool, s.handles[h].offset);
    if Attached(s, a.h) {
      BlockInside(s.pool, s.handles[a.h].offset);
      if h != a.h { BlocksApart(s.pool, s.handles[h].offset, s.handles[a.h].offset); }
      if a.Append? { AppendStaysInside(s.pool, s.handles[a.h], a.data); }
    }
  }

  lemma HandleFollowed(s: System, a: Action, h: nat)
    requires Attached(s, h) && Follow(s, h, a) >= 0
    ensures var t, k := Step(s, a), Follow(s, h, a);
      && Attached(t, k) && t.handles[k].offset == s.handles[h].offset && t.handles[k].used == s.handles[h].used
      && t.handles[k].read == s.handles[h].read && t.handles[k].meta == s.handles[h].meta
  {
  }

  lemma SaysOn(s: System, free: seq<nat>, a: Action, h: nat)
    requires Orderly(s, free) && Attached(s, h) && Follow(s, h, a) >= 0
    ensures InBounds(s, h) && InBounds(Step(s, a), Follow(s, h, a))
    ensures Says(Step(s, a), Follow(s, h, a)) == Says(s, h)
  {
    AttachedInBounds(s, free, h);
    StepKeepsBlock(s, free, a, h);
    HandleFollowed(s, a, h);
    SaysTheSame(s, Step(s, a), h, Follow(s, h, a), s.pool.blockSize);
  }

  lemma SaysTheSame(s: System, t: System, h: nat, k: nat, size: nat)
    requires InBounds(s, h) && Attached(t, k)
    requires t.handles[k].offset == s.handles[h].offset && t.handles[k].used == s.handles[h].used <= size
    requires t.handles[k].read == s.handles[h].read && t.handles[k].meta == s.handles[h].meta
    requires s.handles[h].offset + size <= |s.pool.memory| == |t.pool.memory|
    requires t.pool.memory[s.handles[h].offset..s.handles[h].offset + size]
          == s.pool.memory[s.handles[h].offset..s.handles[h].offset + size]
    ensures InBounds(t, k) && Says(t, k) == Says(s, h)
  {
    SameBeginning(s.pool.memory, t.pool.memory, s.handles[h].offset, s.handles[h].used, size);
  }

  lemma SameBeginning(x: seq<Byte>, y: seq<Byte>, from: nat, n: nat, size: nat)
    requires n <= size && from + size <= |x| == |y| && x[from..from + size] == y[from..from + size]
    ensures x[from..from + n] == y[from..from + n]
  {
    assert x[from..from + n] == x[from..from + size][..n];
    assert y[from..from + n] == y[from..from + size][..n];
  }

  function FollowAll(s: System, h: nat, actions: seq<Action>): int
    decreases |actions|
  {
    if actions == [] then h
    else
      var k := Follow(s, h, actions[0]);
      if k < 0 then -1 else FollowAll(Step(s, actions[0]), k, actions[1..])
  }

  // What was written into a message is what is read from the message it has been moved to, however often and
  // whatever else happens on the way.
  lemma {:induction false} WrittenIsRead(s: System, free: seq<nat>, actions: seq<Action>, h: nat)
    requires Orderly(s, free) && Attached(s, h) && FollowAll(s, h, actions) >= 0
    ensures InBounds(s, h) && InBounds(After(s, actions), FollowAll(s, h, actions))
    ensures Says(After(s, actions), FollowAll(s, h, actions)) == Says(s, h)
    decreases |actions|
  {
    AttachedInBounds(s, free, h);
    if actions == [] {
    } else {
      SaysOn(s, free, actions[0], h);
      StepOrderly(s, free, actions[0]);
      WrittenIsRead(Step(s, actions[0]), FreeAfter(s, free, actions[0]), actions[1..], Follow(s, h, actions[0]));
    }
  }

  // ---- from the beginning ----

  // A pool just made and messages on none of its blocks.
  lemma StartsComplete(s: System)
    requires Threaded(s.pool, AllBlocks(s.pool)) && forall h: nat :: !Attached(s, h)
    ensures Orderly(s, AllBlocks(s.pool)) && Complete(s, AllBlocks(s.pool))
  {
    forall block: nat | IsBlock(s.pool, block) ensures block in AllBlocks(s.pool) {
      var k: nat :| k < s.pool.blockCount && block == BlockAt(Start(s.pool.base, s.pool.header), s.pool.blockSize, k);
      assert AllBlocks(s.pool)[k] == block;
    }
  }

  // The allocations of a run that puts one block under each of the first n messages.
  function Constructions(n: nat): (r: seq<Action>)
    ensures |r| == n
  {
    seq(n, (h: nat) requires h < n => Allocate(h))
  }

  // Constructing n messages takes n blocks, all different, and succeeds if there are so many.
  lemma {:induction false} ConstructAll(s: System, free: seq<nat>, from: nat, n: nat)
    requires Orderly(s, free) && from <= n <= |s.handles| && n - from <= |free|
    requires forall h: nat :: Attached(s, h) <==> h < from
    ensures var t := After(s, Constructions(n)[from..]);
      && Orderly(t, free[n - from..]) && (forall h: nat :: Attached(t, h) <==> h < n) && |t.handles| == |s.handles|
    ensures FreeAfterAll(s, free, Constructions(n)[from..]) == free[n - from..] && Careful(s, Constructions(n)[from..])
    decreases n - from
  {
    var rest := Constructions(n)[from..];
    if from == n {
    } else {
      ConstructOne(s, free, from);
      assert rest[1..] == Constructions(n)[from + 1..];
      assert free[1..][n - (from + 1)..] == free[n - from..];
      ConstructAll(Step(s, Allocate(from)), free[1..], from + 1, n);
    }
  }

  // The next message gets the first free block.
  lemma ConstructOne(s: System, free: seq<nat>, from: nat)
    requires Orderly(s, free) && from < |s.handles| && free != []
    requires forall h: nat :: Attached(s, h) <==> h < from
    ensures var t := Step(s, Allocate(from));
      && Orderly(t, free[1..]) && |t.handles| == |s.handles| && (forall h: nat :: Attached(t, h) <==> h < from + 1)
      && FreeAfter(s, free, Allocate(from)) == free[1..] && !Overwrites(s, Allocate(from))
  {
    AllocateOrderly(s, free, from);
    StepGeometry(s, free, Allocate(from));
  }
}
