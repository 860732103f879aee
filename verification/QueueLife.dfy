// A queue and a pool from their setting up to their closing: producers and consumer interleave in any way, and between
// calls their messages and all others are allocated, moved, written and released in any way.
module QueueLife {
  import opened Words
  import opened Residues
  import opened BlockPoolSpec
  import opened QueueOnPool
  import opened QueueCustody
  import C = Custody
  import Q = QueueMachine
  import QueueSystem
  import QueueRuns

  // free is what the links in the pool spell out.
  datatype Both = Both(s: Q.State, t: C.System, free: seq<nat>)

  ghost predicate InStep(c: Q.Config, j: Both) {
    QueueSystem.Inv(c, j.s) && C.Orderly(j.t, j.free) && Shows(j.s, j.t)
  }

  datatype Event = ByThread(a: Q.Action) | ByUser(b: C.Action)

  // Nobody touches a message that lies in the queue or is being published or received.
  predicate Fair(s: Q.State, e: Event) {
    match e
    case ByThread(a) => OfThread(a)
    case ByUser(b) => Allowed(s, b)
  }

  // The actions of the queue that an event comes to.
  ghost function Actions(c: Q.Config, j: Both, e: Event): seq<Q.Action>
    requires InStep(c, j) && Fair(j.s, e)
  {
    match e
    case ByThread(a) => [a]
    case ByUser(b) =>
      UserShows(c, j.s, j.t, j.free, b);
      Answer(j.s, j.t, b)
  }

  ghost function Operations(c: Q.Config, j: Both, e: Event): seq<C.Action>
    requires InStep(c, j)
  {
    match e
    case ByThread(a) => Deeds(ChangeOf(c, j.s, a))
    case ByUser(b) => [b]
  }

  ghost function StepBoth(c: Q.Config, j: Both, e: Event): (k: Both)
    requires InStep(c, j) && Fair(j.s, e)
  {
    var deeds := Operations(c, j, e);
    Both(QueueRuns.After(c, j.s, Actions(c, j, e)), C.After(j.t, deeds), C.FreeAfterAll(j.t, j.free, deeds))
  }

  // Queue and pool stay in step, and the pool keeps its layout.
  lemma StepInStep(c: Q.Config, j: Both, e: Event)
    requires InStep(c, j) && Fair(j.s, e)
    ensures InStep(c, StepBoth(c, j, e)) && SameGeometry(j.t.pool, StepBoth(c, j, e).t.pool)
  {
    C.EveryBlockHasOneHolder(j.t, j.free, Operations(c, j, e));
    match e
    case ByThread(a) =>
      AfterOneStep(c, j.s, a);
      ThreadShows(c, j.s, j.t, a);
    case ByUser(b) =>
      AfterOne(j.t, b);
      UserShows(c, j.s, j.t, j.free, b);
  }

  // Every event of the run is fair when its turn comes.
  ghost predicate AllFair(c: Q.Config, j: Both, events: seq<Event>)
    requires InStep(c, j)
    decreases |events|
  {
    events != [] ==>
      && Fair(j.s, events[0])
      && (StepInStep(c, j, events[0]); AllFair(c, StepBoth(c, j, events[0]), events[1..]))
  }

  ghost function RunBoth(c: Q.Config, j: Both, events: seq<Event>): (k: Both)
    requires InStep(c, j) && AllFair(c, j, events)
    ensures InStep(c, k) && SameGeometry(j.t.pool, k.t.pool)
    decreases |events|
  {
    if events == [] then j
    else
      StepInStep(c, j, events[0]);
      RunBoth(c, StepBoth(c, j, events[0]), events[1..])
  }

  // The queue's half of such a run is a run of the queue and the pool's a run of the pool, so whatever holds of all
  // those holds of it.
  lemma {:induction false} HalvesAreRuns(c: Q.Config, j: Both, events: seq<Event>)
    returns (actions: seq<Q.Action>, deeds: seq<C.Action>)
    requires InStep(c, j) && AllFair(c, j, events)
    ensures RunBoth(c, j, events).s == QueueRuns.After(c, j.s, actions)
    ensures RunBoth(c, j, events).t == C.After(j.t, deeds)
    decreases |events|
  {
    if events == [] {
      actions, deeds := [], [];
    } else {
      StepInStep(c, j, events[0]);
      var more, further := HalvesAreRuns(c, StepBoth(c, j, events[0]), events[1..]);
      QueueRuns.AfterJoin(c, j.s, Actions(c, j, events[0]), more);
      C.AfterJoin(j.t, Operations(c, j, events[0]), further);
      actions, deeds := Actions(c, j, events[0]) + more, Operations(c, j, events[0]) + further;
    }
  }

  // ---- no block lost ----

  // No allocation of the users is made into a message that is still on a block of the pool, while there is one free.
  ghost predicate CarefulUsers(c: Q.Config, j: Both, events: seq<Event>)
    requires InStep(c, j) && AllFair(c, j, events)
    decreases |events|
  {
    events != [] ==>
      && (events[0].ByUser? ==> !C.Overwrites(j.t, events[0].b))
      && (StepInStep(c, j, events[0]); CarefulUsers(c, StepBoth(c, j, events[0]), events[1..]))
  }

  // Threads lose nothing, whatever they do.
  lemma OperationsCareful(c: Q.Config, j: Both, e: Event)
    requires InStep(c, j)
    ensures C.Careful(j.t, Operations(c, j, e)) <==> (e.ByUser? ==> !C.Overwrites(j.t, e.b))
  {
    match e
    case ByThread(a) =>
      match ChangeOf(c, j.s, a) {
        case Nothing =>
        case Moves(h, k) => assert [C.Move(h, k)][1..] == [];
      }
    case ByUser(b) => assert [b][1..] == [];
  }

  lemma {:induction false} RunComplete(c: Q.Config, j: Both, events: seq<Event>)
    requires InStep(c, j) && AllFair(c, j, events)
    ensures var k := RunBoth(c, j, events);
      C.Complete(k.t, k.free) <==> C.Complete(j.t, j.free) && CarefulUsers(c, j, events)
    decreases |events|
  {
    if events == [] {
    } else {
      StepInStep(c, j, events[0]);
      C.EveryBlockHasOneHolder(j.t, j.free, Operations(c, j, events[0]));
      OperationsCareful(c, j, events[0]);
      RunComplete(c, StepBoth(c, j, events[0]), events[1..]);
    }
  }

  // ---- where the blocks are ----

  ghost predicate IsFree(t: C.System, free: seq<nat>, k: nat) {
    BlockAt(Start(t.pool.base, t.pool.header), t.pool.blockSize, k) in free
  }

  ghost predicate InQueue(s: Q.State, k: nat) {
    exists i: nat :: i < Size(s) && HandleAt(s, i).block == k
  }

  // Under a message that is none of the queue's.
  ghost predicate Elsewhere(s: Q.State, t: C.System, k: nat)
    requires t.pool.blockSize > 0
  {
    exists h: nat :: Size(s) <= h && C.Attached(t, h) && View(t.pool, t.handles[h]).block == k
  }

  // Free, under one message of the queue or under another message.
  ghost predicate OnePlace(s: Q.State, t: C.System, free: seq<nat>, k: nat)
    requires t.pool.blockSize > 0
  {
    && (IsFree(t, free, k) || InQueue(s, k) || Elsewhere(s, t, k))
    && !(IsFree(t, free, k) && InQueue(s, k)) && !(IsFree(t, free, k) && Elsewhere(s, t, k))
    && !(InQueue(s, k) && Elsewhere(s, t, k))
    && (forall i: nat, j: nat | i < Size(s) && j < Size(s) && HandleAt(s, i).block == k == HandleAt(s, j).block ::
          i == j)
  }

  lemma ExactlyOnePlace(s: Q.State, t: C.System, free: seq<nat>, k: nat)
    requires C.Orderly(t, free) && C.Complete(t, free) && Shows(s, t) && k < t.pool.blockCount
    ensures OnePlace(s, t, free, k)
  {
    SomePlace(s, t, free, k);
    forall i: nat | i < Size(s) && HandleAt(s, i).block == k
      ensures !IsFree(t, free, k) && !Elsewhere(s, t, k)
      ensures forall j: nat | j < Size(s) && HandleAt(s, j).block == k :: j == i
    {
      assert ShownAt(s, t, i);
      MessagePlace(t, free, i, k);
      forall j: nat | j < Size(s) && HandleAt(s, j).block == k ensures j == i {
        assert ShownAt(s, t, j);
      }
    }
    if Elsewhere(s, t, k) {
      var h: nat :| Size(s) <= h && C.Attached(t, h) && View(t.pool, t.handles[h]).block == k;
      MessagePlace(t, free, h, k);
    }
  }

  lemma MessagePlace(t: C.System, free: seq<nat>, h: nat, k: nat)
    requires C.Orderly(t, free) && C.Attached(t, h) && View(t.pool, t.handles[h]).block == k
    ensures !IsFree(t, free, k)
    ensures forall j: nat | C.Attached(t, j) && View(t.pool, t.handles[j]).block == k :: j == h
  {
    Numbered(t.pool, t.handles[h].offset);
    OwnNumber(t, free, h);
  }

  lemma SomePlace(s: Q.State, t: C.System, free: seq<nat>, k: nat)
    requires C.Orderly(t, free) && C.Complete(t, free) && Shows(s, t) && k < t.pool.blockCount
    ensures IsFree(t, free, k) || InQueue(s, k) || Elsewhere(s, t, k)
  {
    var offset := BlockAt(Start(t.pool.base, t.pool.header), t.pool.blockSize, k);
    NumberedAt(t.pool, k);
    if offset !in free {
      var h: nat :| C.Attached(t, h) && t.handles[h].offset == offset;
      if h < Size(s) { assert ShownAt(s, t, h); }
    }
  }

  lemma NumberedAt(p: Pool, k: nat)
    requires Geometry(p) && k < p.blockCount
    ensures var offset := BlockAt(Start(p.base, p.header), p.blockSize, k);
      IsBlock(p, offset) && NumberOf(p, offset) == k
  {
    Decompose(k, 0, p.blockSize);
  }

  // Through any run of queue and users every block of the pool is free, under one message of the queue or under one
  // other message, and only one of these, as long as no allocation of the users overwrites a message; and no longer.
  lemma EveryBlockInOnePlace(c: Q.Config, j: Both, events: seq<Event>)
    requires InStep(c, j) && AllFair(c, j, events) && C.Complete(j.t, j.free)
    ensures var k := RunBoth(c, j, events);
      && (C.Complete(k.t, k.free) <==> CarefulUsers(c, j, events))
      && (CarefulUsers(c, j, events) ==> forall b: nat | b < j.t.pool.blockCount :: OnePlace(k.s, k.t, k.free, b))
  {
    var k := RunBoth(c, j, events);
    RunComplete(c, j, events);
    forall b: nat | b < j.t.pool.blockCount && CarefulUsers(c, j, events) ensures OnePlace(k.s, k.t, k.free, b) {
      ExactlyOnePlace(k.s, k.t, k.free, b);
    }
  }

  // ---- setting up ----

  // The queue set up on messages of the pool shows them.
  lemma QueueOfShows(c: Q.Config, t: C.System, free: seq<nat>, producers: nat)
    requires Ready(c, t, free, producers)
    ensures Shows(QueueOf(c, t, producers), t)
  {
    var s := QueueOf(c, t, producers);
    forall i: nat | i < Size(s) ensures ShownAt(s, t, i) {
      HandleOfQueue(c, t, producers, i);
      OwnNumber(t, free, i);
    }
  }

  lemma HandleOfQueue(c: Q.Config, t: C.System, producers: nat, i: nat)
    requires t.pool.blockSize > 0 && c.entryCount + producers < |t.handles| && i <= c.entryCount + producers
    ensures HandleAt(QueueOf(c, t, producers), i) == View(t.pool, t.handles[i])
  {
    var s := QueueOf(c, t, producers);
    if i < c.entryCount {
      assert s.sh.data.entries[i] == NewEntry(t.pool, t.handles[i]);
    } else if i < c.entryCount + producers {
      assert s.producers[i - c.entryCount] == NewProducer(t.pool, t.handles[c.entryCount + (i - c.entryCount)]);
    }
  }

  // From a new pool with enough blocks: its messages are constructed, and the queue set up on them is in step with it.
  lemma SetUp(c: Q.Config, t: C.System, producers: nat)
    requires Threaded(t.pool, AllBlocks(t.pool)) && (forall h: nat :: !C.Attached(t, h))
    requires c.entryCount > 0 && (c.solo ==> producers <= 1)
    requires c.entryCount + producers + 1 <= t.pool.blockCount && c.entryCount + producers + 1 <= |t.handles|
    ensures var n := c.entryCount + producers + 1;
      var u, left := C.After(t, C.Constructions(n)), AllBlocks(t.pool)[n..];
      && C.Orderly(u, left) && u.pool.blockSize > 0 && n <= |u.handles|
      && InStep(c, Both(QueueOf(c, u, producers), u, left)) && C.Complete(u, left)
  {
    var n := c.entryCount + producers + 1;
    var all := AllBlocks(t.pool);
    C.StartsComplete(t);
    C.ConstructAll(t, all, 0, n);
    assert C.Constructions(n)[0..] == C.Constructions(n);
    C.EveryBlockHasOneHolder(t, all, C.Constructions(n));
    var u := C.After(t, C.Constructions(n));
    QueueStarts(c, u, all[n..], producers);
    QueueRuns.InitIsInv(c, QueueOf(c, u, producers));
    QueueOfShows(c, u, all[n..], producers);
  }

  // ---- closing ----

  // Every message is released: those of the entries when the connection is closed, the others by their destructors.
  function Releases(n: nat): (r: seq<C.Action>)
    ensures |r| == n
  {
    seq(n, (h: nat) requires h < n => C.Release(h))
  }

  lemma {:induction false} ReleaseAll(t: C.System, free: seq<nat>, from: nat, n: nat)
    requires C.Orderly(t, free) && from <= n == |t.handles|
    requires forall h: nat | h < from :: !C.Attached(t, h)
    ensures forall h: nat :: !C.Attached(C.After(t, Releases(n)[from..]), h)
    decreases n - from
  {
    var rest := Releases(n)[from..];
    if from == n {
    } else {
      var u := C.Step(t, C.Release(from));
      C.StepGeometry(t, free, C.Release(from));
      C.StepOrderly(t, free, C.Release(from));
      assert rest[1..] == Releases(n)[from + 1..];
      forall h: nat | h < from + 1 ensures !C.Attached(u, h) {
        ReleasedDetached(t, free, from, h);
      }
      ReleaseAll(u, C.FreeAfter(t, free, C.Release(from)), from + 1, n);
    }
  }

  lemma ReleasedDetached(t: C.System, free: seq<nat>, from: nat, h: nat)
    requires C.Orderly(t, free) && h <= from < |t.handles| && (h < from ==> !C.Attached(t, h))
    ensures !C.Attached(C.Step(t, C.Release(from)), h)
  {
    if C.Attached(t, from) { C.ReturnOrderly(t, free, from); }
  }

  lemma {:induction false} ReleasesCareful(t: C.System, acts: seq<C.Action>)
    requires forall i: nat | i < |acts| :: acts[i].Release?
    ensures C.Careful(t, acts)
    decreases |acts|
  {
    if acts == [] {
    } else {
      ReleasesCareful(C.Step(t, acts[0]), acts[1..]);
    }
  }

  // After any run of queue and users all messages are released. Then every block of the pool is on the free list,
  // exactly if no allocation of the users overwrote a message.
  lemma EveryBlockComesBack(c: Q.Config, j: Both, events: seq<Event>)
    requires InStep(c, j) && AllFair(c, j, events) && C.Complete(j.t, j.free)
    ensures var k := RunBoth(c, j, events);
      var releases := Releases(|k.t.handles|);
      var u, left := C.After(k.t, releases), C.FreeAfterAll(k.t, k.free, releases);
      && C.Orderly(u, left) && (forall h: nat :: !C.Attached(u, h))
      && ((forall b: nat | b < j.t.pool.blockCount :: IsFree(u, left, b)) <==> CarefulUsers(c, j, events))
  {
    var k := RunBoth(c, j, events);
    var releases := Releases(|k.t.handles|);
    RunComplete(c, j, events);
    C.EveryBlockHasOneHolder(k.t, k.free, releases);
    ReleasesCareful(k.t, releases);
    assert releases[0..] == releases;
    ReleaseAll(k.t, k.free, 0, |k.t.handles|);
    AllFreeIsComplete(C.After(k.t, releases), C.FreeAfterAll(k.t, k.free, releases));
  }

  lemma AllFreeIsComplete(t: C.System, free: seq<nat>)
    requires C.Orderly(t, free) && forall h: nat :: !C.Attached(t, h)
    ensures (forall k: nat | k < t.pool.blockCount :: IsFree(t, free, k)) <==> C.Complete(t, free)
  {
    forall k: nat | k < t.pool.blockCount && C.Complete(t, free) ensures IsFree(t, free, k) {
      NumberedAt(t.pool, k);
    }
    if forall k: nat | k < t.pool.blockCount :: IsFree(t, free, k) {
      forall block: nat | IsBlock(t.pool, block) ensures block in free {
        Numbered(t.pool, block);
        assert IsFree(t, free, NumberOf(t.pool, block));
      }
    }
  }
}
