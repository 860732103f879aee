// The life of a set of steps: each is configured, then the pool is made and every step attached to it, then they are
// started from the last to the first. Each phase is proved to do what ResourcesSpec says.
module Resources {
  import opened ResourcesSpec
  import opened BlockPool
  import P = BlockPoolSpec
  import W = Words

  class SharedResources {
    var steps: seq<Step>
    var numberOfMessagesNeeded: nat
    var largestMessageSize: nat
    // The step whose connection each name finds.
    var queues: map<string, nat>
    // For each step: its connection's count of producers to come, the connection it found, and whether the producer
    // it made is alone.
    var expectedProducers: seq<nat>
    var connections: seq<int>
    var solo: seq<bool>
    // The steps that have been started, in that order.
    ghost var started: seq<nat>
    // The messages on blocks of the pool, in the order of their construction.
    var messages: seq<Message>
    var pool: MemoryPool?

    ghost predicate Configured()
      reads this
    {
      && numberOfMessagesNeeded == Requested(steps) && largestMessageSize == Largest(steps) && queues == QueuesOf(steps)
      && |expectedProducers| == |connections| == |solo| == |steps|
      && messages == [] && pool == null
      && forall i: nat | i < |steps| :: expectedProducers[i] == 0 && connections[i] == -1
    }

    constructor ()
      ensures Configured() && steps == []
    {
      steps, numberOfMessagesNeeded, largestMessageSize, queues := [], 0, 0, map[];
      expectedProducers, connections, solo := [], [], [];
      messages, pool := [], null;
      started := [];
    }

    method RequestMessages(count: nat)
      modifies this`numberOfMessagesNeeded
      ensures numberOfMessagesNeeded == old(numberOfMessagesNeeded) + count
    {
      numberOfMessagesNeeded := numberOfMessagesNeeded + count;
    }

    method RequestMessageSize(bytes: nat)
      modifies this`largestMessageSize
      ensures largestMessageSize == if bytes > old(largestMessageSize) then bytes else old(largestMessageSize)
    {
      if bytes > largestMessageSize {
        largestMessageSize := bytes;
      }
    }

    // configureResources, then addStep.
    method Configure(step: Step)
      requires Configured()
      modifies this
      ensures Configured() && steps == old(steps) + [step]
    {
      match step {
        case InputQueue(name, entryCount) =>
          queues := queues[name := |steps|];
          RequestMessages(entryCount);
          RequestMessages(1);
        case OrderedMerge(lookAhead, size) =>
          RequestMessageSize(size);
          RequestMessages(lookAhead);
          RequestMessages(1);
        case Shuffler(lookAhead) =>
          RequestMessages(lookAhead);
        case ToMessage(size) =>
          RequestMessageSize(size);
          RequestMessages(1);
        case SendToQueue(_) =>
        case Plain =>
      }
      assert (steps + [step])[..|steps|] == steps;
      steps := steps + [step];
      expectedProducers, connections, solo := expectedProducers + [0], connections + [-1], solo + [false];
    }

    // ---- blocks ----

    // Every message made so far is on a block of its own that is not free.
    ghost predicate OnBlocks()
      reads this, pool, if pool != null then {pool.pool, pool.pool.memory} else {}, messages
    {
      && pool != null && pool.Valid()
      && (forall i: nat | i < |messages| ::
            P.OnBlock(pool.pool.State(), messages[i].State()) && messages[i].offset !in pool.pool.free)
      && (forall i: nat, j: nat | i < j < |messages| :: messages[i].offset != messages[j].offset)
    }

    // The constructor of a message asks the pool for a block.
    method MakeMessage() returns (outcome: P.Outcome)
      requires OnBlocks()
      modifies this`messages, pool, pool.pool
      ensures OnBlocks() && pool.pool == old(pool.pool) && pool.pool.blockSize == old(pool.pool.blockSize)
      ensures outcome.Done? <==> old(pool.pool.free) != []
      ensures outcome.Done? ==>
        |pool.pool.free| == |old(pool.pool.free)| - 1 && |messages| == |old(messages)| + 1
          && fresh(messages[|messages| - 1])
        && messages[..|old(messages)|] == old(messages)
    {
      var message := new Message();
      outcome := pool.Allocate(message);
      if outcome.Done? {
        messages := messages + [message];
      }
    }

    // pendingMessages filled up to lookAhead, or the entries of a queue constructed.
    method MakeMessages(count: nat) returns (outcome: P.Outcome)
      requires OnBlocks()
      modifies this`messages, pool, pool.pool
      ensures OnBlocks() && pool.pool == old(pool.pool) && pool.pool.blockSize == old(pool.pool.blockSize)
      ensures outcome.Done? <==> count <= |old(pool.pool.free)|
      ensures outcome.Done? ==>
        |pool.pool.free| == |old(pool.pool.free)| - count && |messages| == |old(messages)| + count
    {
      var made := 0;
      while made < count
        invariant made <= count && OnBlocks()
        invariant pool.pool == old(pool.pool) && pool.pool.blockSize == old(pool.pool.blockSize)
        invariant made <= |old(pool.pool.free)| && |pool.pool.free| == |old(pool.pool.free)| - made
        invariant |messages| == |old(messages)| + made
      {
        outcome := MakeMessage();
        if outcome.Failed? {
          return;
        }
        made := made + 1;
      }
      outcome := P.Done;
    }

    // ---- attaching ----

    // The first n steps have looked for their queues, and each sender has counted itself at the connection it found.
    ghost predicate Counted(n: nat)
      reads this`steps, this`expectedProducers, this`connections, this`solo, this`queues
    {
      && n <= |steps| == |expectedProducers| == |connections| == |solo| && queues == QueuesOf(steps)
      && (forall i: nat | i < n :: connections[i] == Found(queues, steps[i]))
      && (forall k: nat | k < |steps| :: expectedProducers[k] == Finding(steps[..n], queues, k))
    }

    // SendToQueue.attachResources
    method FindQueue(n: nat)
      requires Counted(n) && n < |steps|
      modifies this`connections, this`expectedProducers
      ensures Counted(n + 1)
    {
      QueuesAreNamed(steps);
      var k := -1;
      if steps[n].SendToQueue? && steps[n].queue in queues {
        k := queues[steps[n].queue];
        expectedProducers := expectedProducers[k := expectedProducers[k] + 1];
      }
      connections := connections[n := k];
      forall j: nat | j < |steps| ensures expectedProducers[j] == Finding(steps[..n + 1], queues, j) {
        FindingOneMore(steps, queues, n, j);
      }
    }

    // The messages a step keeps, then the one it sends with.
    method AttachMessages(step: Step) returns (outcome: P.Outcome)
      requires OnBlocks()
      modifies this`messages, pool, pool.pool
      ensures OnBlocks() && pool.pool == old(pool.pool) && pool.pool.blockSize == old(pool.pool.blockSize)
      ensures outcome.Done? <==> Requests(step) <= |old(pool.pool.free)|
      ensures outcome.Done? ==>
        |pool.pool.free| == |old(pool.pool.free)| - Requests(step) && |messages| == |old(messages)| + Requests(step)
    {
      outcome := P.Done;
      match step {
        case InputQueue(_, entryCount) =>
          outcome := MakeMessages(entryCount);
          if outcome.Done? { outcome := MakeMessage(); }
        case OrderedMerge(lookAhead, _) =>
          outcome := MakeMessages(lookAhead);
          if outcome.Done? { outcome := MakeMessage(); }
        case Shuffler(lookAhead) =>
          outcome := MakeMessages(lookAhead);
        case ToMessage(_) =>
          outcome := MakeMessage();
        case SendToQueue(_) =>
        case Plain =>
      }
    }

    method Attach(n: nat) returns (outcome: P.Outcome)
      requires OnBlocks() && Counted(n) && n < |steps|
      modifies this`messages, this`connections, this`expectedProducers, pool, pool.pool
      ensures OnBlocks() && Counted(n + 1)
      ensures pool.pool == old(pool.pool) && pool.pool.blockSize == old(pool.pool.blockSize)
      ensures outcome.Done? <==> Requests(steps[n]) <= |old(pool.pool.free)|
      ensures outcome.Done? ==>
        && |pool.pool.free| == |old(pool.pool.free)| - Requests(steps[n])
        && |messages| == |old(messages)| + Requests(steps[n])
      ensures outcome.Done? ==>
        |messages| - |old(messages)| ==
          match steps[n]
          case InputQueue(_, entryCount) => entryCount + 1
          case OrderedMerge(lookAhead, _) => lookAhead + 1
          case Shuffler(lookAhead) => lookAhead
          case ToMessage(_) => 1
          case _ => 0
    {
      FindQueue(n);
      outcome := AttachMessages(steps[n]);
    }

    // base and header are where the pool happens to lie and the size of the pool object.
    method CreateResources(base: nat, header: nat) returns (outcome: Outcome)
      requires Configured() && base > 0
      requires P.SpaceNeeded(header, largestMessageSize, numberOfMessagesNeeded) + W.CACHE_LINE < P.NULL_OFFSET
      modifies this
      ensures steps == old(steps) && outcome == Created(steps)
      ensures outcome.Ready? ==> Counted(|steps|) && AllKnown(steps) && OnBlocks() && |messages| == Requested(steps)
      ensures outcome.Ready? ==>
        forall k: nat, i: nat | k < |messages| && i < |steps| && (steps[i].OrderedMerge? || steps[i].ToMessage?) ::
          steps[i].size <= messages[k].capacity
    {
      if numberOfMessagesNeeded == 0 {
        return NoMessagesRequested;
      }
      if largestMessageSize == 0 {
        return NoMessageSize;
      }
      pool := new MemoryPool(largestMessageSize, numberOfMessagesNeeded, base, header);
      var attached := AttachAll();
      LargestBounds(steps);
      var known := Validate();
      return if attached.Failed? then OutOfBlocks else if known then Ready else UnknownQueue;
    }

    // Every step in turn, until there are no blocks left.
    method AttachAll() returns (attached: P.Outcome)
      requires OnBlocks() && Counted(0) && messages == [] && Requested(steps) <= |pool.pool.free|
      modifies this`messages, this`connections, this`expectedProducers, pool, pool.pool
      ensures attached.Done? && Counted(|steps|) && OnBlocks() && |messages| == Requested(steps)
      ensures pool.pool == old(pool.pool) && pool.pool.blockSize == old(pool.pool.blockSize)
    {
      var n := 0;
      attached := P.Done;
      while n < |steps| && attached.Done?
        invariant n <= |steps| && attached.Done? && Counted(n) && OnBlocks()
        invariant pool.pool == old(pool.pool) && pool.pool.blockSize == old(pool.pool.blockSize)
        invariant Requested(steps) <= |pool.pool.free| + Requested(steps[..n])
        invariant |messages| == Requested(steps[..n])
      {
        RequestedGrows(steps, n);
        attached := Attach(n);
        n := n + 1;
      }
      assert steps[..n] == steps;
    }

    // Every sender must have found its queue.
    method Validate() returns (known: bool)
      requires Counted(|steps|)
      ensures known <==> AllKnown(steps)
    {
      known := true;
      var n := 0;
      while n < |steps|
        invariant n <= |steps|
        invariant known <==> forall i: nat | i < n && steps[i].SendToQueue? :: steps[i].queue in queues
      {
        if steps[n].SendToQueue? && connections[n] < 0 {
          known := false;
        }
        n := n + 1;
      }
    }

    // ---- starting ----

    // The steps are started from the last to the first; a sender makes its producer, which asks its connection
    // whether it is alone. It is alone exactly if one step sends to the queue.
    method Start()
      requires Counted(|steps|) && AllKnown(steps)
      modifies this`solo, this`started
      ensures |solo| == |steps| == |started|
      ensures forall i: nat | i < |started| :: started[i] == |steps| - 1 - i
      ensures forall i: nat | i < |steps| && steps[i].SendToQueue? :: solo[i] <==> Senders(steps, steps[i].queue) == 1
    {
      QueuesAreNamed(steps);
      assert steps[..|steps|] == steps;
      started := [];
      var n := |steps|;
      while n > 0
        invariant 0 <= n <= |steps| == |solo| && |started| == |steps| - n
        invariant forall i: nat | i < |started| :: started[i] == |steps| - 1 - i
        invariant forall i: nat | n <= i < |steps| && steps[i].SendToQueue? :: solo[i] <==>
          Senders(steps, steps[i].queue) == 1
      {
        n := n - 1;
        if steps[n].SendToQueue? {
          OneName(steps, steps[n].queue);
          solo := solo[n := expectedProducers[connections[n]] == 1];
        }
        started := started + [n];
      }
    }
  }
}
