// What a list of steps asks of the shared resources, and what it gets.
module ResourcesSpec {

  // The steps that use queues or hold messages, and the rest. size is the message size a step asks for.
  datatype Step =
    | InputQueue(name: string, entryCount: nat)
    | SendToQueue(queue: string)
    | OrderedMerge(lookAhead: nat, size: nat)
    | Shuffler(lookAhead: nat)
    | ToMessage(size: nat)
    | Plain

  // ---- requests ----

  // The blocks that configureResources asks for.
  function Requests(step: Step): nat {
    match step
    case InputQueue(_, entryCount) => entryCount + 1
    case OrderedMerge(lookAhead, _) => lookAhead + 1
    case Shuffler(lookAhead) => lookAhead
    case ToMessage(_) => 1
    case _ => 0
  }

  function Requested(steps: seq<Step>): nat {
    if steps == [] then 0 else Requested(steps[..|steps| - 1]) + Requests(steps[|steps| - 1])
  }

  function SizeOf(step: Step): nat {
    match step
    case OrderedMerge(_, size) => size
    case ToMessage(size) => size
    case _ => 0
  }

  function Largest(steps: seq<Step>): nat {
    if steps == [] then 0
    else
      var before, size := Largest(steps[..|steps| - 1]), SizeOf(steps[|steps| - 1]);
      if size > before then size else before
  }

  // The largest size is enough for every step, and is that of some step unless it is nothing.
  lemma {:induction false} LargestBounds(steps: seq<Step>)
    ensures forall i: nat | i < |steps| :: SizeOf(steps[i]) <= Largest(steps)
    ensures Largest(steps) == 0 || exists i: nat :: i < |steps| && SizeOf(steps[i]) == Largest(steps)
    decreases |steps|
  {
    if steps == [] {
    } else {
      var front := steps[..|steps| - 1];
      LargestBounds(front);
      assert forall i: nat | i < |front| :: front[i] == steps[i];
      if Largest(steps) != 0 {
        assert SizeOf(steps[|steps| - 1]) == Largest(steps)
          || exists i: nat :: i < |front| && SizeOf(steps[i]) == Largest(steps);
      }
    }
  }

  // ---- queues ----

  // The queue of a name belongs to the last input queue of that name.
  function QueuesOf(steps: seq<Step>): map<string, nat> {
    if steps == [] then map[]
    else
      var before, n := QueuesOf(steps[..|steps| - 1]), |steps| - 1;
      if steps[n].InputQueue? then before[steps[n].name := n] else before
  }

  lemma {:induction false} QueuesAreNamed(steps: seq<Step>)
    ensures forall q | q in QueuesOf(steps) ::
      QueuesOf(steps)[q] < |steps| && steps[QueuesOf(steps)[q]].InputQueue? && steps[QueuesOf(steps)[q]].name == q
    ensures forall i: nat | i < |steps| && steps[i].InputQueue? ::
      steps[i].name in QueuesOf(steps) && i <= QueuesOf(steps)[steps[i].name]
    decreases |steps|
  {
    if steps == [] {
    } else {
      QueuesAreNamed(steps[..|steps| - 1]);
    }
  }

  predicate Sends(step: Step, queue: string) {
    step.SendToQueue? && step.queue == queue
  }

  // How many steps send to a queue.
  function Senders(steps: seq<Step>, queue: string): nat {
    if steps == [] then 0
    else Senders(steps[..|steps| - 1], queue) + if Sends(steps[|steps| - 1], queue) then 1 else 0
  }

  lemma {:induction false} NoSenders(steps: seq<Step>, queue: string)
    ensures Senders(steps, queue) == 0 <==> forall i: nat | i < |steps| :: !Sends(steps[i], queue)
    decreases |steps|
  {
    if steps == [] {
    } else {
      var front := steps[..|steps| - 1];
      NoSenders(front, queue);
      assert forall i: nat | i < |front| :: front[i] == steps[i];
    }
  }

  // One sender is counted exactly when no other step sends to the queue.
  lemma {:induction false} AloneExactly(steps: seq<Step>, i: nat)
    requires i < |steps| && steps[i].SendToQueue?
    ensures Senders(steps, steps[i].queue) == 1 <==>
      forall j: nat | j < |steps| && j != i :: !Sends(steps[j], steps[i].queue)
    ensures Senders(steps, steps[i].queue) >= 1
    decreases |steps|
  {
    var front, n := steps[..|steps| - 1], |steps| - 1;
    assert forall j: nat | j < n :: front[j] == steps[j];
    if i < n {
      AloneExactly(front, i);
    } else {
      NoSenders(front, steps[i].queue);
    }
  }

  // ---- outcome ----

  datatype Outcome = Ready | NoMessagesRequested | NoMessageSize | OutOfBlocks | UnknownQueue

  predicate AllKnown(steps: seq<Step>) {
    forall i: nat | i < |steps| && steps[i].SendToQueue? :: steps[i].queue in QueuesOf(steps)
  }

  // What createResources comes to. It is never for want of a block.
  function Created(steps: seq<Step>): Outcome {
    if Requested(steps) == 0 then NoMessagesRequested
    else if Largest(steps) == 0 then NoMessageSize
    else if !AllKnown(steps) then UnknownQueue
    else Ready
  }

  lemma {:induction false} RequestedGrows(steps: seq<Step>, n: nat)
    requires n < |steps|
    ensures Requested(steps[..n]) + Requests(steps[n]) == Requested(steps[..n + 1]) <= Requested(steps)
    decreases |steps| - n
  {
    assert steps[..n + 1][..n] == steps[..n];
    if n + 1 < |steps| {
      RequestedGrows(steps, n + 1);
    } else {
      assert steps[..n + 1] == steps;
    }
  }

  // ---- connections ----

  // The connection that a sender finds, or -1.
  function Found(queues: map<string, nat>, step: Step): int {
    if step.SendToQueue? && step.queue in queues then queues[step.queue] else -1
  }

  // How many senders find connection k.
  function Finding(steps: seq<Step>, queues: map<string, nat>, k: nat): nat {
    if steps == [] then 0
    else Finding(steps[..|steps| - 1], queues, k) + if Found(queues, steps[|steps| - 1]) == k then 1 else 0
  }

  // A connection has one name, so those who find it are those who name it.
  lemma {:induction false} FindingIsNaming(steps: seq<Step>, queues: map<string, nat>, queue: string)
    requires queue in queues && forall q | q in queues && queues[q] == queues[queue] :: q == queue
    ensures Finding(steps, queues, queues[queue]) == Senders(steps, queue)
    decreases |steps|
  {
    if steps == [] {
    } else {
      FindingIsNaming(steps[..|steps| - 1], queues, queue);
    }
  }

  lemma OneName(steps: seq<Step>, queue: string)
    requires queue in QueuesOf(steps)
    ensures Finding(steps, QueuesOf(steps), QueuesOf(steps)[queue]) == Senders(steps, queue)
  {
    QueuesAreNamed(steps);
    FindingIsNaming(steps, QueuesOf(steps), queue);
  }

  lemma FindingOneMore(steps: seq<Step>, queues: map<string, nat>, n: nat, k: nat)
    requires n < |steps|
    ensures Finding(steps[..n + 1], queues, k) ==
      Finding(steps[..n], queues, k) + if Found(queues, steps[n]) == k then 1 else 0
  {
    assert steps[..n + 1][..n] == steps[..n];
  }
}
