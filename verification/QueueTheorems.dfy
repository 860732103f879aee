// What the queue promises in every state that any interleaving can reach.
module QueueTheorems {
  import opened QueueMachine
  import opened QueueInvariants
  import opened QueueData
  import opened QueueSystem
  import opened QueueRuns

  // ---- first in, first out ----

  function Contents(items: seq<Item>): (r: seq<Content>)
    ensures |r| == |items|
  {
    seq(|items|, (i: nat) requires i < |items| => items[i].content)
  }

  // What the entries from the read position up to the publish position say, oldest first.
  function Queued(c: Config, s: State): (r: seq<Content>)
    requires Shape(c, s) && Taken(s) <= s.sh.publishPosition
    ensures |r| == s.sh.publishPosition - Taken(s)
  {
    seq(s.sh.publishPosition - Taken(s),
        (i: nat) requires i < s.sh.publishPosition - Taken(s) =>
          ContentOf(s.sh.data, EntryAt(c, s.sh.data, Taken(s) + i).message))
  }

  lemma TakenInRange(c: Config, s: State)
    requires Inv(c, s)
    ensures c.entryCount <= Taken(s) <= s.sh.publishPosition
  {
  }

  lemma WindowIsFifo(c: Config, s: State)
    requires Shape(c, s) && Window(c, s) && c.entryCount <= Taken(s) <= s.sh.publishPosition
    ensures s.sh.data.consumed + Queued(c, s) == Contents(s.sh.data.published)
  {
    var d := s.sh.data;
    var queued, all := Queued(c, s), Contents(d.published);
    forall i: nat | i < |queued| ensures queued[i] == all[|d.consumed| + i] {
      assert ContentOf(d, EntryAt(c, d, Taken(s) + i).message) == d.published[Taken(s) + i - c.entryCount].content;
    }
  }

  // What was handed over, followed by what is in the queue, is what was published, in that order.
  lemma FirstInFirstOut(c: Config, s: State)
    requires Reachable(c, s)
    ensures Inv(c, s) && Taken(s) <= s.sh.publishPosition
    ensures s.sh.data.consumed + Queued(c, s) == Contents(s.sh.data.published)
    ensures |Queued(c, s)| <= c.entryCount
  {
    ReachableIsInv(c, s);
    TakenInRange(c, s);
    WindowIsFifo(c, s);
  }

  // ---- calls ----

  // The calls of publish that were entered in a run, oldest first.
  ghost function CallsMade(c: Config, s: State, actions: seq<Action>): seq<Item>
    requires Inv(c, s)
    decreases |actions|
  {
    if actions == [] then []
    else
      StepKeepsInv(c, s, actions[0]);
      Entered(c, s, actions[0]) + CallsMade(c, Step(c, s, actions[0]), actions[1..])
  }

  function Entered(c: Config, s: State, a: Action): seq<Item>
    requires Shape(c, s)
  {
    if a.Call? && a.p < |s.producers| && s.producers[a.p].pc.Idle? then
      [Called(c, s.sh.data, a.p, s.producers[a.p]).cargo.item]
    else []
  }

  // Every message under way or in the history is that of one of the calls.
  ghost predicate AllCalled(s: State, calls: seq<Item>) {
    && (forall i: nat | i < |s.sh.data.published| :: s.sh.data.published[i] in calls)
    && (forall p: nat | p < |s.producers| && !s.producers[p].pc.Idle? :: s.producers[p].cargo.item in calls)
  }

  predicate SameItem(pr: Producer, q: Producer) {
    q.cargo.item == pr.cargo.item && q.cargo.calls == pr.cargo.calls && (pr.pc.Idle? ==> q.pc.Idle?)
  }

  lemma BlockKeepsItem(c: Config, sh: Shared, p: nat, pr: Producer)
    requires pr.pc.Blocking?
    ensures SameItem(pr, BlockStep(c, sh, p, pr).1)
  {
  }

  lemma RunKeepsItem(c: Config, sh: Shared, p: nat, pr: Producer)
    requires c.entryCount > 0 && |sh.data.entries| == c.entryCount
    ensures SameItem(pr, ProducerStep(c, sh, p, pr).1)
  {
    match pr.pc
    case Idle =>
    case Publishing(_) =>
    case Contending(_) =>
    case Retrying(_) =>
    case Blocking(_) => BlockKeepsItem(c, sh, p, pr);
  }

  lemma StepAllCalled(c: Config, s: State, a: Action, calls: seq<Item>)
    requires Inv(c, s) && AllCalled(s, calls)
    ensures AllCalled(Step(c, s, a), calls + Entered(c, s, a))
  {
    StepGrows(c, s, a);
    if NamesProducer(a) && a.p < |s.producers| {
      if a.Run? { RunKeepsItem(c, s.sh, a.p, s.producers[a.p]); }
      OthersCalled(c, s, a, calls);
    }
  }

  lemma OthersCalled(c: Config, s: State, a: Action, calls: seq<Item>)
    requires Shape(c, s) && AllCalled(s, calls) && NamesProducer(a) && a.p < |s.producers|
    requires a.Run? ==> SameItem(s.producers[a.p], Step(c, s, a).producers[a.p])
    requires Grows(c, s, a, Step(c, s, a))
    ensures AllCalled(Step(c, s, a), calls + Entered(c, s, a))
  {
    var t := Step(c, s, a);
    forall p: nat | p < |t.producers| && !t.producers[p].pc.Idle?
      ensures t.producers[p].cargo.item in calls + Entered(c, s, a)
    {
      if p != a.p { assert t.producers[p] == s.producers[p]; }
    }
  }

  lemma {:induction false} RunAllCalled(c: Config, s: State, actions: seq<Action>, calls: seq<Item>)
    requires Inv(c, s) && AllCalled(s, calls)
    ensures AllCalled(After(c, s, actions), calls + CallsMade(c, s, actions))
    decreases |actions|
  {
    if actions == [] {
      assert calls + [] == calls;
    } else {
      var t := Step(c, s, actions[0]);
      StepKeepsInv(c, s, actions[0]);
      StepAllCalled(c, s, actions[0], calls);
      RunAllCalled(c, t, actions[1..], calls + Entered(c, s, actions[0]));
      assert calls + CallsMade(c, s, actions) == calls + Entered(c, s, actions[0]) + CallsMade(c, t, actions[1..]);
    }
  }

  // Nothing is made up or published twice, and no producer's messages overtake one another.
  lemma PublishedInCallOrder(c: Config, s: State, actions: seq<Action>)
    requires Init(c, s)
    ensures Inv(c, s)
    ensures var history := After(c, s, actions).sh.data.published;
      && (forall i: nat | i < |history| :: history[i] in CallsMade(c, s, actions))
      && (forall i: nat, j: nat | i < j < |history| && history[i].producer == history[j].producer ::
        history[i].call < history[j].call)
  {
    InitIsInv(c, s);
    forall p: nat | p < |s.producers| ensures s.producers[p].pc.Idle? {
      assert NewProducer(s.producers[p]);
    }
    assert AllCalled(s, []);
    RunAllCalled(c, s, actions, []);
    assert [] + CallsMade(c, s, actions) == CallsMade(c, s, actions);
    assert CallsInOrder(After(c, s, actions));
  }

  // ---- stale copies and entries ----

  predicate InQueue(sh: Shared, k: nat) {
    sh.readPosition <= k < sh.publishPosition
  }

  // A cached bound never lets a thread pass the other side, and the entry being written is none of those in the queue.
  lemma CachesAreSafe(c: Config, s: State)
    requires Reachable(c, s)
    ensures s.sh.readPosition <= s.sh.publishPosition <= s.sh.readPosition + c.entryCount
    ensures forall p: nat | p < |s.producers| :: s.producers[p].publishable <= s.sh.readPosition + c.entryCount
    ensures s.consumer.cachedPublish <= s.sh.publishPosition
    ensures |s.sh.data.entries| == c.entryCount > 0
    ensures forall k: nat | InQueue(s.sh, k) :: EntryAt(c, s.sh.data, k).status == OK
    ensures forall p: nat, k: nat | p < |s.producers| && Writing(s.producers[p].pc) && InQueue(s.sh, k) ::
      s.producers[p].position % c.entryCount != k % c.entryCount
    ensures forall p: nat, q: nat | p < |s.producers| && q < |s.producers| && Writing(s.producers[p].pc)
      && Writing(s.producers[q].pc) :: p == q
  {
    ReachableIsInv(c, s);
    forall p: nat | p < |s.producers| ensures s.producers[p].publishable <= s.sh.readPosition + c.entryCount {
      assert ProducerOk(c, s.sh, ConsumerOwesSignal(s.consumer.pc), p, s.producers[p]);
    }
    forall p: nat, k: nat | p < |s.producers| && Writing(s.producers[p].pc) && InQueue(s.sh, k)
      ensures s.producers[p].position % c.entryCount != k % c.entryCount
    {
      WriterApart(c, s, p, k);
    }
    forall p: nat, q: nat | p < |s.producers| && q < |s.producers| && Writing(s.producers[p].pc)
      && Writing(s.producers[q].pc)
      ensures p == q
    {
      if p != q { OneWriter(c, s, p, q); }
    }
  }

  // ---- wake-ups ----

  // Whoever sleeps unnotified although it could go on has a thread on the other side about to signal it.
  lemma NoLostWakeUp(c: Config, s: State)
    requires Reachable(c, s)
    ensures s.sh.sleep.consumerAsleep && s.sh.readPosition < s.sh.publishPosition ==> SomeoneOwesSignal(s)
    ensures s.sh.sleep.producersAsleep != {} && s.sh.publishPosition < s.sh.readPosition + c.entryCount ==>
      ConsumerOwesSignal(s.consumer.pc)
    ensures s.sh.sleep.producersAsleep != {} && s.sh.sleep.consumerAsleep ==> SomeoneOwesSignal(s)
  {
    ReachableIsInv(c, s);
    assert ConsumerOk(c, s.sh, SomeoneOwesSignal(s), s.consumer);
    if s.sh.sleep.producersAsleep != {} {
      var p :| p in s.sh.sleep.producersAsleep;
      assert ProducerOk(c, s.sh, ConsumerOwesSignal(s.consumer.pc), p, s.producers[p]);
    }
  }

  // A thread that has the mutex and owes the signal gives it with its next step, whatever was flagged.
  lemma SignalWakesConsumer(c: Config, s: State, p: nat)
    requires Reachable(c, s) && p < |s.producers| && s.producers[p].pc == Publishing(Signal)
    ensures Inv(c, s)
    ensures !Step(c, s, Run(p)).sh.sleep.consumerAsleep && !Step(c, s, Run(p)).sh.sleep.consumerWaiting
  {
    ReachableIsInv(c, s);
    assert ConsumerOk(c, s.sh, SomeoneOwesSignal(s), s.consumer);
  }

  lemma SignalWakesProducers(c: Config, s: State)
    requires Reachable(c, s) && s.consumer.pc.Trying? && s.consumer.pc.at.NotifySignal?
    ensures Inv(c, s)
    ensures Step(c, s, RunConsumer).sh.sleep.producersAsleep == {} && !Step(c, s, RunConsumer).sh.sleep.producerWaiting
  {
    ReachableIsInv(c, s);
    forall p: nat ensures p !in Step(c, s, RunConsumer).sh.sleep.producersAsleep {
      if p in s.sh.sleep.producersAsleep {
        assert ProducerOk(c, s.sh, ConsumerOwesSignal(s.consumer.pc), p, s.producers[p]);
      }
    }
  }

  // Only a strategy whose counts run out leads to the waits on a condition variable; such a strategy uses the mutex.
  lemma WaitsOnlyWithMutex(c: Config, s: State)
    requires Reachable(c, s)
    ensures forall p: nat | p < |s.producers| && s.producers[p].pc.Blocking? :: c.producerWait.RunsOut()
    ensures ConsumerAtMutex(s.consumer.pc) ==> c.consumerWait.RunsOut()
    ensures !c.producerWait.RunsOut() ==> s.sh.sleep.producersAsleep == {}
    ensures !c.consumerWait.RunsOut() ==> !s.sh.sleep.consumerAsleep
  {
    ReachableIsInv(c, s);
    assert ConsumerOk(c, s.sh, SomeoneOwesSignal(s), s.consumer);
    forall p: nat | p < |s.producers| && s.producers[p].pc.Blocking? ensures c.producerWait.RunsOut() {
      assert ProducerOk(c, s.sh, ConsumerOwesSignal(s.consumer.pc), p, s.producers[p]);
    }
    if p :| p in s.sh.sleep.producersAsleep {
      assert ProducerOk(c, s.sh, ConsumerOwesSignal(s.consumer.pc), p, s.producers[p]);
    }
  }

  // No count of the strategy lasts for ever.
  predicate NoneForever(w: WaitStrategy) {
    && w.spinCount != 0xFFFF_FFFF && w.yieldCount != 0xFFFF_FFFF && w.sleepCount != 0xFFFF_FFFF
  }

  // A thread signals the other side only if none of its counts is FOREVER, and then under the mutex.
  lemma SignalsOnlyWithoutForever(c: Config, s: State)
    requires Reachable(c, s)
    ensures s.consumer.pc.Trying?
      && (s.consumer.pc.at.NotifyLock? || s.consumer.pc.at.NotifySignal? || s.consumer.pc.at.NotifyUnlock?)
      ==> NoneForever(c.producerWait)
    ensures forall p: nat | p < |s.producers| && s.producers[p].pc.Publishing?
      && (s.producers[p].pc.at.Signal? || s.producers[p].pc.at.Unlock?) :: NoneForever(c.consumerWait)
  {
    ReachableIsInv(c, s);
    assert ConsumerOk(c, s.sh, SomeoneOwesSignal(s), s.consumer);
    forall p: nat | p < |s.producers| && s.producers[p].pc.Publishing?
      && (s.producers[p].pc.at.Signal? || s.producers[p].pc.at.Unlock?)
      ensures NoneForever(c.consumerWait)
    {
      assert ProducerOk(c, s.sh, ConsumerOwesSignal(s.consumer.pc), p, s.producers[p]);
    }
  }

  // A stop leaves nobody it is meant for asleep unnotified: the consumer at once, the producers as soon as the
  // stopping thread has had the mutex. Nobody loses a message, a lock or the flag by it.
  lemma StopWakes(c: Config, s: State, p: nat)
    requires Reachable(c, s) && p < |s.producers|
    ensures Inv(c, s) && Inv(c, Step(c, s, StopProducer(p)))
    ensures var t := Step(c, s, StopConsumer);
      t.consumer == s.consumer.(stopping := true) && !t.sh.sleep.consumerAsleep
      && t.producers == s.producers && t.sh == s.sh.(sleep := t.sh.sleep)
      && t.sh.sleep == s.sh.sleep.(consumerAsleep := false)
    ensures var t := Step(c, Step(c, s, StopProducer(p)), NotifyStopped);
      && t.consumer == s.consumer && t.producers == s.producers[p := s.producers[p].(stopping := true)]
      && (s.sh.locks.waitMutex.Free? ==> t.sh.sleep.producersAsleep == {})
      && t.sh == s.sh.(sleep := t.sh.sleep)
      && t.sh.sleep == s.sh.sleep.(producersAsleep := t.sh.sleep.producersAsleep)
  {
    ReachableIsInv(c, s);
    StepKeepsInv(c, s, StopProducer(p));
  }

  // ---- locks ----

  // The spin lock is held through the whole of publish except while waiting, and let go on every way out;
  // nobody waits for it while holding the mutex.
  lemma LockDiscipline(c: Config, s: State, p: nat)
    requires Reachable(c, s) && p < |s.producers|
    ensures s.sh.locks.spinLock == Some(p) <==> !c.solo && s.producers[p].pc.Publishing?
    ensures s.producers[p].pc.Idle? ==> s.sh.locks.spinLock != Some(p) && s.sh.locks.waitMutex != ByProducer(p)
    ensures s.producers[p].pc.Contending? ==> s.sh.locks.waitMutex != ByProducer(p)
    ensures c.solo ==> |s.producers| <= 1 && s.sh.locks.spinLock.None?
  {
    ReachableIsInv(c, s);
    assert ProducerOk(c, s.sh, ConsumerOwesSignal(s.consumer.pc), p, s.producers[p]);
  }

  // What a producer changes in the ring: the entries, the publish position or the history.
  predicate TouchesRing(s: Shared, t: Shared) {
    t.data.entries != s.data.entries || t.publishPosition != s.publishPosition || t.data.published != s.data.published
  }

  // A producer touches the ring only when it is the only one or has the spin lock.
  lemma RingTouchedUnderLock(c: Config, s: State, a: Action)
    requires Reachable(c, s) && NamesProducer(a)
    ensures Inv(c, s)
    ensures TouchesRing(s.sh, Step(c, s, a).sh) ==>
      a.Run? && a.p < |s.producers| && (if c.solo then |s.producers| == 1 else s.sh.locks.spinLock == Some(a.p))
  {
    ReachableIsInv(c, s);
    if a.p < |s.producers| {
      assert ProducerOk(c, s.sh, ConsumerOwesSignal(s.consumer.pc), a.p, s.producers[a.p]);
      if a.Run? { RunTouches(c, s.sh, ConsumerOwesSignal(s.consumer.pc), a.p, s.producers[a.p]); }
    }
  }

  lemma RunTouches(c: Config, sh: Shared, owed: bool, p: nat, pr: Producer)
    requires c.entryCount > 0 && |sh.data.entries| == c.entryCount && ProducerOk(c, sh, owed, p, pr)
    ensures TouchesRing(sh, ProducerStep(c, sh, p, pr).0) ==> pr.pc.Publishing?
  {
    match pr.pc
    case Idle =>
    case Publishing(_) =>
    case Contending(_) => ContendQuiet(sh, p, pr);
    case Retrying(_) => RetryQuiet(c, sh, owed, p, pr);
    case Blocking(_) => BlockQuiet(c, sh, p, pr);
  }
}
