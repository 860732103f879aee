// getNext holds the wait mutex while it calls tryGetNext, which takes the same mutex to wake the producers when their
// strategy uses it: when a consumer waits on itself, and that nothing frees it.
module QueueDeadlock {
  import opened QueueMachine
  import opened QueueInvariants
  import opened QueueData
  import opened QueueSystem
  import opened QueueRuns

  // The consumer has the mutex and waits for it.
  predicate Stuck(s: State) {
    s.consumer.pc.Trying? && s.consumer.pc.at.NotifyLock? && UnderMutex(s.consumer.pc.via)
  }

  // Whatever anyone does, the consumer stays where it is and the mutex is never free again.
  lemma {:induction false} StuckForever(c: Config, s: State, actions: seq<Action>)
    requires Inv(c, s) && Stuck(s)
    ensures var t := After(c, s, actions); t.consumer.pc == s.consumer.pc && t.sh.locks.waitMutex.ByConsumer?
    decreases |actions|
  {
    assert ConsumerOk(c, s.sh, SomeoneOwesSignal(s), s.consumer);
    if actions == [] {
    } else {
      StepKeepsInv(c, s, actions[0]);
      StuckForever(c, Step(c, s, actions[0]), actions[1..]);
    }
  }

  // ---- a way there ----

  ghost predicate LeadsTo(c: Config, s: State, t: State)
    requires Inv(c, s)
  {
    exists actions: seq<Action> :: After(c, s, actions) == t
  }

  lemma LeadsByOne(c: Config, s: State, a: Action)
    requires Inv(c, s)
    ensures Inv(c, Step(c, s, a)) && LeadsTo(c, s, Step(c, s, a))
  {
    StepKeepsInv(c, s, a);
    assert [a][1..] == [];
    assert After(c, s, [a]) == Step(c, s, a);
  }

  lemma LeadsOn(c: Config, s: State, t: State, u: State)
    requires Inv(c, s) && LeadsTo(c, s, t) && Inv(c, t) && LeadsTo(c, t, u)
    ensures LeadsTo(c, s, u)
  {
    var first :| After(c, s, first) == t;
    var second :| After(c, t, second) == u;
    AfterJoin(c, s, first, second);
  }

  // The consumer is in getNext on an empty queue; nobody has a lock or is in a call.
  predicate Polling(c: Config, s: State) {
    && Shape(c, s) && |s.producers| > 0
    && s.sh.locks == Locks(None, Free) && s.sh.readPosition == s.sh.publishPosition
    && !s.consumer.stopping && s.producers[0].pc.Idle? && !s.producers[0].stopping
    && s.consumer.pc.Getting?
  }

  // The parts of a state that the consumer's polling leaves alone.
  predicate SameButConsumer(s: State, t: State) {
    t.sh == s.sh && t.producers == s.producers && t.consumer.stopping == s.consumer.stopping
      && t.consumer.left == s.consumer.left
  }

  // One turn of the loop of getNext that finds nothing.
  lemma PollOnce(c: Config, s: State) returns (t: State)
    requires Inv(c, s) && Polling(c, s) && s.consumer.pc == Getting(Again)
    ensures Inv(c, t) && LeadsTo(c, s, t) && SameButConsumer(s, t) && t.consumer.pc == Getting(BackOff)
  {
    LeadsByOne(c, s, RunConsumer);
    var s1 := Step(c, s, RunConsumer);
    assert SameButConsumer(s, s1) && s1.consumer.pc == Trying(Loop, Compare);
    LeadsByOne(c, s1, RunConsumer);
    var s2 := Step(c, s1, RunConsumer);
    assert SameButConsumer(s, s2) && s2.consumer.pc == Trying(Loop, Load);
    LeadsByOne(c, s2, RunConsumer);
    t := Step(c, s2, RunConsumer);
    LeadsOn(c, s, s1, s2);
    LeadsOn(c, s, s2, t);
  }

  predicate CountsRunOut(n: Count) {
    n.spins < FOREVER && n.naps < FOREVER && n.sleeps < FOREVER
  }

  // Counts that run out do run out, and the consumer goes for the mutex.
  lemma PollUntilMutex(c: Config, s: State) returns (t: State)
    requires Inv(c, s) && Polling(c, s) && s.consumer.pc == Getting(BackOff) && CountsRunOut(s.consumer.left)
    ensures Inv(c, t) && LeadsTo(c, s, t) && t.sh == s.sh && t.producers == s.producers
      && t.consumer.pc == Getting(WaitLock)
    decreases s.consumer.left.spins + s.consumer.left.naps + s.consumer.left.sleeps
  {
    LeadsByOne(c, s, RunConsumer);
    var u := Step(c, s, RunConsumer);
    if Turn(s.consumer.left).None? {
      t := u;
    } else {
      var v := PollOnce(c, u);
      t := PollUntilMutex(c, v);
      LeadsOn(c, s, u, v);
      LeadsOn(c, s, v, t);
    }
  }

  // ---- meanwhile a producer publishes ----

  // s1 is s after some steps of producer 0, at pc, with the queue still empty.
  predicate Midway(c: Config, s: State, t: State, pc: PPc) {
    && Shape(c, t) && t.consumer == s.consumer && |t.producers| == |s.producers| > 0
    && t.sh.locks.waitMutex == s.sh.locks.waitMutex
    && t.sh.readPosition == s.sh.readPosition && t.sh.publishPosition == s.sh.publishPosition
    && t.producers[0].pc == pc && !t.producers[0].stopping
  }

  lemma Enter(c: Config, s: State) returns (t: State)
    requires Inv(c, s) && |s.producers| > 0 && s.producers[0].pc.Idle? && !s.producers[0].stopping
      && s.sh.locks.spinLock.None?
    ensures Inv(c, t) && LeadsTo(c, s, t) && Midway(c, s, t, Publishing(Top))
  {
    LeadsByOne(c, s, Call(0));
    t := Step(c, s, Call(0));
    if !c.solo {
      var u := t;
      assert Midway(c, s, u, Contending(Acquire)) && u.sh == s.sh;
      LeadsByOne(c, u, Run(0));
      t := Step(c, u, Run(0));
      LeadsOn(c, s, u, t);
    }
  }

  // One step of producer 0 that only moves it on.
  lemma Onward(c: Config, s: State, t: State, u: State, pc: PPc)
    requires Inv(c, s) && LeadsTo(c, s, t) && Inv(c, t) && |t.producers| > 0 && Midway(c, s, t, t.producers[0].pc)
    requires u == Step(c, t, Run(0)) && Midway(c, t, u, pc)
    ensures Inv(c, u) && LeadsTo(c, s, u) && Midway(c, s, u, pc)
  {
    LeadsByOne(c, t, Run(0));
    LeadsOn(c, s, t, u);
  }

  lemma ReachFill(c: Config, s: State, start: State) returns (t: State)
    requires Inv(c, s) && LeadsTo(c, s, start) && Inv(c, start) && Midway(c, s, start, Publishing(Top))
    requires s.sh.readPosition == s.sh.publishPosition
    ensures Inv(c, t) && LeadsTo(c, s, t) && Midway(c, s, t, Publishing(Fill))
  {
    var u := Step(c, start, Run(0));
    Onward(c, s, start, u, Publishing(Can));
    t := Step(c, u, Run(0));
    assert u.producers[0].position == u.sh.publishPosition;
    Onward(c, s, u, t, Publishing(Fill));
  }

  lemma ReachStore(c: Config, s: State, start: State) returns (t: State)
    requires Inv(c, s) && LeadsTo(c, s, start) && Inv(c, start) && Midway(c, s, start, Publishing(Fill))
    ensures Inv(c, t) && LeadsTo(c, s, t) && Midway(c, s, t, Publishing(Store))
  {
    assert start.sh.data.entries[start.producers[0].position % c.entryCount].status != SKIP;
    var u := Step(c, start, Run(0));
    Onward(c, s, start, u, Publishing(Mark));
    t := Step(c, u, Run(0));
    Onward(c, s, u, t, Publishing(Store));
  }

  lemma PublishMeanwhile(c: Config, s: State) returns (t: State)
    requires Inv(c, s) && |s.producers| > 0 && s.producers[0].pc.Idle? && !s.producers[0].stopping
      && s.sh.locks.spinLock.None?
    requires s.sh.readPosition == s.sh.publishPosition
    ensures Inv(c, t) && LeadsTo(c, s, t) && t.consumer == s.consumer
    ensures t.sh.readPosition == s.sh.readPosition < t.sh.publishPosition
      && t.sh.locks.waitMutex == s.sh.locks.waitMutex
  {
    var u := Enter(c, s);
    u := ReachFill(c, s, u);
    u := ReachStore(c, s, u);
    LeadsByOne(c, u, Run(0));
    assert ProducerOk(c, u.sh, ConsumerOwesSignal(u.consumer.pc), 0, u.producers[0]);
    t := StorePosition(c, u);
    LeadsOn(c, s, u, t);
  }

  lemma StorePosition(c: Config, s: State) returns (t: State)
    requires Shape(c, s) && |s.producers| > 0 && s.producers[0].pc == Publishing(Store)
    requires s.producers[0].position == s.sh.publishPosition
    ensures t == Step(c, s, Run(0)) && t.consumer == s.consumer && t.sh.locks == s.sh.locks
    ensures t.sh.readPosition == s.sh.readPosition && t.sh.publishPosition == s.sh.publishPosition + 1
  {
    t := Step(c, s, Run(0));
  }

  // ---- and the consumer takes the message ----

  lemma TakeUnderMutex(c: Config, s: State) returns (t: State)
    requires Inv(c, s) && s.consumer.pc == Trying(Locked, Compare) && s.sh.readPosition < s.sh.publishPosition
    requires c.producerWait.MutexUsed()
    ensures Inv(c, t) && LeadsTo(c, s, t) && Stuck(t)
  {
    var u := FindUnderMutex(c, s);
    TakeKeepsData(c, u);
    LeadsByOne(c, u, RunConsumer);
    var v := Step(c, u, RunConsumer);
    assert v.consumer.pc == Trying(Locked, Bump(true));
    t := BumpUnderMutex(c, v);
    LeadsOn(c, s, u, v);
    LeadsOn(c, s, v, t);
  }

  lemma BumpUnderMutex(c: Config, s: State) returns (t: State)
    requires Inv(c, s) && s.consumer.pc == Trying(Locked, Bump(true)) && c.producerWait.MutexUsed()
    ensures Inv(c, t) && LeadsTo(c, s, t) && Stuck(t)
  {
    LeadsByOne(c, s, RunConsumer);
    t := Step(c, s, RunConsumer);
  }

  lemma FindUnderMutex(c: Config, s: State) returns (t: State)
    requires Inv(c, s) && s.consumer.pc == Trying(Locked, Compare) && s.sh.readPosition < s.sh.publishPosition
    ensures Inv(c, t) && LeadsTo(c, s, t) && t.consumer.pc == Trying(Locked, Take)
  {
    LeadsByOne(c, s, RunConsumer);
    t := Step(c, s, RunConsumer);
    if t.consumer.pc.at.Load? {
      var u := t;
      LeadsByOne(c, u, RunConsumer);
      t := Step(c, u, RunConsumer);
      LeadsOn(c, s, u, t);
    }
  }

  // ---- exactly when ----

  lemma MutexIsReached(c: Config, s: State) returns (t: State)
    requires Inv(c, s) && Polling(c, s) && s.consumer.pc == Getting(Again) && CountsRunOut(s.consumer.left)
    ensures Inv(c, t) && LeadsTo(c, s, t) && t.sh == s.sh.Mutex(ByConsumer) && t.producers == s.producers
    ensures t.consumer.pc == Trying(Locked, Compare)
  {
    var u := PollOnce(c, s);
    var v := PollUntilMutex(c, u);
    LeadsOn(c, s, u, v);
    LeadsByOne(c, v, RunConsumer);
    t := TakeMutex(c, v);
    LeadsOn(c, s, v, t);
  }

  lemma TakeMutex(c: Config, s: State) returns (t: State)
    requires Shape(c, s) && s.consumer.pc == Getting(WaitLock) && s.sh.locks.waitMutex.Free?
    ensures t == Step(c, s, RunConsumer) && t.sh == s.sh.Mutex(ByConsumer) && t.producers == s.producers
    ensures t.consumer.pc == Trying(Locked, Compare)
  {
    t := Step(c, s, RunConsumer);
  }

  lemma StuckIsReached(c: Config, s: State) returns (t: State)
    requires Init(c, s) && |s.producers| > 0 && c.producerWait.MutexUsed() && c.consumerWait.RunsOut()
    ensures Inv(c, s) && Inv(c, t) && LeadsTo(c, s, t) && Stuck(t)
  {
    InitIsInv(c, s);
    assert NewProducer(s.producers[0]);
    LeadsByOne(c, s, CallGet);
    var u := Step(c, s, CallGet);
    var v := MutexIsReached(c, u);
    LeadsOn(c, s, u, v);
    var w := PublishMeanwhile(c, v);
    LeadsOn(c, s, v, w);
    t := TakeUnderMutex(c, w);
    LeadsOn(c, s, w, t);
  }

  // The consumer can end up waiting for itself exactly if no count of the producers' strategy is FOREVER and all of its
  // own are below it.
  lemma StuckExactlyWhen(c: Config, s: State)
    requires Init(c, s) && |s.producers| > 0
    ensures Inv(c, s)
    ensures (exists t: State :: LeadsTo(c, s, t) && Stuck(t)) <==>
      && c.producerWait.spinCount != FOREVER && c.producerWait.yieldCount != FOREVER
      && c.producerWait.sleepCount != FOREVER
      && c.consumerWait.spinCount < FOREVER && c.consumerWait.yieldCount < FOREVER
        && c.consumerWait.sleepCount < FOREVER
  {
    InitIsInv(c, s);
    if t: State :| LeadsTo(c, s, t) && Stuck(t) {
      var actions :| After(c, s, actions) == t;
      assert ConsumerOk(c, t.sh, SomeoneOwesSignal(t), t.consumer);
    }
    if c.producerWait.MutexUsed() && c.consumerWait.RunsOut() {
      var t := StuckIsReached(c, s);
    }
  }
}
