// Which waits are reached, and that no thread waits for a lock forever but a consumer that waits for itself.
module QueueSleep {
  import opened QueueMachine
  import opened QueueInvariants
  import opened QueueData
  import opened QueueSystem
  import opened QueueRuns
  import opened QueueDeadlock

  // ---- whoever has a lock can go on ----

  // A producer that has the mutex, or the spin lock while the mutex is free, is not where it started after its step.
  lemma ProducerMoves(c: Config, s: State, p: nat)
    requires Inv(c, s) && p < |s.producers|
    requires HasMutex(s.producers[p].pc) || (s.sh.locks.spinLock == Some(p) && s.sh.locks.waitMutex.Free?)
    ensures Step(c, s, Run(p)) != s
  {
    var pr := s.producers[p];
    assert LocksOf(c, s.sh, p, pr) by {
      assert ProducerOk(c, s.sh, ConsumerOwesSignal(s.consumer.pc), p, pr);
    }
    if pr.pc.Publishing? {
      PublishMoves(c, s.sh, p, pr);
    } else {
      BlockMoves(c, s.sh, p, pr);
    }
    assert Step(c, s, Run(p)).producers[p] != pr;
  }

  lemma PublishMoves(c: Config, sh: Shared, p: nat, pr: Producer)
    requires c.entryCount > 0 && |sh.data.entries| == c.entryCount && pr.pc.Publishing?
    requires pr.pc.at.Notify? ==> sh.locks.waitMutex.Free?
    ensures PublishStep(c, sh, p, pr).1.pc != pr.pc
  {
  }

  lemma BlockMoves(c: Config, sh: Shared, p: nat, pr: Producer)
    requires pr.pc.Blocking? && HasMutex(pr.pc)
    ensures BlockStep(c, sh, p, pr).1.pc != pr.pc
  {
  }

  lemma ConsumerMoves(c: Config, s: State)
    requires Inv(c, s) && ConsumerHasMutex(s.consumer.pc) && !Stuck(s)
    ensures Step(c, s, RunConsumer) != s
  {
    assert Step(c, s, RunConsumer).consumer.pc != s.consumer.pc;
  }

  // Where a lock is taken, some thread that has one changes the state with its next step, unless the consumer waits for
  // itself: no other set of threads can wait for one another.
  lemma HolderCanStep(c: Config, s: State)
    requires Reachable(c, s) && s.sh.locks != Locks(None, Free) && !Stuck(s)
    ensures Inv(c, s)
    ensures (s.sh.locks.waitMutex.ByConsumer? && Step(c, s, RunConsumer) != s)
      || exists p: nat :: p < |s.producers| && (s.sh.locks.spinLock == Some(p) || s.sh.locks.waitMutex == ByProducer(p))
                          && Step(c, s, Run(p)) != s
  {
    ReachableIsInv(c, s);
    if s.sh.locks.waitMutex.ByConsumer? {
      assert ConsumerOk(c, s.sh, SomeoneOwesSignal(s), s.consumer);
      ConsumerMoves(c, s);
    } else {
      var p := if s.sh.locks.waitMutex.Free? then s.sh.locks.spinLock.value else s.sh.locks.waitMutex.p;
      assert ProducerOk(c, s.sh, ConsumerOwesSignal(s.consumer.pc), p, s.producers[p]);
      ProducerMoves(c, s, p);
    }
  }

  // ---- a producer on its own ----

  // Only producer 0 is in a call, and there.
  ghost predicate Alone(c: Config, s: State, pc: PPc) {
    && Inv(c, s) && |s.producers| > 0 && s.consumer.pc.Resting?
    && (forall q: nat | 0 < q < |s.producers| :: s.producers[q].pc.Idle?)
    && s.producers[0].pc == pc && !s.producers[0].stopping
  }

  lemma LocksWhenAlone(c: Config, s: State, pc: PPc)
    requires Alone(c, s, pc)
    ensures LocksOf(c, s.sh, 0, s.producers[0]) && PositionsOf(c, s.sh, s.producers[0])
    ensures !HasMutex(pc) ==> s.sh.locks.waitMutex.Free?
    ensures !(!c.solo && pc.Publishing?) ==> s.sh.locks.spinLock.None?
  {
    assert ConsumerOk(c, s.sh, SomeoneOwesSignal(s), s.consumer);
    forall q: nat | q < |s.producers| ensures LocksOf(c, s.sh, q, s.producers[q]) {
      assert ProducerOk(c, s.sh, ConsumerOwesSignal(s.consumer.pc), q, s.producers[q]);
    }
    assert ProducerOk(c, s.sh, ConsumerOwesSignal(s.consumer.pc), 0, s.producers[0]);
    if s.sh.locks.waitMutex.ByProducer? {
      assert LocksOf(c, s.sh, s.sh.locks.waitMutex.p, s.producers[s.sh.locks.waitMutex.p]);
    }
    if s.sh.locks.spinLock.Some? {
      assert LocksOf(c, s.sh, s.sh.locks.spinLock.value, s.producers[s.sh.locks.spinLock.value]);
    }
  }

  // t follows s by steps of producer 0, and the read position stays.
  ghost predicate Follows(c: Config, s: State, t: State, pc: PPc)
    requires Inv(c, s)
  {
    Alone(c, t, pc) && LeadsTo(c, s, t) && t.sh.readPosition == s.sh.readPosition
  }

  lemma FollowsOn(c: Config, s: State, t: State, u: State, pc: PPc)
    requires Inv(c, s) && Inv(c, t) && LeadsTo(c, s, t) && t.sh.readPosition == s.sh.readPosition
      && Follows(c, t, u, pc)
    ensures Follows(c, s, u, pc)
  {
    LeadsOn(c, s, t, u);
  }

  // One action of producer 0.
  lemma ActAlone(c: Config, s: State, pc: PPc, a: Action)
    requires Alone(c, s, pc) && (a == Call(0) || a == Run(0))
    ensures var t := Step(c, s, a); Inv(c, t) && |t.producers| > 0 && Follows(c, s, t, t.producers[0].pc)
  {
    var t := Step(c, s, a);
    LeadsByOne(c, s, a);
    assert ProducerOk(c, s.sh, ConsumerOwesSignal(s.consumer.pc), 0, s.producers[0]);
    ActOk(c, s.sh, ConsumerOwesSignal(s.consumer.pc), 0, s.producers[0], a);
    StoppingStays(c, s.sh, 0, s.producers[0], a);
  }

  lemma StoppingStays(c: Config, sh: Shared, p: nat, pr: Producer, a: Action)
    requires c.entryCount > 0 && |sh.data.entries| == c.entryCount && pr.cargo.message.block < |sh.data.memory|
    requires a.Call? || a.Run?
    ensures ProducerAct(c, sh, p, pr, a).1.stopping == pr.stopping
  {
    if a.Run? && pr.pc.Blocking? { BlockStoppingStays(c, sh, p, pr); }
  }

  lemma BlockStoppingStays(c: Config, sh: Shared, p: nat, pr: Producer)
    requires pr.pc.Blocking?
    ensures BlockStep(c, sh, p, pr).1.stopping == pr.stopping
  {
  }

  // ---- one whole call of publish ----

  // Where publish goes from each point when the mutex is free and nothing is stopped, but for the test of Can.
  function Leaving(c: Config, at: PublishPc): PPc {
    match at
    case Top => Publishing(Can)
    case Can => Publishing(Can)
    case Fill => Publishing(Mark)
    case Mark => Publishing(Store)
    case Store => Publishing(Notify)
    case Notify => if c.consumerWait.MutexUsed() then Publishing(Signal) else Publishing(Finish)
    case Signal => Publishing(Unlock)
    case Unlock => Publishing(Finish)
    case Finish => Idle
    case Drop => Contending(Backoff)
  }

  lemma PublishGoes(c: Config, s: State, at: PublishPc) returns (t: State)
    requires Alone(c, s, Publishing(at)) && !at.Can?
    ensures Follows(c, s, t, Leaving(c, at))
    ensures t.sh.publishPosition == s.sh.publishPosition + if at.Store? then 1 else 0
    ensures t.producers[0].left == s.producers[0].left && t.producers[0].timedOut == s.producers[0].timedOut
  {
    LocksWhenAlone(c, s, Publishing(at));
    ActAlone(c, s, Publishing(at), Run(0));
    t := Step(c, s, Run(0));
    if at.Fill? {
      assert s.sh.data.entries[s.producers[0].position % c.entryCount].status != SKIP;
    }
    PublishAfter(c, s.sh, s.producers[0]);
  }

  lemma PublishAfter(c: Config, sh: Shared, pr: Producer)
    requires c.entryCount > 0 && |sh.data.entries| == c.entryCount && pr.pc.Publishing? && !pr.pc.at.Can?
      && !pr.stopping
    requires PositionsOf(c, sh, pr) && (pr.pc.at.Notify? ==> sh.locks.waitMutex.Free?)
    requires sh.data.entries[pr.position % c.entryCount].status != SKIP
    ensures var r := PublishStep(c, sh, 0, pr);
      && r.1.pc == Leaving(c, pr.pc.at) && r.1.left == pr.left && r.1.timedOut == pr.timedOut
      && r.0.publishPosition == sh.publishPosition + if pr.pc.at.Store? then 1 else 0
  {
  }

  lemma CanGoes(c: Config, s: State) returns (t: State)
    requires Alone(c, s, Publishing(Can))
    ensures t.sh.publishPosition == s.sh.publishPosition && |t.producers| > 0
    ensures Follows(c, s, t, t.producers[0].pc) && t.producers[0].timedOut == s.producers[0].timedOut
    ensures
      if s.sh.publishPosition < s.sh.readPosition + c.entryCount then t.producers[0].pc == Publishing(Fill)
      else if c.solo then t.producers[0].pc == Retrying(Test) && t.producers[0].left == Fresh(c.producerWait)
      else t.producers[0].pc == Publishing(Drop) && t.producers[0].left == s.producers[0].left
  {
    LocksWhenAlone(c, s, Publishing(Can));
    ActAlone(c, s, Publishing(Can), Run(0));
    t := Step(c, s, Run(0));
  }

  // publish is called, and up to the test for room.
  lemma EnterPublish(c: Config, s: State) returns (t: State)
    requires Alone(c, s, Idle)
    ensures Follows(c, s, t, Publishing(Can)) && t.sh.publishPosition == s.sh.publishPosition
    ensures t.producers[0].left == Fresh(c.producerWait) && !t.producers[0].timedOut
  {
    LocksWhenAlone(c, s, Idle);
    ActAlone(c, s, Idle, Call(0));
    var u := Step(c, s, Call(0));
    if c.solo {
      t := PublishGoes(c, u, Top);
      FollowsOn(c, s, u, t, Publishing(Can));
    } else {
      t := TakeLock(c, u);
      FollowsOn(c, s, u, t, Publishing(Can));
    }
  }

  // The spin lock is free, and is taken.
  lemma TakeLock(c: Config, s: State) returns (t: State)
    requires Alone(c, s, Contending(Acquire))
    ensures Follows(c, s, t, Publishing(Can)) && t.sh.publishPosition == s.sh.publishPosition
    ensures t.producers[0].left == s.producers[0].left && t.producers[0].timedOut == s.producers[0].timedOut
  {
    LocksWhenAlone(c, s, Contending(Acquire));
    ActAlone(c, s, Contending(Acquire), Run(0));
    var u := Step(c, s, Run(0));
    t := PublishGoes(c, u, Top);
    FollowsOn(c, s, u, t, Publishing(Can));
  }

  lemma PublishOne(c: Config, s: State) returns (t: State)
    requires Alone(c, s, Idle) && s.sh.publishPosition < s.sh.readPosition + c.entryCount
    ensures Follows(c, s, t, Idle) && t.sh.publishPosition == s.sh.publishPosition + 1
  {
    var u := EnterPublish(c, s);
    t := CanGoes(c, u);
    FollowsOn(c, s, u, t, Publishing(Fill));
    u := FillAndStore(c, t);
    FollowsOn(c, s, t, u, Publishing(Notify));
    t := FinishPublish(c, u);
    FollowsOn(c, s, u, t, Idle);
  }

  lemma FillAndStore(c: Config, s: State) returns (t: State)
    requires Alone(c, s, Publishing(Fill))
    ensures Follows(c, s, t, Publishing(Notify)) && t.sh.publishPosition == s.sh.publishPosition + 1
  {
    var u := PublishGoes(c, s, Fill);
    t := PublishGoes(c, u, Mark);
    FollowsOn(c, s, u, t, Publishing(Store));
    u := PublishGoes(c, t, Store);
    FollowsOn(c, s, t, u, Publishing(Notify));
    t := u;
  }

  lemma FinishPublish(c: Config, s: State) returns (t: State)
    requires Alone(c, s, Publishing(Notify))
    ensures Follows(c, s, t, Idle) && t.sh.publishPosition == s.sh.publishPosition
  {
    var u := PublishGoes(c, s, Notify);
    if c.consumerWait.MutexUsed() {
      var v := SignalAndUnlock(c, u);
      FollowsOn(c, s, u, v, Publishing(Finish));
      u := v;
    }
    t := PublishGoes(c, u, Finish);
    FollowsOn(c, s, u, t, Idle);
  }

  lemma SignalAndUnlock(c: Config, s: State) returns (t: State)
    requires Alone(c, s, Publishing(Signal))
    ensures Follows(c, s, t, Publishing(Finish)) && t.sh.publishPosition == s.sh.publishPosition
  {
    var u := PublishGoes(c, s, Signal);
    t := PublishGoes(c, u, Unlock);
    FollowsOn(c, s, u, t, Publishing(Finish));
  }

  lemma FillUp(c: Config, s: State) returns (t: State)
    requires Alone(c, s, Idle)
    ensures Follows(c, s, t, Idle) && t.sh.publishPosition == s.sh.readPosition + c.entryCount
    decreases s.sh.readPosition + c.entryCount - s.sh.publishPosition
  {
    if s.sh.publishPosition == s.sh.readPosition + c.entryCount {
      t := s;
      LeadsNowhere(c, s);
    } else {
      var u := PublishOne(c, s);
      t := FillUp(c, u);
      FollowsOn(c, s, u, t, Idle);
    }
  }

  lemma LeadsNowhere(c: Config, s: State)
    requires Inv(c, s)
    ensures LeadsTo(c, s, s)
  {
    assert QueueRuns.After(c, s, []) == s;
  }

  // ---- waiting on a full queue ----

  // Producer 0 is about to give its strategy a turn, and the queue is full.
  ghost predicate Waiting(c: Config, s: State) {
    && Alone(c, s, if c.solo then Retrying(Backing) else Contending(Backoff))
    && s.sh.publishPosition == s.sh.readPosition + c.entryCount
    && CountsRunOut(s.producers[0].left) && !s.producers[0].timedOut
  }

  lemma WaitWhenFull(c: Config, s: State) returns (t: State)
    requires Alone(c, s, Publishing(Can)) && s.sh.publishPosition == s.sh.readPosition + c.entryCount
    requires !c.solo ==> CountsRunOut(s.producers[0].left)
    requires c.producerWait.RunsOut() && !s.producers[0].timedOut
    ensures Waiting(c, t) && Follows(c, s, t, t.producers[0].pc) && t.sh.publishPosition == s.sh.publishPosition
    ensures !c.solo ==> t.producers[0].left == s.producers[0].left
  {
    var u := CanGoes(c, s);
    if c.solo {
      t := TestAgain(c, u);
    } else {
      t := PublishGoes(c, u, Drop);
    }
    FollowsOn(c, s, u, t, t.producers[0].pc);
    LocksWhenAlone(c, t, t.producers[0].pc);
  }

  lemma TestAgain(c: Config, s: State) returns (t: State)
    requires Alone(c, s, Retrying(Test)) && s.sh.publishPosition == s.sh.readPosition + c.entryCount
    ensures Follows(c, s, t, Retrying(Backing)) && t.sh.publishPosition == s.sh.publishPosition
    ensures t.producers[0].left == s.producers[0].left && t.producers[0].timedOut == s.producers[0].timedOut
  {
    LocksWhenAlone(c, s, Retrying(Test));
    ActAlone(c, s, Retrying(Test), Run(0));
    t := Step(c, s, Run(0));
  }

  // Counts that run out do run out, and the producer goes for the mutex.
  lemma WaitUntilMutex(c: Config, s: State) returns (t: State)
    requires Waiting(c, s) && c.producerWait.RunsOut()
    ensures Follows(c, s, t, Blocking(Lock)) && t.sh.publishPosition == s.sh.readPosition + c.entryCount
    decreases s.producers[0].left.spins + s.producers[0].left.naps + s.producers[0].left.sleeps
  {
    var u := OneTurn(c, s);
    if u.producers[0].pc == Blocking(Lock) {
      t := u;
    } else {
      t := WaitUntilMutex(c, u);
      FollowsOn(c, s, u, t, Blocking(Lock));
    }
  }

  // One turn of the strategy: round the loop with less left, or on to the mutex.
  lemma OneTurn(c: Config, s: State) returns (t: State)
    requires Waiting(c, s) && c.producerWait.RunsOut()
    ensures |t.producers| > 0 && Follows(c, s, t, t.producers[0].pc)
    ensures t.sh.publishPosition == s.sh.readPosition + c.entryCount
    ensures t.producers[0].pc == Blocking(Lock)
      || (Waiting(c, t) && Left(t.producers[0].left) < Left(s.producers[0].left))
  {
    var pc := s.producers[0].pc;
    ActAlone(c, s, pc, Run(0));
    var u := Step(c, s, Run(0));
    if Turn(s.producers[0].left).None? {
      t := u;
    } else {
      t := RoundTheLoop(c, u);
      FollowsOn(c, s, u, t, t.producers[0].pc);
    }
  }

  // From the turn of the strategy back to the test for room, and there is none.
  lemma RoundTheLoop(c: Config, s: State) returns (t: State)
    requires Alone(c, s, if c.solo then Retrying(Refresh) else Contending(Acquire))
    requires s.sh.publishPosition == s.sh.readPosition + c.entryCount && c.producerWait.RunsOut()
    requires CountsRunOut(s.producers[0].left) && !s.producers[0].timedOut
    ensures Waiting(c, t) && Follows(c, s, t, t.producers[0].pc)
    ensures t.producers[0].left == s.producers[0].left
  {
    if c.solo {
      t := RefreshAndTest(c, s);
    } else {
      var u := TakeLock(c, s);
      t := WaitWhenFull(c, u);
      FollowsOn(c, s, u, t, t.producers[0].pc);
    }
  }

  function Left(n: Count): nat {
    n.spins + n.naps + n.sleeps
  }

  lemma RefreshAndTest(c: Config, s: State) returns (t: State)
    requires Alone(c, s, Retrying(Refresh)) && s.sh.publishPosition == s.sh.readPosition + c.entryCount
    ensures Follows(c, s, t, Retrying(Backing)) && t.sh.publishPosition == s.sh.publishPosition
    ensures t.producers[0].left == s.producers[0].left && t.producers[0].timedOut == s.producers[0].timedOut
  {
    ActAlone(c, s, Retrying(Refresh), Run(0));
    var u := Step(c, s, Run(0));
    t := TestAgain(c, u);
    FollowsOn(c, s, u, t, Retrying(Backing));
  }

  // ---- falling asleep ----

  lemma LockToFlag(c: Config, s: State) returns (t: State)
    requires Alone(c, s, Blocking(Lock)) && s.sh.publishPosition == s.sh.readPosition + c.entryCount
    ensures Follows(c, s, t, Blocking(Flag))
  {
    LocksWhenAlone(c, s, Blocking(Lock));
    ActAlone(c, s, Blocking(Lock), Run(0));
    var u := Step(c, s, Run(0));
    if c.solo {
      t := SeeFull(c, u, Check);
    } else {
      ActAlone(c, u, Blocking(Peek), Run(0));
      var v := Step(c, u, Run(0));
      FollowsOn(c, s, u, v, Blocking(CanNow));
      u := v;
      t := SeeFull(c, u, CanNow);
    }
    FollowsOn(c, s, u, t, Blocking(Flag));
  }

  lemma SeeFull(c: Config, s: State, on: BlockPc) returns (t: State)
    requires Alone(c, s, Blocking(on)) && (on == Check || on == CanNow)
    requires s.sh.publishPosition == s.sh.readPosition + c.entryCount <= s.producers[0].position
    ensures Follows(c, s, t, Blocking(Flag))
  {
    LocksWhenAlone(c, s, Blocking(on));
    ActAlone(c, s, Blocking(on), Run(0));
    t := Step(c, s, Run(0));
  }

  lemma FlagAndSleep(c: Config, s: State) returns (t: State)
    requires Alone(c, s, Blocking(Flag))
    ensures Follows(c, s, t, Blocking(Asleep)) && t.sh.sleep.producersAsleep != {}
  {
    ActAlone(c, s, Blocking(Flag), Run(0));
    var u := Step(c, s, Run(0));
    ActAlone(c, u, Blocking(Sleeping), Run(0));
    t := Step(c, u, Run(0));
    assert 0 in t.sh.sleep.producersAsleep;
    FollowsOn(c, s, u, t, Blocking(Asleep));
  }

  lemma ProducerFallsAsleep(c: Config, s: State) returns (t: State)
    requires Init(c, s) && |s.producers| > 0 && c.producerWait.RunsOut()
    ensures Inv(c, s) && LeadsTo(c, s, t) && t.sh.sleep.producersAsleep != {}
  {
    InitIsInv(c, s);
    forall q: nat | q < |s.producers| ensures s.producers[q].pc.Idle? && !s.producers[q].stopping {
      assert NewProducer(s.producers[q]);
    }
    var u := FillUp(c, s);
    var v := EnterPublish(c, u);
    FollowsOn(c, s, u, v, Publishing(Can));
    t := WaitAndSleep(c, v);
    LeadsOn(c, s, v, t);
  }

  lemma WaitAndSleep(c: Config, s: State) returns (t: State)
    requires Alone(c, s, Publishing(Can)) && s.sh.publishPosition == s.sh.readPosition + c.entryCount
    requires CountsRunOut(s.producers[0].left) && c.producerWait.RunsOut() && !s.producers[0].timedOut
    ensures Follows(c, s, t, Blocking(Asleep)) && t.sh.sleep.producersAsleep != {}
  {
    var u := WaitWhenFull(c, s);
    var v := WaitUntilMutex(c, u);
    FollowsOn(c, s, u, v, Blocking(Lock));
    u := LockToFlag(c, v);
    FollowsOn(c, s, v, u, Blocking(Flag));
    t := FlagAndSleep(c, u);
    FollowsOn(c, s, u, t, Blocking(Asleep));
  }

  // From any start with a producer, some run puts a producer to sleep exactly if its strategy runs out.
  lemma ProducerSleepsExactlyWhen(c: Config, s: State)
    requires Init(c, s) && |s.producers| > 0
    ensures Inv(c, s)
    ensures (exists t: State :: LeadsTo(c, s, t) && t.sh.sleep.producersAsleep != {}) <==>
      && c.producerWait.spinCount < 0xFFFF_FFFF && c.producerWait.yieldCount < 0xFFFF_FFFF
      && c.producerWait.sleepCount < 0xFFFF_FFFF
  {
    InitIsInv(c, s);
    if t: State :| LeadsTo(c, s, t) && t.sh.sleep.producersAsleep != {} {
      var p :| p in t.sh.sleep.producersAsleep;
      assert ProducerOk(c, t.sh, ConsumerOwesSignal(t.consumer.pc), p, t.producers[p]);
    }
    if c.producerWait.RunsOut() {
      var t := ProducerFallsAsleep(c, s);
    }
  }

  // ---- the consumer ----

  // The queue is empty, and the consumer has looked under the mutex.
  lemma ConsumerFallsAsleep(c: Config, s: State) returns (t: State)
    requires Inv(c, s) && s.consumer.pc == Trying(Locked, Compare) && s.sh.readPosition == s.sh.publishPosition
    ensures LeadsTo(c, s, t) && t.sh.sleep.consumerAsleep
  {
    var u := SeeEmpty(c, s);
    LeadsByOne(c, u, RunConsumer);
    var v := RaiseFlag(c, u);
    LeadsOn(c, s, u, v);
    LeadsByOne(c, v, RunConsumer);
    t := GoToSleep(c, v);
    LeadsOn(c, s, v, t);
  }

  lemma RaiseFlag(c: Config, s: State) returns (t: State)
    requires Shape(c, s) && s.consumer.pc == Getting(WaitFlag)
    ensures t == Step(c, s, RunConsumer) && t.consumer.pc == Getting(WaitSleep)
  {
    t := Step(c, s, RunConsumer);
  }

  lemma GoToSleep(c: Config, s: State) returns (t: State)
    requires Shape(c, s) && s.consumer.pc == Getting(WaitSleep)
    ensures t == Step(c, s, RunConsumer) && t.sh.sleep.consumerAsleep
  {
    t := Step(c, s, RunConsumer);
  }

  lemma SeeEmpty(c: Config, s: State) returns (t: State)
    requires Inv(c, s) && s.consumer.pc == Trying(Locked, Compare) && s.sh.readPosition == s.sh.publishPosition
    ensures Inv(c, t) && LeadsTo(c, s, t) && t.consumer.pc == Getting(WaitFlag)
  {
    assert ConsumerOk(c, s.sh, SomeoneOwesSignal(s), s.consumer);
    LeadsByOne(c, s, RunConsumer);
    var u := Step(c, s, RunConsumer);
    t := LoadEmpty(c, u);
    LeadsOn(c, s, u, t);
  }

  lemma LoadEmpty(c: Config, s: State) returns (t: State)
    requires Inv(c, s) && s.consumer.pc == Trying(Locked, Load) && s.sh.readPosition == s.sh.publishPosition
    ensures Inv(c, t) && LeadsTo(c, s, t) && t.consumer.pc == Getting(WaitFlag)
  {
    LeadsByOne(c, s, RunConsumer);
    t := Step(c, s, RunConsumer);
  }

  lemma ConsumerCanSleep(c: Config, s: State) returns (t: State)
    requires Init(c, s) && |s.producers| > 0 && c.consumerWait.RunsOut()
    ensures Inv(c, s) && LeadsTo(c, s, t) && t.sh.sleep.consumerAsleep
  {
    InitIsInv(c, s);
    assert NewProducer(s.producers[0]);
    LeadsByOne(c, s, CallGet);
    var u := Step(c, s, CallGet);
    var v := MutexIsReached(c, u);
    LeadsOn(c, s, u, v);
    t := ConsumerFallsAsleep(c, v);
    LeadsOn(c, s, v, t);
  }

  // From any start with a producer, some run puts the consumer to sleep exactly if its strategy runs out.
  lemma ConsumerSleepsExactlyWhen(c: Config, s: State)
    requires Init(c, s) && |s.producers| > 0
    ensures Inv(c, s)
    ensures (exists t: State :: LeadsTo(c, s, t) && t.sh.sleep.consumerAsleep) <==>
      && c.consumerWait.spinCount < 0xFFFF_FFFF && c.consumerWait.yieldCount < 0xFFFF_FFFF
      && c.consumerWait.sleepCount < 0xFFFF_FFFF
  {
    InitIsInv(c, s);
    if t: State :| LeadsTo(c, s, t) && t.sh.sleep.consumerAsleep {
      assert ConsumerOk(c, t.sh, SomeoneOwesSignal(t), t.consumer);
    }
    if c.consumerWait.RunsOut() {
      var t := ConsumerCanSleep(c, s);
    }
  }
}
