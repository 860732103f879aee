// What holds of each thread of the ring queue in every reachable state, and what its steps do to the others.
module QueueInvariants {
  import opened QueueMachine

  // ---- locks ----

  predicate HasMutex(pc: PPc) {
    match pc
    case Publishing(at) => at.Signal? || at.Unlock?
    case Blocking(on) => !on.Lock? && !on.Asleep?
    case _ => false
  }

  // The program counter belongs to the path the producer takes, alone or among others.
  predicate OnPath(solo: bool, pc: PPc) {
    match pc
    case Idle => true
    case Publishing(at) => solo ==> !at.Drop?
    case Contending(_) => !solo
    case Retrying(_) => solo
    case Blocking(on) => if solo then !on.Peek? && !on.CanNow? else !on.Check? && !on.Throw?
  }

  // A producer owns the spin lock exactly between taking it and letting it go, a solo producer never;
  // it owns the wait mutex exactly when its program counter says so.
  predicate LocksOf(c: Config, sh: Shared, p: nat, pr: Producer) {
    && OnPath(c.solo, pr.pc)
    && (pr.owns <==> sh.locks.spinLock == Some(p))
    && (pr.owns <==> !c.solo && pr.pc.Publishing?)
    && (sh.locks.waitMutex == ByProducer(p) <==> HasMutex(pr.pc))
  }

  predicate UnderMutex(via: Caller) {
    via.Locked? || via.Late?
  }

  predicate ConsumerHasMutex(pc: CPc) {
    match pc
    case Resting => false
    case Trying(via, at) => UnderMutex(via) || at.NotifySignal? || at.NotifyUnlock?
    case Getting(to) => to.WaitFlag? || to.WaitSleep? || to.WaitWoken? || to.UnlockAgain? || to.UnlockDone?
  }

  // ---- positions ----

  // The producer is about to use the position it read as the next to publish.
  predicate Claims(solo: bool, pc: PPc) {
    match pc
    case Publishing(at) => at.Can? || at.Fill? || at.Mark? || at.Store?
    case Retrying(_) => true
    case Blocking(_) => solo
    case _ => false
  }

  predicate Writing(pc: PPc) {
    pc.Publishing? && (pc.at.Fill? || pc.at.Mark? || pc.at.Store?)
  }

  predicate PositionsOf(c: Config, sh: Shared, pr: Producer) {
    && pr.publishable <= sh.readPosition + c.entryCount
    && (Claims(c.solo, pr.pc) ==> pr.position == sh.publishPosition)
    && (pr.pc == Blocking(CanNow) ==> pr.position <= sh.publishPosition)
    && (Writing(pr.pc) ==> pr.position < pr.publishable)
    && (pr.pc == Publishing(Store) ==> pr.published)
  }

  // At most entryCount messages are in the queue.
  predicate Positions(c: Config, sh: Shared) {
    c.entryCount <= sh.readPosition <= sh.publishPosition <= sh.readPosition + c.entryCount
  }

  // No entry is ever marked to be stepped over.
  predicate NoSkips(sh: Shared) {
    forall i: nat | i < |sh.data.entries| :: sh.data.entries[i].status != SKIP
  }

  // ---- patience ----

  // A count of FOREVER or more never gets below it.
  predicate Lasting(w: WaitStrategy, n: Count) {
    && (w.spinCount >= FOREVER ==> n.spins >= FOREVER)
    && (w.yieldCount >= FOREVER ==> n.naps >= FOREVER)
    && (w.sleepCount >= FOREVER ==> n.sleeps >= FOREVER)
  }

  predicate PatienceOf(c: Config, pr: Producer) {
    && (!pr.pc.Idle? ==> Lasting(c.producerWait, pr.left))
    && (pr.pc.Blocking? ==> c.producerWait.RunsOut())
    && (pr.pc.Publishing? && (pr.pc.at.Signal? || pr.pc.at.Unlock?) ==> c.consumerWait.MutexUsed())
  }

  // The part of getNext that is reached only when the consumer's strategy runs out.
  predicate ConsumerAtMutex(pc: CPc) {
    match pc
    case Resting => false
    case Trying(via, _) => UnderMutex(via)
    case Getting(to) => !to.Again? && !to.BackOff?
  }

  // ---- sleeping ----

  // A producer has stored the publish position and not yet looked whether the consumer waits.
  predicate OwesSignal(pc: PPc) {
    pc.Publishing? && (pc.at.Notify? || pc.at.Signal?)
  }

  // The consumer has moved the read position and not yet looked whether a producer waits.
  predicate ConsumerOwesSignal(pc: CPc) {
    pc.Trying? && (pc.at.NotifyLock? || pc.at.NotifySignal?)
  }

  // Asleep and not notified, or under the mutex on the way to sleep.
  predicate Dozing(sh: Shared, p: nat, pc: PPc) {
    p in sh.sleep.producersAsleep || pc == Blocking(Sleeping) || pc == Blocking(Flag)
  }

  predicate SleepOf(c: Config, sh: Shared, owed: bool, p: nat, pr: Producer) {
    && (p in sh.sleep.producersAsleep ==> pr.pc == Blocking(Asleep))
    && (p in sh.sleep.producersAsleep || pr.pc == Blocking(Sleeping) ==> sh.sleep.producerWaiting)
    && (Dozing(sh, p, pr.pc) ==> sh.publishPosition == sh.readPosition + c.entryCount || owed)
  }

  // ---- one thread at a time ----

  // owed: the consumer still owes the producers a signal.
  predicate ProducerOk(c: Config, sh: Shared, owed: bool, p: nat, pr: Producer) {
    LocksOf(c, sh, p, pr) && PositionsOf(c, sh, pr) && PatienceOf(c, pr) && SleepOf(c, sh, owed, p, pr)
  }

  predicate ConsumerLocks(sh: Shared, co: Consumer) {
    && (sh.locks.waitMutex.ByConsumer? <==> ConsumerHasMutex(co.pc))
    && (co.pc.Trying? && (co.pc.at.NotifySignal? || co.pc.at.NotifyUnlock?) ==> !UnderMutex(co.pc.via))
  }

  predicate ConsumerPositions(sh: Shared, co: Consumer) {
    && co.cachedPublish <= sh.publishPosition
    && (co.pc.Trying? && (co.pc.at.Take? || co.pc.at.Bump?) ==> sh.readPosition < co.cachedPublish)
  }

  predicate ConsumerPatience(c: Config, co: Consumer) {
    && (co.pc.Getting? || (co.pc.Trying? && !co.pc.via.User?) ==>
          Lasting(c.consumerWait, co.left))
    && (ConsumerAtMutex(co.pc) ==> c.consumerWait.RunsOut())
    && (co.pc.Trying? && (co.pc.at.NotifyLock? || co.pc.at.NotifySignal? || co.pc.at.NotifyUnlock?) ==>
          c.producerWait.MutexUsed())
  }

  predicate ConsumerDozing(sh: Shared, pc: CPc) {
    sh.sleep.consumerAsleep || pc == Getting(WaitSleep) || pc == Getting(WaitFlag)
  }

  predicate ConsumerSleep(sh: Shared, owed: bool, co: Consumer) {
    && (sh.sleep.consumerAsleep ==> co.pc == Getting(WaitAsleep))
    && (sh.sleep.consumerAsleep || co.pc == Getting(WaitSleep) ==> sh.sleep.consumerWaiting)
    && (ConsumerDozing(sh, co.pc) ==> sh.readPosition == sh.publishPosition || owed)
  }

  // owed: some producer still owes the consumer a signal.
  predicate ConsumerOk(c: Config, sh: Shared, owed: bool, co: Consumer) {
    ConsumerLocks(sh, co) && ConsumerPositions(sh, co) && ConsumerPatience(c, co) && ConsumerSleep(sh, owed, co)
  }

  // ---- what a producer's step does to what the others see ----

  predicate ProducerEffect(c: Config, sh: Shared, sh': Shared, p: nat, pr: Producer, pr': Producer) {
    && sh'.readPosition == sh.readPosition
    && sh.publishPosition <= sh'.publishPosition
    && (sh'.publishPosition != sh.publishPosition ==> pr.pc == Publishing(Store) && OwesSignal(pr'.pc))
    && (sh'.locks.spinLock == sh.locks.spinLock
      || (sh.locks.spinLock in {None, Some(p)} && sh'.locks.spinLock in {None, Some(p)}))
    && (sh'.locks.waitMutex == sh.locks.waitMutex
      || (sh.locks.waitMutex in {Free, ByProducer(p)} && sh'.locks.waitMutex in {Free, ByProducer(p)}))
    && (sh.sleep.producerWaiting ==> sh'.sleep.producerWaiting)
    && sh'.sleep.producersAsleep - {p} == sh.sleep.producersAsleep - {p}
    && (sh'.sleep.consumerAsleep ==> sh.sleep.consumerAsleep)
    && (sh'.sleep.consumerWaiting == sh.sleep.consumerWaiting
      || (pr.pc == Publishing(Signal) && !sh'.sleep.consumerAsleep))
    && (OwesSignal(pr.pc) && !OwesSignal(pr'.pc) && c.consumerWait.MutexUsed() ==>
          pr.pc == Publishing(Signal) && (sh.sleep.consumerWaiting ==> !sh'.sleep.consumerAsleep))
  }

  ghost predicate ProducerStepOk(c: Config, sh: Shared, owed: bool, p: nat, pr: Producer, r: (Shared, Producer)) {
    ProducerOk(c, r.0, owed, p, r.1) && ProducerEffect(c, sh, r.0, p, pr, r.1) && Positions(c, r.0)
  }

  lemma ClaimOk(c: Config, sh: Shared, owed: bool, p: nat, pr: Producer)
    requires c.entryCount > 0 && |sh.data.entries| == c.entryCount && Positions(c, sh) && NoSkips(sh)
    requires pr.pc.Publishing? && (pr.pc.at.Top? || pr.pc.at.Can?) && ProducerOk(c, sh, owed, p, pr)
    ensures ProducerStepOk(c, sh, owed, p, pr, PublishStep(c, sh, p, pr))
  {
  }

  lemma FillOk(c: Config, sh: Shared, owed: bool, p: nat, pr: Producer)
    requires c.entryCount > 0 && |sh.data.entries| == c.entryCount && Positions(c, sh) && NoSkips(sh)
    requires pr.pc.Publishing? && (pr.pc.at.Fill? || pr.pc.at.Mark? || pr.pc.at.Store?)
      && ProducerOk(c, sh, owed, p, pr)
    ensures ProducerStepOk(c, sh, owed, p, pr, PublishStep(c, sh, p, pr))
  {
  }

  lemma NotifyOk(c: Config, sh: Shared, owed: bool, p: nat, pr: Producer)
    requires c.entryCount > 0 && |sh.data.entries| == c.entryCount && Positions(c, sh) && NoSkips(sh)
    requires pr.pc.Publishing? && (pr.pc.at.Signal? || pr.pc.at.Unlock?) && ProducerOk(c, sh, owed, p, pr)
    ensures ProducerStepOk(c, sh, owed, p, pr, PublishStep(c, sh, p, pr))
  {
  }

  lemma NotifyLockOk(c: Config, sh: Shared, owed: bool, p: nat, pr: Producer)
    requires c.entryCount > 0 && |sh.data.entries| == c.entryCount && Positions(c, sh)
    requires pr.pc == Publishing(Notify) && ProducerOk(c, sh, owed, p, pr)
    ensures ProducerStepOk(c, sh, owed, p, pr, PublishStep(c, sh, p, pr))
  {
    var r := PublishStep(c, sh, p, pr);
    if !c.consumerWait.MutexUsed() {
      assert r == (sh, pr.Go(Finish));
    } else if sh.locks.waitMutex.Free? {
      TakeMutexOk(c, sh, owed, p, pr);
    } else {
      assert r == (sh, pr);
    }
  }

  lemma TakeMutexOk(c: Config, sh: Shared, owed: bool, p: nat, pr: Producer)
    requires Positions(c, sh) && ProducerOk(c, sh, owed, p, pr)
    requires pr.pc == Publishing(Notify) && sh.locks.waitMutex.Free? && c.consumerWait.MutexUsed()
    ensures ProducerStepOk(c, sh, owed, p, pr, (sh.Mutex(ByProducer(p)), pr.Go(Signal)))
  {
  }

  lemma LeaveOk(c: Config, sh: Shared, owed: bool, p: nat, pr: Producer)
    requires c.entryCount > 0 && |sh.data.entries| == c.entryCount && Positions(c, sh) && NoSkips(sh)
    requires pr.pc.Publishing? && (pr.pc.at.Finish? || pr.pc.at.Drop?) && ProducerOk(c, sh, owed, p, pr)
    ensures ProducerStepOk(c, sh, owed, p, pr, PublishStep(c, sh, p, pr))
  {
  }

  lemma TakeSpinLockOk(c: Config, sh: Shared, owed: bool, p: nat, pr: Producer)
    requires Positions(c, sh) && pr.pc.Contending? && !pr.pc.to.Backoff? && ProducerOk(c, sh, owed, p, pr)
    ensures ProducerStepOk(c, sh, owed, p, pr, ContendStep(sh, p, pr))
  {
  }

  lemma BackoffOk(c: Config, sh: Shared, owed: bool, p: nat, pr: Producer)
    requires Positions(c, sh) && pr.pc == Contending(Backoff) && ProducerOk(c, sh, owed, p, pr)
    ensures ProducerStepOk(c, sh, owed, p, pr, ContendStep(sh, p, pr))
  {
  }

  lemma RetryOk(c: Config, sh: Shared, owed: bool, p: nat, pr: Producer)
    requires Positions(c, sh) && pr.pc.Retrying? && !pr.pc.how.Backing? && ProducerOk(c, sh, owed, p, pr)
    ensures ProducerStepOk(c, sh, owed, p, pr, RetryStep(c, sh, pr))
  {
  }

  lemma BackingOk(c: Config, sh: Shared, owed: bool, p: nat, pr: Producer)
    requires Positions(c, sh) && pr.pc == Retrying(Backing) && ProducerOk(c, sh, owed, p, pr)
    ensures ProducerStepOk(c, sh, owed, p, pr, RetryStep(c, sh, pr))
  {
  }

  lemma LookOk(c: Config, sh: Shared, owed: bool, p: nat, pr: Producer)
    requires Positions(c, sh) && pr.pc.Blocking?
      && (pr.pc.on.Lock? || pr.pc.on.Peek? || pr.pc.on.CanNow? || pr.pc.on.Check?) && ProducerOk(c, sh, owed, p, pr)
    ensures ProducerStepOk(c, sh, owed, p, pr, BlockStep(c, sh, p, pr))
  {
  }

  lemma FallAsleepOk(c: Config, sh: Shared, owed: bool, p: nat, pr: Producer)
    requires Positions(c, sh) && pr.pc.Blocking? && (pr.pc.on.Flag? || pr.pc.on.Sleeping? || pr.pc.on.Asleep?)
      && ProducerOk(c, sh, owed, p, pr)
    ensures ProducerStepOk(c, sh, owed, p, pr, BlockStep(c, sh, p, pr))
  {
  }

  lemma AwakeOk(c: Config, sh: Shared, owed: bool, p: nat, pr: Producer)
    requires Positions(c, sh) && pr.pc.Blocking? && (pr.pc.on.Woken? || pr.pc.on.Release? || pr.pc.on.Throw?)
      && ProducerOk(c, sh, owed, p, pr)
    ensures ProducerStepOk(c, sh, owed, p, pr, BlockStep(c, sh, p, pr))
  {
  }

  lemma RunOk(c: Config, sh: Shared, owed: bool, p: nat, pr: Producer)
    requires c.entryCount > 0 && |sh.data.entries| == c.entryCount && Positions(c, sh) && NoSkips(sh)
    requires ProducerOk(c, sh, owed, p, pr)
    ensures ProducerStepOk(c, sh, owed, p, pr, ProducerStep(c, sh, p, pr))
  {
    match pr.pc
    case Idle =>
    case Publishing(at) =>
      match at {
       case Top => ClaimOk(c, sh, owed, p, pr);
       case Can => ClaimOk(c, sh, owed, p, pr);
       case Fill => FillOk(c, sh, owed, p, pr);
       case Mark => FillOk(c, sh, owed, p, pr);
       case Store => FillOk(c, sh, owed, p, pr);
       case Notify => NotifyLockOk(c, sh, owed, p, pr);
       case Signal => NotifyOk(c, sh, owed, p, pr);
       case Unlock => NotifyOk(c, sh, owed, p, pr);
       case Finish => LeaveOk(c, sh, owed, p, pr);
       case Drop => LeaveOk(c, sh, owed, p, pr);
      }
    case Contending(to) =>
      if to.Backoff? {
        BackoffOk(c, sh, owed, p, pr);
      } else {
        TakeSpinLockOk(c, sh, owed, p, pr);
      }
    case Retrying(how) =>
      if how.Backing? {
        BackingOk(c, sh, owed, p, pr);
      } else {
        RetryOk(c, sh, owed, p, pr);
      }
    case Blocking(on) =>
      if on.Lock? || on.Peek? || on.CanNow? || on.Check? {
        LookOk(c, sh, owed, p, pr);
      } else if on.Flag? || on.Sleeping? || on.Asleep? {
        FallAsleepOk(c, sh, owed, p, pr);
      } else {
        AwakeOk(c, sh, owed, p, pr);
      }
  }

  lemma ActOk(c: Config, sh: Shared, owed: bool, p: nat, pr: Producer, a: Action)
    requires c.entryCount > 0 && |sh.data.entries| == c.entryCount && Positions(c, sh) && NoSkips(sh)
    requires ProducerOk(c, sh, owed, p, pr) && pr.cargo.message.block < |sh.data.memory|
    ensures ProducerStepOk(c, sh, owed, p, pr, ProducerAct(c, sh, p, pr, a))
  {
    match a
    case Run(_) => RunOk(c, sh, owed, p, pr);
    case Wake(_, timeout) => WakeOk(c, sh, owed, p, pr, a);
    case Call(_) => CallOk(c, sh, owed, p, pr, a);
    case _ =>
  }

  lemma WakeOk(c: Config, sh: Shared, owed: bool, p: nat, pr: Producer, a: Action)
    requires c.entryCount > 0 && |sh.data.entries| == c.entryCount && Positions(c, sh)
    requires ProducerOk(c, sh, owed, p, pr) && pr.cargo.message.block < |sh.data.memory| && a.Wake?
    ensures ProducerStepOk(c, sh, owed, p, pr, ProducerAct(c, sh, p, pr, a))
  {
  }

  lemma CallOk(c: Config, sh: Shared, owed: bool, p: nat, pr: Producer, a: Action)
    requires c.entryCount > 0 && |sh.data.entries| == c.entryCount && Positions(c, sh)
    requires ProducerOk(c, sh, owed, p, pr) && pr.cargo.message.block < |sh.data.memory| && a.Call?
    ensures ProducerStepOk(c, sh, owed, p, pr, ProducerAct(c, sh, p, pr, a))
  {
  }

  // ---- what the consumer's step does to what the producers see ----

  predicate ConsumerEffect(c: Config, sh: Shared, sh': Shared, co: Consumer, co': Consumer) {
    && sh'.publishPosition == sh.publishPosition
    && sh.readPosition <= sh'.readPosition
    && (sh'.readPosition != sh.readPosition ==>
          c.producerWait.MutexUsed() ==> ConsumerOwesSignal(co'.pc))
    && sh'.locks.spinLock == sh.locks.spinLock
    && (sh'.locks.waitMutex == sh.locks.waitMutex
        || (sh.locks.waitMutex in {Free, ByConsumer} && sh'.locks.waitMutex in {Free, ByConsumer}))
    && (sh'.sleep.producersAsleep == sh.sleep.producersAsleep || sh'.sleep.producersAsleep == {})
    && (sh'.sleep.producerWaiting == sh.sleep.producerWaiting
        || (sh'.sleep.producersAsleep == {} && sh.locks.waitMutex.ByConsumer?))
    && (ConsumerOwesSignal(co.pc) && !ConsumerOwesSignal(co'.pc) ==>
          sh.locks.waitMutex.ByConsumer? && (sh.sleep.producerWaiting ==> sh'.sleep.producersAsleep == {}))
  }

  ghost predicate ConsumerStepOk(c: Config, sh: Shared, owed: bool, co: Consumer, r: (Shared, Consumer)) {
    ConsumerOk(c, r.0, owed, r.1) && ConsumerEffect(c, sh, r.0, co, r.1) && Positions(c, r.0)
  }

  lemma TryOk(c: Config, sh: Shared, owed: bool, co: Consumer)
    requires DataShape(c, sh.data) && Positions(c, sh) && ConsumerOk(c, sh, owed, co)
    requires co.pc.Trying? && (co.pc.at.Compare? || co.pc.at.Load? || co.pc.at.Take? || co.pc.at.Bump?)
    ensures ConsumerStepOk(c, sh, owed, co, TryStep(c, sh, co))
  {
  }

  lemma TrySignalOk(c: Config, sh: Shared, owed: bool, co: Consumer)
    requires DataShape(c, sh.data) && Positions(c, sh) && ConsumerOk(c, sh, owed, co)
    requires co.pc.Trying? && (co.pc.at.NotifyLock? || co.pc.at.NotifySignal? || co.pc.at.NotifyUnlock?)
    ensures ConsumerStepOk(c, sh, owed, co, TryStep(c, sh, co))
  {
  }

  lemma GetOk(c: Config, sh: Shared, owed: bool, co: Consumer)
    requires Positions(c, sh) && co.pc.Getting? && ConsumerOk(c, sh, owed, co)
    requires co.pc.to.Again? || co.pc.to.BackOff? || co.pc.to.WaitLock?
    ensures ConsumerStepOk(c, sh, owed, co, GetStep(c, sh, co))
  {
  }

  lemma WaitOk(c: Config, sh: Shared, owed: bool, co: Consumer)
    requires Positions(c, sh) && co.pc.Getting? && ConsumerOk(c, sh, owed, co)
    requires !co.pc.to.Again? && !co.pc.to.BackOff? && !co.pc.to.WaitLock?
    ensures ConsumerStepOk(c, sh, owed, co, GetStep(c, sh, co))
  {
  }

  lemma ConsumerActOk(c: Config, sh: Shared, owed: bool, co: Consumer, a: Action)
    requires DataShape(c, sh.data) && Positions(c, sh) && ConsumerOk(c, sh, owed, co)
      && co.message.block < |sh.data.memory|
    ensures ConsumerStepOk(c, sh, owed, co, ConsumerAct(c, sh, co, a))
  {
    if a.RunConsumer? {
      match co.pc
      case Resting =>
      case Trying(_, at) =>
        if at.NotifyLock? || at.NotifySignal? || at.NotifyUnlock? {
          TrySignalOk(c, sh, owed, co);
        } else {
          TryOk(c, sh, owed, co);
        }
      case Getting(to) =>
        if to.Again? || to.BackOff? || to.WaitLock? {
          GetOk(c, sh, owed, co);
        } else {
          WaitOk(c, sh, owed, co);
        }
    }
  }
}
