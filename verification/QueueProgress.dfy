// When the calls of the queue end, and how: a thread that finds the locks free and something to do needs only steps of
// its own, and one wake-up if it is asleep.
module QueueProgress {
  import opened QueueMachine
  import opened QueueInvariants
  import opened QueueData
  import opened QueueSystem
  import opened QueueRuns
  import opened QueueOutcomes

  // ---- a producer ----

  predicate Room(c: Config, sh: Shared) {
    sh.publishPosition < sh.readPosition + c.entryCount
  }

  // The locks are free, or producer p has them.
  predicate LocksFor(sh: Shared, p: nat) {
    && (sh.locks.spinLock.None? || sh.locks.spinLock == Some(p))
    && (sh.locks.waitMutex.Free? || sh.locks.waitMutex == ByProducer(p))
  }

  // The call no longer depends on whether there is room.
  predicate Settled(pc: PPc) {
    match pc
    case Idle => true
    case Publishing(at) => !at.Top? && !at.Can? && !at.Drop?
    case Contending(to) => to.Rejoin?
    case Retrying(_) => false
    case Blocking(on) => on.Throw?
  }

  // The call gives up if it finds no room: the producer is stopped, or its wait has timed out and
  // nothing is left to try.
  predicate Resigned(c: Config, pr: Producer) {
    pr.stopping
    || (if c.solo then pr.pc == Blocking(Woken(true))
        else
          && Turn(pr.left).None?
          && (pr.pc == Blocking(Woken(true)) || (pr.timedOut && (!pr.pc.Blocking? || pr.pc.on.Release?))))
  }

  predicate CanEnd(c: Config, sh: Shared, pr: Producer) {
    Settled(pr.pc) || Room(c, sh) || Resigned(c, pr)
  }

  // The call gives up although there is room, as it found none before: a lone producer that is stopped looks no more,
  // one of several that has found none does not look again if it is stopped or its wait has timed out.
  predicate GivesUp(c: Config, pr: Producer) {
    if c.solo then pr.stopping && pr.pc != Publishing(Can)
    else
      && (pr.pc == Publishing(Drop) || pr.pc == Contending(Backoff))
      && (pr.stopping || (Turn(pr.left).None? && pr.timedOut))
  }

  // Whether the message of the call will be in the history when it ends.
  predicate Fate(c: Config, sh: Shared, pr: Producer) {
    if pr.pc.Publishing? && (pr.pc.at.Fill? || pr.pc.at.Mark? || pr.pc.at.Store?) then true
    else if Settled(pr.pc) then pr.published
    else Room(c, sh) && !GivesUp(c, pr)
  }

  // How far the call is from its end.
  function Rank(solo: bool, room: bool, pc: PPc): nat {
    match pc
    case Idle => 0
    case Publishing(at) =>
      (match at
       case Finish => 1
       case Unlock => 2
       case Signal => 3
       case Notify => 4
       case Store => 5
       case Mark => 6
       case Fill => 7
       case Can => if room then 8 else if solo then 13 else 11
       case Top => if room then 9 else if solo then 8 else 12
       case Drop => if room then 21 else 10)
    case Contending(to) =>
      (match to
       case Rejoin => 2
       case Backoff => if room then 20 else 9
       case Acquire => if room then 10 else 13)
    case Retrying(how) =>
      (match how
       case Unreserve => if room then 10 else 9
       case Test => 11
       case Refresh => 12
       case Backing => if room then 19 else 10)
    case Blocking(on) =>
      (match on
       case Throw => 1
       case Release => if room then 13 else 14
       case Woken(_) => if room then 14 else 15
       case Check => if room then 15 else 19
       case CanNow => if room then 15 else 19
       case Peek => if room then 17 else 20
       case Lock => if room then 18 else 21
       case Asleep => if room then 22 else 16
       case Sleeping => if room then 23 else 17
       case Flag => if room then 24 else 18)
  }

  // published is set exactly between marking and storing, until the call has been decided.
  predicate Undecided(pr: Producer) {
    !Decided(pr.pc) ==> (pr.published <==> pr.pc == Publishing(Store))
  }

  // What one step towards the end does.
  ghost predicate StepsDown(c: Config, sh: Shared, p: nat, pr: Producer, r: (Shared, Producer)) {
    && LocksFor(r.0, p) && CanEnd(c, r.0, r.1) && (Fate(c, r.0, r.1) <==> Fate(c, sh, pr))
    && Rank(c.solo, Room(c, r.0), r.1.pc) < Rank(c.solo, Room(c, sh), pr.pc)
  }

  ghost predicate Ready(c: Config, sh: Shared, owed: bool, p: nat, pr: Producer) {
    && c.entryCount > 0 && |sh.data.entries| == c.entryCount && NoSkips(sh) && Positions(c, sh)
    && ProducerOk(c, sh, owed, p, pr) && Undecided(pr) && LocksFor(sh, p) && CanEnd(c, sh, pr) && !pr.pc.Idle?
  }

  lemma ClaimDown(c: Config, sh: Shared, owed: bool, p: nat, pr: Producer)
    requires Ready(c, sh, owed, p, pr) && pr.pc.Publishing? && (pr.pc.at.Top? || pr.pc.at.Can? || pr.pc.at.Drop?)
    ensures StepsDown(c, sh, p, pr, PublishStep(c, sh, p, pr))
  {
  }

  lemma WriteDown(c: Config, sh: Shared, owed: bool, p: nat, pr: Producer)
    requires Ready(c, sh, owed, p, pr) && pr.pc.Publishing? && (pr.pc.at.Fill? || pr.pc.at.Mark? || pr.pc.at.Store?)
    ensures StepsDown(c, sh, p, pr, PublishStep(c, sh, p, pr))
  {
    assert sh.data.entries[pr.position % c.entryCount].status != SKIP;
  }

  lemma NotifyDown(c: Config, sh: Shared, owed: bool, p: nat, pr: Producer)
    requires Ready(c, sh, owed, p, pr) && pr.pc.Publishing?
    requires pr.pc.at.Notify? || pr.pc.at.Signal? || pr.pc.at.Unlock? || pr.pc.at.Finish?
    ensures StepsDown(c, sh, p, pr, PublishStep(c, sh, p, pr))
  {
  }

  lemma ContendDown(c: Config, sh: Shared, owed: bool, p: nat, pr: Producer)
    requires Ready(c, sh, owed, p, pr) && pr.pc.Contending?
    ensures StepsDown(c, sh, p, pr, ContendStep(sh, p, pr))
  {
  }

  lemma RetryDown(c: Config, sh: Shared, owed: bool, p: nat, pr: Producer)
    requires Ready(c, sh, owed, p, pr) && pr.pc.Retrying?
    ensures StepsDown(c, sh, p, pr, RetryStep(c, sh, pr))
  {
  }

  lemma LookDown(c: Config, sh: Shared, owed: bool, p: nat, pr: Producer)
    requires Ready(c, sh, owed, p, pr) && pr.pc.Blocking?
    requires pr.pc.on.Lock? || pr.pc.on.Peek? || pr.pc.on.CanNow? || pr.pc.on.Check?
    ensures StepsDown(c, sh, p, pr, BlockStep(c, sh, p, pr))
  {
  }

  lemma SleepDown(c: Config, sh: Shared, owed: bool, p: nat, pr: Producer)
    requires Ready(c, sh, owed, p, pr) && pr.pc.Blocking?
    requires pr.pc.on.Flag? || pr.pc.on.Sleeping? || pr.pc.on.Woken? || pr.pc.on.Release? || pr.pc.on.Throw?
    ensures StepsDown(c, sh, p, pr, BlockStep(c, sh, p, pr))
  {
  }

  lemma WakeDown(c: Config, sh: Shared, owed: bool, p: nat, pr: Producer)
    requires Ready(c, sh, owed, p, pr) && pr.pc == Blocking(Asleep) && pr.cargo.message.block < |sh.data.memory|
    ensures StepsDown(c, sh, p, pr, ProducerAct(c, sh, p, pr, Wake(p, false)))
  {
  }

  // The next thing a producer does: a step of its own, or it is woken.
  function Next(p: nat, pc: PPc): Action {
    if pc == Blocking(Asleep) then Wake(p, false) else Run(p)
  }

  lemma ActDown(c: Config, sh: Shared, owed: bool, p: nat, pr: Producer)
    requires Ready(c, sh, owed, p, pr) && pr.cargo.message.block < |sh.data.memory|
    ensures StepsDown(c, sh, p, pr, ProducerAct(c, sh, p, pr, Next(p, pr.pc)))
  {
    match pr.pc
    case Publishing(at) =>
      if at.Top? || at.Can? || at.Drop? {
        ClaimDown(c, sh, owed, p, pr);
      } else if at.Fill? || at.Mark? || at.Store? {
        WriteDown(c, sh, owed, p, pr);
      } else {
        NotifyDown(c, sh, owed, p, pr);
      }
    case Contending(_) => ContendDown(c, sh, owed, p, pr);
    case Retrying(_) => RetryDown(c, sh, owed, p, pr);
    case Blocking(on) =>
      if on.Asleep? {
        WakeDown(c, sh, owed, p, pr);
      } else if on.Lock? || on.Peek? || on.CanNow? || on.Check? {
        LookDown(c, sh, owed, p, pr);
      } else {
        SleepDown(c, sh, owed, p, pr);
      }
  }

  // ---- whole calls ----

  // The steps of producer p alone, with a wake-up where it is asleep.
  predicate OnlyBy(p: nat, actions: seq<Action>) {
    forall i: nat | i < |actions| :: actions[i] == Run(p) || actions[i] == Wake(p, false)
  }

  ghost predicate UnderWay(c: Config, s: State, p: nat) {
    && Inv(c, s) && AllTold(s) && p < |s.producers| && !s.producers[p].pc.Idle?
    && LocksFor(s.sh, p) && CanEnd(c, s.sh, s.producers[p])
  }

  lemma StepEnds(c: Config, s: State, p: nat)
    requires UnderWay(c, s, p)
    ensures var t := Step(c, s, Next(p, s.producers[p].pc));
      && Inv(c, t) && AllTold(t) && p < |t.producers| && t.producers[p].cargo.calls == s.producers[p].cargo.calls
      && StepsDown(c, s.sh, p, s.producers[p], (t.sh, t.producers[p]))
  {
    var pr, a := s.producers[p], Next(p, s.producers[p].pc);
    var owed := ConsumerOwesSignal(s.consumer.pc);
    assert ProducerOk(c, s.sh, owed, p, pr) && Told(s.sh.data.published, p, pr);
    ActDown(c, s.sh, owed, p, pr);
    StepKeepsInv(c, s, a);
    StepTells(c, s, a);
    SameCall(c, s.sh, p, pr);
  }

  lemma SameCall(c: Config, sh: Shared, p: nat, pr: Producer)
    requires c.entryCount > 0 && |sh.data.entries| == c.entryCount && pr.cargo.message.block < |sh.data.memory|
    ensures ProducerAct(c, sh, p, pr, Next(p, pr.pc)).1.cargo.calls == pr.cargo.calls
  {
    if pr.pc.Blocking? { BlockSaysNothing(c, sh, p, pr); }
  }

  lemma EndsFrom(c: Config, s: State, p: nat) returns (actions: seq<Action>)
    requires UnderWay(c, s, p)
    ensures OnlyBy(p, actions) && AllTold(After(c, s, actions))
    ensures var t := After(c, s, actions);
      && p < |t.producers| && t.producers[p].pc.Idle? && t.producers[p].cargo.calls == s.producers[p].cargo.calls
      && (t.producers[p].published <==> Fate(c, s.sh, s.producers[p]))
    decreases Rank(c.solo, Room(c, s.sh), s.producers[p].pc)
  {
    var a := Next(p, s.producers[p].pc);
    var t := Step(c, s, a);
    StepEnds(c, s, p);
    var rest: seq<Action> := [];
    if !t.producers[p].pc.Idle? {
      rest := EndsFrom(c, t, p);
    }
    AfterFirst(c, s, a, rest);
    actions := [a] + rest;
  }

  lemma AfterFirst(c: Config, s: State, a: Action, rest: seq<Action>)
    requires Inv(c, s)
    ensures Inv(c, Step(c, s, a)) && After(c, s, [a] + rest) == After(c, Step(c, s, a), rest)
  {
    StepKeepsInv(c, s, a);
    assert ([a] + rest)[1..] == rest;
  }

  // A call of publish that finds the locks free, and room or a reason to give up, ends with steps of its own.
  // If there is room its message is then in the history, unless it had given up before; without room it is not.
  lemma PublishEnds(c: Config, s: State, p: nat) returns (actions: seq<Action>)
    requires Reachable(c, s) && p < |s.producers| && !s.producers[p].pc.Idle?
    requires LocksFor(s.sh, p) && CanEnd(c, s.sh, s.producers[p])
    ensures Inv(c, s) && OnlyBy(p, actions)
    ensures var t := After(c, s, actions);
      && p < |t.producers| && t.producers[p].pc.Idle?
      && (InHistory(t.sh.data.published, p, s.producers[p].cargo.calls) <==> Fate(c, s.sh, s.producers[p]))
  {
    ReachableTells(c, s);
    actions := EndsFrom(c, s, p);
    assert Told(s.sh.data.published, p, s.producers[p]);
    assert Told(After(c, s, actions).sh.data.published, p, After(c, s, actions).producers[p]);
  }

  // ---- waits that time out ----

  // Every count has run out by the time a producer waits on the condition variable, and stays so for the rest
  // of the call.
  predicate UsedUp(pr: Producer) {
    pr.pc.Blocking? || (pr.timedOut && !pr.pc.Idle?) ==> Turn(pr.left).None?
  }

  lemma ActUsedUp(c: Config, sh: Shared, p: nat, pr: Producer, a: Action)
    requires c.entryCount > 0 && |sh.data.entries| == c.entryCount && pr.cargo.message.block < |sh.data.memory|
    requires UsedUp(pr) && OnPath(c.solo, pr.pc) && (c.solo && !pr.pc.Idle? ==> !pr.timedOut)
    ensures UsedUp(ProducerAct(c, sh, p, pr, a).1)
    ensures var q := ProducerAct(c, sh, p, pr, a).1; c.solo && !q.pc.Idle? ==> !q.timedOut
  {
    if a.Run? && pr.pc.Blocking? {
      BlockUsedUp(c, sh, p, pr);
    } else if a.Run? {
      LoopUsedUp(c, sh, p, pr);
    }
  }

  lemma LoopUsedUp(c: Config, sh: Shared, p: nat, pr: Producer)
    requires c.entryCount > 0 && |sh.data.entries| == c.entryCount && !pr.pc.Blocking?
    requires UsedUp(pr) && OnPath(c.solo, pr.pc) && (c.solo && !pr.pc.Idle? ==> !pr.timedOut)
    ensures UsedUp(ProducerStep(c, sh, p, pr).1)
    ensures var q := ProducerStep(c, sh, p, pr).1; c.solo && !q.pc.Idle? ==> !q.timedOut
  {
    match pr.pc
    case Idle =>
    case Publishing(_) => PublishUsedUp(c, sh, p, pr);
    case Contending(_) =>
    case Retrying(_) =>
  }

  lemma PublishUsedUp(c: Config, sh: Shared, p: nat, pr: Producer)
    requires c.entryCount > 0 && |sh.data.entries| == c.entryCount && pr.pc.Publishing?
    requires UsedUp(pr) && (c.solo ==> !pr.timedOut)
    ensures UsedUp(PublishStep(c, sh, p, pr).1)
    ensures var q := PublishStep(c, sh, p, pr).1; c.solo && !q.pc.Idle? ==> !q.timedOut
  {
  }

  lemma BlockUsedUp(c: Config, sh: Shared, p: nat, pr: Producer)
    requires pr.pc.Blocking? && UsedUp(pr) && (c.solo ==> !pr.timedOut)
    ensures UsedUp(BlockStep(c, sh, p, pr).1)
    ensures var q := BlockStep(c, sh, p, pr).1; c.solo && !q.pc.Idle? ==> !q.timedOut
  {
  }

  ghost predicate AllUsedUp(c: Config, s: State) {
    forall p: nat | p < |s.producers| ::
      UsedUp(s.producers[p]) && (c.solo && !s.producers[p].pc.Idle? ==> !s.producers[p].timedOut)
  }

  lemma StepUsedUp(c: Config, s: State, a: Action)
    requires Inv(c, s) && AllUsedUp(c, s)
    ensures AllUsedUp(c, Step(c, s, a))
  {
    if NamesProducer(a) && a.p < |s.producers| {
      assert ProducerOk(c, s.sh, ConsumerOwesSignal(s.consumer.pc), a.p, s.producers[a.p]);
      ActUsedUp(c, s.sh, a.p, s.producers[a.p], a);
    }
  }

  lemma {:induction false} RunsUsedUp(c: Config, s: State, actions: seq<Action>)
    requires Inv(c, s) && AllUsedUp(c, s)
    ensures AllUsedUp(c, After(c, s, actions))
    decreases |actions|
  {
    if actions == [] {
    } else {
      StepKeepsInv(c, s, actions[0]);
      StepUsedUp(c, s, actions[0]);
      RunsUsedUp(c, Step(c, s, actions[0]), actions[1..]);
    }
  }

  // A producer whose wait has timed out comes back either way: it publishes if there is room, unless it is alone and
  // stopped, and gives up or throws if there is none.
  lemma TimedOutEnds(c: Config, s: State, p: nat) returns (actions: seq<Action>)
    requires Reachable(c, s) && p < |s.producers| && s.producers[p].pc == Blocking(Woken(true)) && LocksFor(s.sh, p)
    ensures Inv(c, s) && OnlyBy(p, actions)
    ensures var t := After(c, s, actions);
      && p < |t.producers| && t.producers[p].pc.Idle?
      && (InHistory(t.sh.data.published, p, s.producers[p].cargo.calls) <==>
            Room(c, s.sh) && !(c.solo && s.producers[p].stopping))
  {
    var start, before := ReachableIsAfter(c, s);
    forall q: nat | q < |start.producers| ensures start.producers[q].pc.Idle? {
      assert NewProducer(start.producers[q]);
    }
    RunsUsedUp(c, start, before);
    actions := PublishEnds(c, s, p);
  }

  // ---- the consumer ----

  predicate Waiting(sh: Shared) {
    sh.readPosition < sh.publishPosition
  }

  predicate MutexForConsumer(sh: Shared) {
    sh.locks.waitMutex.Free? || sh.locks.waitMutex.ByConsumer?
  }

  // The call has a message, or is about to take one, or is over.
  predicate ConsumerSettled(pc: CPc) {
    match pc
    case Resting => true
    case Trying(_, at) => !at.Compare? && !at.Load?
    case Getting(to) => to.UnlockDone?
  }

  // The consumer will take a message under the mutex, and then wait for the mutex itself.
  predicate HeadsForStuck(c: Config, co: Consumer) {
    c.producerWait.MutexUsed()
    && match co.pc
       case Resting => false
       case Trying(via, at) => UnderMutex(via) && !at.NotifySignal? && !at.NotifyUnlock?
       case Getting(to) => to.WaitLock? || to == WaitWoken(true) || (to.BackOff? && Turn(co.left).None?)
  }

  // With nothing waiting, the calls that end all the same: tryGetNext, getNext once stopped, or at its last look.
  predicate EndsEmpty(co: Consumer) {
    co.stopping || co.pc == Getting(WaitWoken(true)) || (co.pc.Trying? && (co.pc.via.User? || co.pc.via.Late?))
  }

  predicate ConsumerCanEnd(c: Config, sh: Shared, co: Consumer) {
    if Waiting(sh) || ConsumerSettled(co.pc) then !HeadsForStuck(c, co) else EndsEmpty(co)
  }

  // The call goes round the loop of getNext, where it looks whether it is stopped.
  predicate GoesRound(co: Consumer) {
    co.pc.Getting? && !co.pc.to.UnlockDone? && !co.pc.to.WaitLock? && co.pc.to != WaitWoken(true)
    && (co.pc.to.BackOff? ==> Turn(co.left).Some?)
  }

  // What the call will answer.
  function ConsumerFate(sh: Shared, co: Consumer): Answer {
    if co.pc.Resting? || co.pc == Getting(UnlockDone) then co.answer
    else if ConsumerSettled(co.pc) then Got
    else if Waiting(sh) then (if co.stopping && GoesRound(co) then Stopped else Got)
    else if co.pc.Trying? && co.pc.via.User? then Empty
    else if (co.pc.Trying? && co.pc.via.Late?) || co.pc == Getting(WaitWoken(true)) then TimedOut
    else Stopped
  }

  function ConsumerRank(waiting: bool, pc: CPc): nat {
    match pc
    case Resting => 0
    case Trying(via, at) =>
      (match at
       case NotifyUnlock(_) => 2
       case NotifySignal(_) => 3
       case NotifyLock(_) => 4
       case Bump(_) => 5
       case Take => 6
       case Load => if !waiting && via.Loop? then 13 else 7
       case Compare => if !waiting && via.Loop? then 14 else 8)
    case Getting(to) =>
      (match to
       case UnlockDone => 1
       case Again => if waiting then 9 else 1
       case UnlockAgain => if waiting then 10 else 2
       case WaitLock => if waiting then 10 else 9
       case BackOff => if waiting then 11 else 12
       case WaitWoken(timeout) => if waiting then 12 else if timeout then 9 else 3
       case WaitAsleep => if waiting then 13 else 4
       case WaitSleep => if waiting then 14 else 5
       case WaitFlag => if waiting then 15 else 6)
  }

  function ConsumerNext(pc: CPc): Action {
    if pc == Getting(WaitAsleep) then WakeConsumer(false) else RunConsumer
  }

  ghost predicate ConsumerStepsDown(c: Config, sh: Shared, co: Consumer, r: (Shared, Consumer)) {
    && MutexForConsumer(r.0) && ConsumerCanEnd(c, r.0, r.1) && ConsumerFate(r.0, r.1) == ConsumerFate(sh, co)
    && ConsumerRank(Waiting(r.0), r.1.pc) < ConsumerRank(Waiting(sh), co.pc)
  }

  ghost predicate ConsumerReady(c: Config, sh: Shared, owed: bool, co: Consumer) {
    && DataShape(c, sh.data) && Positions(c, sh) && ConsumerOk(c, sh, owed, co) && NeverSkips(co.pc)
    && MutexForConsumer(sh) && ConsumerCanEnd(c, sh, co) && !co.pc.Resting?
    && (Waiting(sh) ==> sh.data.entries[sh.readPosition % c.entryCount].status.OK?)
  }

  lemma TryDown(c: Config, sh: Shared, owed: bool, co: Consumer)
    requires ConsumerReady(c, sh, owed, co) && co.pc.Trying? && (co.pc.at.Compare? || co.pc.at.Load? || co.pc.at.Take?)
    ensures ConsumerStepsDown(c, sh, co, TryStep(c, sh, co))
  {
  }

  lemma TakenDown(c: Config, sh: Shared, owed: bool, co: Consumer)
    requires ConsumerReady(c, sh, owed, co) && co.pc.Trying?
    requires !co.pc.at.Compare? && !co.pc.at.Load? && !co.pc.at.Take?
    ensures ConsumerStepsDown(c, sh, co, TryStep(c, sh, co))
  {
  }

  lemma GetDown(c: Config, sh: Shared, owed: bool, co: Consumer)
    requires ConsumerReady(c, sh, owed, co) && co.pc.Getting? && !co.pc.to.WaitAsleep?
    ensures ConsumerStepsDown(c, sh, co, GetStep(c, sh, co))
  {
  }

  lemma WokenDown(c: Config, sh: Shared, owed: bool, co: Consumer)
    requires ConsumerReady(c, sh, owed, co) && co.pc == Getting(WaitAsleep) && co.message.block < |sh.data.memory|
    ensures ConsumerStepsDown(c, sh, co, ConsumerAct(c, sh, co, WakeConsumer(false)))
  {
  }

  lemma ConsumerActDown(c: Config, sh: Shared, owed: bool, co: Consumer)
    requires ConsumerReady(c, sh, owed, co) && co.message.block < |sh.data.memory|
    ensures ConsumerStepsDown(c, sh, co, ConsumerAct(c, sh, co, ConsumerNext(co.pc)))
  {
    match co.pc
    case Trying(_, at) =>
      if at.Compare? || at.Load? || at.Take? { TryDown(c, sh, owed, co); } else { TakenDown(c, sh, owed, co); }
    case Getting(to) => if to.WaitAsleep? { WokenDown(c, sh, owed, co); } else { GetDown(c, sh, owed, co); }
  }

  predicate OnlyByConsumer(actions: seq<Action>) {
    forall i: nat | i < |actions| :: actions[i] == RunConsumer || actions[i] == WakeConsumer(false)
  }

  lemma ConsumerEndsFrom(c: Config, s: State) returns (actions: seq<Action>)
    requires Inv(c, s) && !s.consumer.pc.Resting? && MutexForConsumer(s.sh) && ConsumerCanEnd(c, s.sh, s.consumer)
    ensures OnlyByConsumer(actions)
    ensures var t := After(c, s, actions);
      t.consumer.pc.Resting? && t.consumer.answer == ConsumerFate(s.sh, s.consumer)
    decreases ConsumerRank(Waiting(s.sh), s.consumer.pc)
  {
    var a := ConsumerNext(s.consumer.pc);
    var t := Step(c, s, a);
    ConsumerIsReady(c, s);
    ConsumerActDown(c, s.sh, SomeoneOwesSignal(s), s.consumer);
    StepKeepsInv(c, s, a);
    var rest: seq<Action> := [];
    if !t.consumer.pc.Resting? {
      rest := ConsumerEndsFrom(c, t);
    }
    AfterFirst(c, s, a, rest);
    actions := [a] + rest;
  }

  lemma ConsumerIsReady(c: Config, s: State)
    requires Inv(c, s) && !s.consumer.pc.Resting? && MutexForConsumer(s.sh) && ConsumerCanEnd(c, s.sh, s.consumer)
    ensures ConsumerReady(c, s.sh, SomeoneOwesSignal(s), s.consumer)
  {
    if Waiting(s.sh) {
      assert EntryAt(c, s.sh.data, s.sh.readPosition).status == OK;
    }
  }

  // A call of the consumer that finds the mutex free ends with steps of its own: with a message if one is waiting,
  // unless getNext is stopped and looks at that first; without one if it is tryGetNext, or getNext that is stopped
  // or has waited too long. Only a call that is to take its message under the mutex, which the producers use too,
  // does not.
  lemma GetEnds(c: Config, s: State) returns (actions: seq<Action>)
    requires Reachable(c, s) && !s.consumer.pc.Resting? && MutexForConsumer(s.sh) && ConsumerCanEnd(c, s.sh, s.consumer)
    ensures Inv(c, s) && OnlyByConsumer(actions)
    ensures var t := After(c, s, actions);
      t.consumer.pc.Resting? && t.consumer.answer == ConsumerFate(s.sh, s.consumer)
  {
    ReachableIsInv(c, s);
    actions := ConsumerEndsFrom(c, s);
  }
}
