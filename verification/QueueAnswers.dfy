// What a call of the consumer answers: each call takes one message at most, and says so.
module QueueAnswers {
  import opened QueueMachine
  import opened QueueInvariants
  import opened QueueData
  import opened QueueSystem
  import opened QueueRuns
  import opened QueueOutcomes

  // How many messages the present call has taken, or the last one took.
  function TakenBy(co: Consumer): nat {
    match co.pc
    case Resting => if co.answer.Got? then 1 else 0
    case Trying(_, at) => if at.Compare? || at.Load? || at.Take? then 0 else 1
    case Getting(to) => if to.UnlockDone? && co.answer.Got? then 1 else 0
  }

  // The call has a message and has not returned.
  predicate Holds(co: Consumer) {
    !co.pc.Resting? && TakenBy(co) == 1
  }

  ghost predicate Answering(c: Config, s: State)
    requires Shape(c, s)
  {
    var co, consumed := s.consumer, s.sh.data.consumed;
    && |consumed| == co.start + TakenBy(co)
    && (co.pc == Getting(UnlockDone) ==> co.answer.Got? || co.answer.TimedOut?)
    && (Holds(co) ==> Reading(c, s) == consumed[|consumed| - 1])
  }

  // ---- every step ----

  lemma TakeAnswers(c: Config, s: State)
    requires Inv(c, s) && Answering(c, s) && s.consumer.pc.Trying? && s.consumer.pc.at.Take?
    ensures var t := Step(c, s, RunConsumer); Shape(c, t) && Answering(c, t)
  {
    StepKeepsInv(c, s, RunConsumer);
    TakeReads(c, s);
    TakeKeepsData(c, s);
  }

  lemma LookAnswers(c: Config, s: State)
    requires Inv(c, s) && Answering(c, s) && s.consumer.pc.Trying? && !s.consumer.pc.at.Take?
    ensures var t := Step(c, s, RunConsumer); Shape(c, t) && Answering(c, t)
  {
    StepKeepsInv(c, s, RunConsumer);
    if !s.consumer.pc.at.Bump? {
      TryQuiet(c, s);
    }
  }

  lemma GetAnswers(c: Config, s: State)
    requires Inv(c, s) && Answering(c, s) && s.consumer.pc.Getting?
    ensures Answering(c, Step(c, s, RunConsumer))
  {
    GetQuiet(c, s);
  }

  // What the others do, and what is done between calls.
  lemma OthersAnswer(c: Config, s: State, a: Action)
    requires Inv(c, s) && Answering(c, s) && !a.RunConsumer?
    ensures Shape(c, Step(c, s, a)) && Answering(c, Step(c, s, a))
  {
    StepKeepsInv(c, s, a);
    OthersTakeNothing(c, s, a);
    if !s.consumer.pc.Resting? {
      StepKeepsMemory(c, s, a, WithConsumer);
    }
  }

  lemma OthersTakeNothing(c: Config, s: State, a: Action)
    requires Inv(c, s) && !a.RunConsumer?
    ensures var t, co := Step(c, s, a), Step(c, s, a).consumer;
      && t.sh.data.consumed == s.sh.data.consumed
      && (!s.consumer.pc.Resting? ==>
            && co.message == s.consumer.message && co.start == s.consumer.start && co.answer == s.consumer.answer
            && (co.pc == s.consumer.pc || (s.consumer.pc == Getting(WaitAsleep) && co.pc.Getting?
              && co.pc.to.WaitWoken?)))
      && (s.consumer.pc.Resting? ==>
            if co.pc.Resting? then co.start == s.consumer.start && co.answer == s.consumer.answer
            else co.start == |s.sh.data.consumed| && TakenBy(co) == 0 && co.pc != Getting(UnlockDone))
  {
    StepGrows(c, s, a);
  }

  lemma StepAnswers(c: Config, s: State, a: Action)
    requires Inv(c, s) && Answering(c, s)
    ensures Inv(c, Step(c, s, a)) && Answering(c, Step(c, s, a))
  {
    StepKeepsInv(c, s, a);
    if !a.RunConsumer? {
      OthersAnswer(c, s, a);
    } else {
      match s.consumer.pc
      case Resting =>
      case Trying(_, at) => if at.Take? { TakeAnswers(c, s); } else { LookAnswers(c, s); }
      case Getting(_) => GetAnswers(c, s);
    }
  }

  lemma {:induction false} RunsAnswer(c: Config, s: State, actions: seq<Action>)
    requires Inv(c, s) && Answering(c, s)
    ensures Answering(c, After(c, s, actions))
    decreases |actions|
  {
    if actions == [] {
    } else {
      StepAnswers(c, s, actions[0]);
      RunsAnswer(c, Step(c, s, actions[0]), actions[1..]);
    }
  }

  // ---- what a call answers ----

  // Each call takes one message at most, whatever runs beside it.
  lemma OneMessageAtMost(c: Config, s: State)
    requires Reachable(c, s)
    ensures Inv(c, s) && Answering(c, s)
    ensures s.consumer.start <= |s.sh.data.consumed| <= s.consumer.start + 1
  {
    var first, actions := ReachableIsAfter(c, s);
    RunsAnswer(c, first, actions);
  }

  // The call is one of tryGetNext.
  predicate OfTry(pc: CPc) {
    pc.Trying? && pc.via.User?
  }

  // When a call returns: it has taken a message, exactly one, and the caller's message says it; or it has taken none,
  // tryGetNext because the queue was empty when it looked last, getNext because it was stopped or its wait timed out.
  lemma CallAnswers(c: Config, s: State)
    requires Reachable(c, s) && !s.consumer.pc.Resting?
    ensures Inv(c, s) && Inv(c, Step(c, s, RunConsumer))
    ensures var t := Step(c, s, RunConsumer); var n, consumed := s.consumer.start, t.sh.data.consumed;
      t.consumer.pc.Resting? ==>
        match t.consumer.answer
        case Got => |consumed| == n + 1 && Reading(c, t) == consumed[n]
        case Empty => |consumed| == n && OfTry(s.consumer.pc) && s.sh.readPosition == s.sh.publishPosition
        case Stopped => |consumed| == n && !OfTry(s.consumer.pc) && s.consumer.stopping
        case TimedOut => |consumed| == n && s.consumer.pc == Getting(UnlockDone)
  {
    OneMessageAtMost(c, s);
    StepAnswers(c, s, RunConsumer);
    match s.consumer.pc
    case Trying(_, _) => TryReturns(c, s);
    case Getting(_) => GetReturns(c, s);
  }

  lemma TryReturns(c: Config, s: State)
    requires Inv(c, s) && Answering(c, s) && s.consumer.pc.Trying?
    ensures var t := Step(c, s, RunConsumer);
      Shape(c, t) && (t.consumer.pc.Resting? ==>
        && t.consumer.start == s.consumer.start
        && match t.consumer.answer
           case Got => Holds(s.consumer) && t.sh.data.consumed == s.sh.data.consumed && Reading(c, t) == Reading(c, s)
           case Empty => OfTry(s.consumer.pc) && s.sh.readPosition == s.sh.publishPosition
           case _ => false)
  {
    StepKeepsInv(c, s, RunConsumer);
    StepKeepsReading(c, s, RunConsumer);
    if s.consumer.pc.at.Take? {
      TakeKeepsData(c, s);
    } else if !s.consumer.pc.at.Bump? {
      TryQuiet(c, s);
    }
  }

  lemma GetReturns(c: Config, s: State)
    requires Inv(c, s) && Answering(c, s) && s.consumer.pc.Getting?
    ensures var t := Step(c, s, RunConsumer);
      Shape(c, t) && (t.consumer.pc.Resting? ==>
        && t.consumer.start == s.consumer.start
        && match t.consumer.answer
           case Got => Holds(s.consumer) && t.sh.data.consumed == s.sh.data.consumed && Reading(c, t) == Reading(c, s)
           case Stopped => s.consumer.stopping
           case TimedOut => s.consumer.pc == Getting(UnlockDone)
           case _ => false)
  {
    StepKeepsInv(c, s, RunConsumer);
    StepKeepsReading(c, s, RunConsumer);
    GetQuiet(c, s);
  }

  // ---- why getNext comes back without a message ----

  // Nobody has stopped the consumer, and no wait of the call has timed out.
  predicate Patient(co: Consumer) {
    && !co.stopping && co.pc != Getting(WaitWoken(true)) && !(co.pc.Trying? && co.pc.via.Late?)
    && (co.pc == Getting(UnlockDone) ==> co.answer.Got?)
    && (co.pc.Resting? ==> co.answer.Got? || co.answer.Empty?)
  }

  lemma ConsumerPatient(c: Config, sh: Shared, co: Consumer, a: Action)
    requires DataShape(c, sh.data) && co.message.block < |sh.data.memory| && Patient(co)
    requires !a.StopConsumer? && a != WakeConsumer(true)
    requires co.pc.Trying? && co.pc.at.Take? ==>
      sh.data.entries[sh.readPosition % c.entryCount].message.block < |sh.data.memory|
    ensures Patient(ConsumerAct(c, sh, co, a).1) || !NeverSkips(ConsumerAct(c, sh, co, a).1.pc)
  {
  }

  lemma StepPatient(c: Config, s: State, a: Action)
    requires Inv(c, s) && Patient(s.consumer) && !a.StopConsumer? && a != WakeConsumer(true)
    ensures Patient(Step(c, s, a).consumer)
  {
    StepKeepsInv(c, s, a);
    if NamesConsumer(a) {
      ConsumerPatient(c, s.sh, s.consumer, a);
    }
  }

  lemma {:induction false} RunsPatient(c: Config, s: State, actions: seq<Action>)
    requires Inv(c, s) && Patient(s.consumer)
    requires forall i: nat | i < |actions| :: !actions[i].StopConsumer? && actions[i] != WakeConsumer(true)
    ensures Patient(After(c, s, actions).consumer)
    decreases |actions|
  {
    if actions == [] {
    } else {
      StepKeepsInv(c, s, actions[0]);
      StepPatient(c, s, actions[0]);
      RunsPatient(c, Step(c, s, actions[0]), actions[1..]);
    }
  }

  // A consumer that is not stopped and has no wait time out always gets a message from getNext.
  lemma UntroubledGets(c: Config, s: State, actions: seq<Action>)
    requires Init(c, s) && forall i: nat | i < |actions| ::
      !actions[i].StopConsumer? && actions[i] != WakeConsumer(true)
    ensures Inv(c, s)
    ensures var t := After(c, s, actions);
      t.consumer.pc.Resting? ==> t.consumer.answer.Got? || t.consumer.answer.Empty?
  {
    InitIsInv(c, s);
    RunsPatient(c, s, actions);
  }
}
