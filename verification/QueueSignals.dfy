// A call of publish that returns has signalled the consumer, if the consumer's strategy uses the mutex.
module QueueSignals {
  import opened QueueMachine
  import opened QueueInvariants
  import opened QueueData
  import opened QueueSystem
  import opened QueueRuns
  import opened QueueOutcomes

  // The call is on its way out of notifyConsumer; one of several producers that gives up does not go there.
  predicate Past(c: Config, pr: Producer) {
    pr.pc == Publishing(Unlock) || (pr.pc == Publishing(Finish) && (c.solo || pr.published))
  }

  // In the run producer p takes the step that signals the consumer.
  ghost predicate Signals(c: Config, s: State, actions: seq<Action>, p: nat)
    requires Inv(c, s) && p < |s.producers|
    decreases |actions|
  {
    actions != []
    && (|| (actions[0] == Run(p) && s.producers[p].pc == Publishing(Signal))
        || (Inv(c, Step(c, s, actions[0])) && p < |Step(c, s, actions[0]).producers|
            && Signals(c, Step(c, s, actions[0]), actions[1..], p)))
  }

  lemma OnlyBySignal(c: Config, s: State, a: Action, p: nat)
    requires Inv(c, s) && p < |s.producers| && Told(s.sh.data.published, p, s.producers[p])
    requires c.consumerWait.MutexUsed() && !Past(c, s.producers[p])
    ensures p < |Step(c, s, a).producers|
    ensures Past(c, Step(c, s, a).producers[p]) ==> a == Run(p) && s.producers[p].pc == Publishing(Signal)
  {
    var pr := s.producers[p];
    assert ProducerOk(c, s.sh, ConsumerOwesSignal(s.consumer.pc), p, pr);
    if a == Run(p) {
      RunOnlyBySignal(c, s.sh, ConsumerOwesSignal(s.consumer.pc), p, pr);
    } else {
      NotPast(c, s, a, p);
    }
  }

  // Only a step of its own brings a call further.
  lemma NotPast(c: Config, s: State, a: Action, p: nat)
    requires Shape(c, s) && p < |s.producers| && a != Run(p) && !Past(c, s.producers[p])
    ensures p < |Step(c, s, a).producers| && !Past(c, Step(c, s, a).producers[p])
  {
  }

  lemma RunOnlyBySignal(c: Config, sh: Shared, owed: bool, p: nat, pr: Producer)
    requires c.entryCount > 0 && |sh.data.entries| == c.entryCount && ProducerOk(c, sh, owed, p, pr)
    requires !Decided(pr.pc) ==> (pr.published <==> pr.pc == Publishing(Store))
    requires c.consumerWait.MutexUsed() && !Past(c, pr)
    ensures Past(c, ProducerStep(c, sh, p, pr).1) ==> pr.pc == Publishing(Signal)
  {
    match pr.pc
    case Idle =>
    case Publishing(_) =>
    case Contending(_) =>
    case Retrying(_) =>
    case Blocking(_) =>
  }

  lemma {:induction false} PastOnlyBySignal(c: Config, s: State, actions: seq<Action>, p: nat)
    requires Inv(c, s) && AllTold(s) && p < |s.producers| && c.consumerWait.MutexUsed() && !Past(c, s.producers[p])
    ensures p < |After(c, s, actions).producers|
    ensures Past(c, After(c, s, actions).producers[p]) ==> Signals(c, s, actions, p)
    decreases |actions|
  {
    if actions == [] {
    } else {
      var t := Step(c, s, actions[0]);
      StepKeepsInv(c, s, actions[0]);
      StepTells(c, s, actions[0]);
      OnlyBySignal(c, s, actions[0], p);
      if !Past(c, t.producers[p]) {
        PastOnlyBySignal(c, t, actions[1..], p);
      } else {
        ProducersStay(c, t, actions[1..]);
      }
    }
  }

  lemma {:induction false} ProducersStay(c: Config, s: State, actions: seq<Action>)
    requires Inv(c, s)
    ensures |After(c, s, actions).producers| == |s.producers|
    decreases |actions|
  {
    if actions == [] {
    } else {
      StepKeepsInv(c, s, actions[0]);
      ProducersStay(c, Step(c, s, actions[0]), actions[1..]);
    }
  }

  // From a state in which producer p has no call under way, whatever run leads to the return of one: if p is alone, or
  // has published, it has signalled the consumer on the way. A lone producer that is stopped does so too.
  lemma ReturnsAfterSignal(c: Config, s: State, actions: seq<Action>, p: nat)
    requires Reachable(c, s) && p < |s.producers| && s.producers[p].pc.Idle?
    requires c.consumerWait.spinCount != 0xFFFF_FFFF && c.consumerWait.yieldCount != 0xFFFF_FFFF
      && c.consumerWait.sleepCount != 0xFFFF_FFFF
    ensures Inv(c, s) && p < |After(c, s, actions).producers|
    ensures var pr := After(c, s, actions).producers[p];
      pr.pc == Publishing(Finish) && (c.solo || pr.published) ==> Signals(c, s, actions, p)
  {
    ReachableTells(c, s);
    PastOnlyBySignal(c, s, actions, p);
  }
}
