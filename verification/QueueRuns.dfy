// Runs of the queue: any number of producers and one consumer, interleaved in any way.
module QueueRuns {
  import opened QueueMachine
  import opened QueueInvariants
  import opened QueueData
  import opened QueueSystem

  // ---- where a run starts ----

  predicate Unlocked(sh: Shared) {
    sh.locks == Locks(None, Free) && sh.sleep == Sleep(false, false, {}, false)
  }

  // A queue just made, every thread between calls, every message on a block of its own.
  ghost predicate Init(c: Config, s: State) {
    && Shape(c, s) && OwnBlocks(s) && Unlocked(s.sh)
    && s.sh.readPosition == s.sh.publishPosition == c.entryCount
    && s.sh.data.published == [] && s.sh.data.consumed == []
    && (forall i: nat | i < |s.sh.data.entries| :: s.sh.data.entries[i].status == EMPTY)
    && (forall p: nat | p < |s.producers| :: NewProducer(s.producers[p]))
    && s.consumer.pc.Resting? && s.consumer.cachedPublish == s.sh.publishPosition && !s.consumer.stopping
    && s.consumer.start == 0 && s.consumer.answer.Empty?
  }

  predicate NewProducer(pr: Producer) {
    pr.pc.Idle? && pr.publishable == 0 && pr.cargo.calls == 0 && !pr.owns && !pr.stopping
  }

  lemma InitIsInv(c: Config, s: State)
    requires Init(c, s)
    ensures Inv(c, s)
  {
    forall p: nat | p < |s.producers| ensures ProducerOk(c, s.sh, false, p, s.producers[p]) {
      assert NewProducer(s.producers[p]);
    }
    assert Window(c, s);
    assert ConsumerOk(c, s.sh, SomeoneOwesSignal(s), s.consumer);
  }

  // ---- runs ----

  // The invariant holds after any run, so no block is held twice, and unless a caller's message was replaced by another
  // the blocks held are those held before.
  ghost function After(c: Config, s: State, actions: seq<Action>): (t: State)
    requires Inv(c, s)
    ensures Inv(c, t)
    ensures (forall i: nat | i < |actions| :: !actions[i].Replace?) ==> SameBlocks(s, t)
    decreases |actions|
  {
    if actions == [] then s
    else
      StepKeepsInv(c, s, actions[0]);
      After(c, Step(c, s, actions[0]), actions[1..])
  }

  lemma {:induction false} AfterJoin(c: Config, s: State, first: seq<Action>, second: seq<Action>)
    requires Inv(c, s)
    ensures After(c, s, first + second) == After(c, After(c, s, first), second)
    decreases |first|
  {
    if first == [] {
      assert first + second == second;
    } else {
      StepKeepsInv(c, s, first[0]);
      assert (first + second)[1..] == first[1..] + second;
      AfterJoin(c, Step(c, s, first[0]), first[1..], second);
    }
  }

  // The actions lead from s to t, one after the other.
  ghost predicate Leads(c: Config, s: State, actions: seq<Action>, t: State)
    decreases |actions|
  {
    if actions == [] then s == t else Shape(c, s) && Leads(c, Step(c, s, actions[0]), actions[1..], t)
  }

  ghost predicate Reachable(c: Config, s: State) {
    exists start: State, actions: seq<Action> :: Init(c, start) && Leads(c, start, actions, s)
  }

  // Nothing stops a run: where the actions lead is what they leave.
  lemma {:induction false} LeadsToAfter(c: Config, s: State, actions: seq<Action>, t: State)
    requires Inv(c, s)
    ensures Leads(c, s, actions, t) <==> t == After(c, s, actions)
    decreases |actions|
  {
    if actions == [] {
    } else {
      StepKeepsInv(c, s, actions[0]);
      LeadsToAfter(c, Step(c, s, actions[0]), actions[1..], t);
    }
  }

  lemma ReachableIsAfter(c: Config, s: State) returns (start: State, actions: seq<Action>)
    requires Reachable(c, s)
    ensures Init(c, start) && Inv(c, start) && After(c, start, actions) == s
  {
    start, actions :| Init(c, start) && Leads(c, start, actions, s);
    InitIsInv(c, start);
    LeadsToAfter(c, start, actions, s);
  }

  lemma ReachableIsInv(c: Config, s: State)
    requires Reachable(c, s)
    ensures Inv(c, s)
  {
    var start, actions := ReachableIsAfter(c, s);
  }

  // ---- what any one action does ----

  predicate Extends<T(==)>(a: seq<T>, b: seq<T>) {
    |a| <= |b| && b[..|a|] == a
  }

  // Positions grow, the history grows at its end, and only at the step that stores the publish position.
  predicate Grows(c: Config, s: State, a: Action, t: State) {
    && s.sh.readPosition <= t.sh.readPosition && s.sh.publishPosition <= t.sh.publishPosition
    && (t.sh.data.published == s.sh.data.published
        || (a.Run? && a.p < |s.producers| && s.producers[a.p].pc == Publishing(Store)
            && t.sh.data.published == s.sh.data.published + [s.producers[a.p].cargo.item]))
    && (t.sh.data.consumed == s.sh.data.consumed
        || (a.RunConsumer? && |t.sh.data.consumed| == |s.sh.data.consumed| + 1
            && Extends(s.sh.data.consumed, t.sh.data.consumed)))
    && |t.producers| == |s.producers|
  }

  lemma RunGrows(c: Config, sh: Shared, owed: bool, p: nat, pr: Producer)
    requires c.entryCount > 0 && |sh.data.entries| == c.entryCount && ProducerOk(c, sh, owed, p, pr)
    ensures var r := ProducerStep(c, sh, p, pr);
      && r.0.data.consumed == sh.data.consumed
      && (if pr.pc == Publishing(Store) then r.0.data.published == sh.data.published + [pr.cargo.item]
          else r.0.data.published == sh.data.published)
  {
    match pr.pc
    case Idle =>
    case Publishing(_) =>
    case Contending(_) =>
    case Retrying(_) =>
    case Blocking(_) => BlockKeepsData(c, sh, p, pr);
  }

  lemma BlockKeepsData(c: Config, sh: Shared, p: nat, pr: Producer)
    requires pr.pc.Blocking?
    ensures BlockStep(c, sh, p, pr).0.data == sh.data
  {
  }

  lemma StepGrows(c: Config, s: State, a: Action)
    requires Inv(c, s)
    ensures Grows(c, s, a, Step(c, s, a))
  {
    var owed := ConsumerOwesSignal(s.consumer.pc);
    if NamesProducer(a) {
      if a.p < |s.producers| {
        var pr := s.producers[a.p];
        assert ProducerOk(c, s.sh, owed, a.p, pr);
        ActOk(c, s.sh, owed, a.p, pr, a);
        if a.Run? { RunGrows(c, s.sh, owed, a.p, pr); }
      }
    } else if NamesConsumer(a) {
      ConsumerActOk(c, s.sh, SomeoneOwesSignal(s), s.consumer, a);
      ConsumerGrows(c, s, a);
    }
  }

  lemma ConsumerGrows(c: Config, s: State, a: Action)
    requires Inv(c, s) && NamesConsumer(a)
    ensures var d, e := s.sh.data, ConsumerAct(c, s.sh, s.consumer, a).0.data;
      && e.published == d.published
      && (e.consumed == d.consumed
          || (a.RunConsumer? && |e.consumed| == |d.consumed| + 1 && Extends(d.consumed, e.consumed)))
  {
    if a.RunConsumer? && s.consumer.pc.Getting? {
      GetQuiet(c, s);
    }
  }

  // Positions only grow, and no history is ever rewritten.
  predicate Later(s: State, t: State) {
    && s.sh.readPosition <= t.sh.readPosition && s.sh.publishPosition <= t.sh.publishPosition
    && Extends(s.sh.data.published, t.sh.data.published) && Extends(s.sh.data.consumed, t.sh.data.consumed)
    && |t.producers| == |s.producers|
  }

  lemma ExtendsFurther<T>(a: seq<T>, b: seq<T>, d: seq<T>)
    requires Extends(a, b) && Extends(b, d)
    ensures Extends(a, d)
  {
    assert d[..|a|] == b[..|a|];
  }

  lemma LaterStill(s: State, t: State, u: State)
    requires Later(s, t) && Later(t, u)
    ensures Later(s, u)
  {
    ExtendsFurther(s.sh.data.published, t.sh.data.published, u.sh.data.published);
    ExtendsFurther(s.sh.data.consumed, t.sh.data.consumed, u.sh.data.consumed);
  }

  lemma StepIsLater(c: Config, s: State, a: Action)
    requires Inv(c, s)
    ensures Later(s, Step(c, s, a))
  {
    StepGrows(c, s, a);
  }

  lemma {:induction false} RunsGrow(c: Config, s: State, actions: seq<Action>)
    requires Inv(c, s)
    ensures Later(s, After(c, s, actions))
    decreases |actions|
  {
    if actions == [] {
    } else {
      var t := Step(c, s, actions[0]);
      StepKeepsInv(c, s, actions[0]);
      StepIsLater(c, s, actions[0]);
      RunsGrow(c, t, actions[1..]);
      LaterStill(s, t, After(c, t, actions[1..]));
    }
  }
}
