// What publish and getNext report: a message is in the history exactly when publish says so, and what the consumer
// reads is what was written.
module QueueOutcomes {
  import opened QueueMachine
  import opened QueueInvariants
  import opened QueueData
  import opened QueueSystem
  import opened QueueRuns

  // ---- publish ----

  // The call of publish has stored its message, or given up.
  predicate Decided(pc: PPc) {
    match pc
    case Idle => true
    case Publishing(at) => at.Notify? || at.Signal? || at.Unlock? || at.Finish?
    case _ => false
  }

  ghost predicate InHistory(history: seq<Item>, p: nat, call: nat) {
    exists i: nat :: i < |history| && history[i].producer == p && history[i].call == call
  }

  // published tells whether the present call, or the last one, is in the history.
  ghost predicate Told(history: seq<Item>, p: nat, pr: Producer) {
    && (!pr.pc.Idle? ==> pr.cargo.calls > 0)
    && (Decided(pr.pc) && pr.cargo.calls > 0 ==> (pr.published <==> InHistory(history, p, pr.cargo.calls)))
    && (!Decided(pr.pc) ==> (pr.published <==> pr.pc == Publishing(Store)))
  }

  ghost predicate AllTold(s: State) {
    forall p: nat | p < |s.producers| :: Told(s.sh.data.published, p, s.producers[p])
  }

  // A call that gave up and has not returned still has its message, saying what it said.
  ghost predicate AllKept(c: Config, s: State)
    requires Shape(c, s)
  {
    forall p: nat | p < |s.producers| && GaveUp(s.producers[p]) ::
      ContentOf(s.sh.data, s.producers[p].cargo.message) == s.producers[p].cargo.item.content
  }

  predicate GaveUp(pr: Producer) {
    !pr.pc.Idle? && (Decided(pr.pc) || pr.pc == Blocking(Throw)) && !pr.published
  }

  // Steps that leave the history and the verdict alone, and decide nothing but that the call has failed.
  predicate SaysNothing(pr: Producer, q: Producer) {
    && q.cargo.calls == pr.cargo.calls && q.published == pr.published
    && (pr.pc.Idle? ==> q.pc.Idle?)
    && (q.pc == Publishing(Store) <==> pr.pc == Publishing(Store))
    && (Decided(pr.pc) ==> Decided(q.pc))
    && (!Decided(pr.pc) && Decided(q.pc) ==> pr.pc != Publishing(Store) && Unsent(pr.pc))
  }

  lemma BlockSaysNothing(c: Config, sh: Shared, p: nat, pr: Producer)
    requires pr.pc.Blocking?
    ensures SaysNothing(pr, BlockStep(c, sh, p, pr).1)
  {
  }

  lemma RunSaysNothing(c: Config, sh: Shared, owed: bool, p: nat, pr: Producer)
    requires c.entryCount > 0 && |sh.data.entries| == c.entryCount && NoSkips(sh) && ProducerOk(c, sh, owed, p, pr)
    requires pr.pc != Publishing(Fill) && pr.pc != Publishing(Mark) && pr.pc != Publishing(Store)
    ensures SaysNothing(pr, ProducerStep(c, sh, p, pr).1)
  {
    match pr.pc
    case Idle =>
    case Publishing(_) => PublishSaysNothing(c, sh, owed, p, pr);
    case Contending(_) =>
    case Retrying(_) =>
    case Blocking(_) => BlockSaysNothing(c, sh, p, pr);
  }

  lemma PublishSaysNothing(c: Config, sh: Shared, owed: bool, p: nat, pr: Producer)
    requires c.entryCount > 0 && |sh.data.entries| == c.entryCount
    requires pr.pc.Publishing? && pr.pc != Publishing(Fill) && pr.pc != Publishing(Mark) && pr.pc != Publishing(Store)
    ensures SaysNothing(pr, PublishStep(c, sh, p, pr).1)
  {
  }

  lemma RunTells(c: Config, s: State, p: nat)
    requires Inv(c, s) && p < |s.producers| && Told(s.sh.data.published, p, s.producers[p])
    ensures Told(Step(c, s, Run(p)).sh.data.published, p, Step(c, s, Run(p)).producers[p])
  {
    var pr := s.producers[p];
    var before, after := s.sh.data.published, Step(c, s, Run(p)).sh.data.published;
    var owed := ConsumerOwesSignal(s.consumer.pc);
    assert ProducerOk(c, s.sh, owed, p, pr);
    assert CargoOf(c, s.sh.data, p, pr);
    RunGrows(c, s.sh, owed, p, pr);
    if pr.pc == Publishing(Store) {
      assert after[|before|].producer == p && after[|before|].call == pr.cargo.calls;
    } else if pr.pc == Publishing(Fill) {
      assert s.sh.data.entries[pr.position % c.entryCount].status != SKIP;
    } else if pr.pc != Publishing(Mark) {
      RunSaysNothing(c, s.sh, owed, p, pr);
      if Unsent(pr.pc) { NotYet(c, s, p); }
    }
  }

  // While the message is still unsent its call is not in the history.
  lemma NotYet(c: Config, s: State, p: nat)
    requires CallsInOrder(s) && p < |s.producers| && Unsent(s.producers[p].pc)
    ensures !InHistory(s.sh.data.published, p, s.producers[p].cargo.calls)
  {
    forall i: nat | i < |s.sh.data.published| && s.sh.data.published[i].producer == p
      ensures s.sh.data.published[i].call < s.producers[p].cargo.calls
    {
      assert CallKnown(s, s.sh.data.published[i]);
    }
  }

  // An item of one producer says nothing about the others.
  lemma OthersTold(before: seq<Item>, item: Item, q: nat, other: Producer)
    requires Told(before, q, other) && item.producer != q
    ensures Told(before + [item], q, other)
  {
    var after := before + [item];
    if InHistory(before, q, other.cargo.calls) {
      var i: nat :| i < |before| && before[i].producer == q && before[i].call == other.cargo.calls;
      assert after[i] == before[i];
    }
  }

  lemma StepTells(c: Config, s: State, a: Action)
    requires Inv(c, s) && AllTold(s)
    ensures AllTold(Step(c, s, a))
  {
    var t := Step(c, s, a);
    StepGrows(c, s, a);
    forall q: nat | q < |t.producers| ensures Told(t.sh.data.published, q, t.producers[q]) {
      assert Told(s.sh.data.published, q, s.producers[q]);
      if NamesProducer(a) && a.p == q {
        if a.Run? {
          RunTells(c, s, q);
        } else {
          CallTells(c, s, a);
        }
      } else if t.sh.data.published != s.sh.data.published {
        assert CargoOf(c, s.sh.data, a.p, s.producers[a.p]);
        OthersTold(s.sh.data.published, s.producers[a.p].cargo.item, q, s.producers[q]);
      }
    }
  }

  // Calling publish, waking, writing and stopping.
  lemma CallTells(c: Config, s: State, a: Action)
    requires Inv(c, s) && NamesProducer(a) && !a.Run? && a.p < |s.producers|
    requires Told(s.sh.data.published, a.p, s.producers[a.p])
    ensures Told(Step(c, s, a).sh.data.published, a.p, Step(c, s, a).producers[a.p])
  {
  }

  // ---- a call that gave up ----

  // A block is written by the owner of the message on it, while that has no call under way, and by nobody else.
  lemma StepKeepsMemory(c: Config, s: State, a: Action, x: Place)
    requires Inv(c, s) && IsPlace(s, x)
    requires a.Write? && x == WithProducer(a.p) ==> !s.producers[a.p].pc.Idle?
    requires a.Scribble? && x.WithConsumer? ==> !s.consumer.pc.Resting?
    requires a.Replace? && x == PlaceOf(a.who) ==> !AtRest(s, a.who)
    ensures |Step(c, s, a).sh.data.memory| == |s.sh.data.memory|
    ensures BlockAt(s, x) < |s.sh.data.memory|
    ensures Step(c, s, a).sh.data.memory[BlockAt(s, x)] == s.sh.data.memory[BlockAt(s, x)]
  {
    if NamesProducer(a) {
      if a.p < |s.producers| {
        if a.Run? { RunKeepsMemory(c, s.sh, a.p, s.producers[a.p]); }
        assert IsPlace(s, WithProducer(a.p));
      }
    } else if a.Scribble? {
      assert IsPlace(s, WithConsumer);
    } else if a.Replace? {
      if AtRest(s, a.who) && Vacant(s, a.who, a.message.block) { ReplaceKeepsMemory(s, a, x); }
    } else if a.RunConsumer? && s.consumer.pc.Getting? {
      GetQuiet(c, s);
    }
  }

  lemma ReplaceKeepsMemory(s: State, a: Action, x: Place)
    requires a.Replace? && AtRest(s, a.who) && Vacant(s, a.who, a.message.block) && IsPlace(s, x) && x != PlaceOf(a.who)
    ensures a.message.block != BlockAt(s, x)
  {
  }

  lemma RunKeepsMemory(c: Config, sh: Shared, p: nat, pr: Producer)
    requires c.entryCount > 0 && |sh.data.entries| == c.entryCount
    ensures ProducerStep(c, sh, p, pr).0.data.memory == sh.data.memory
  {
    if pr.pc.Blocking? { BlockKeepsData(c, sh, p, pr); }
  }

  lemma RunKeepsMessage(c: Config, sh: Shared, owed: bool, p: nat, pr: Producer)
    requires c.entryCount > 0 && |sh.data.entries| == c.entryCount && ProducerOk(c, sh, owed, p, pr)
    requires NoSkips(sh) && GaveUp(ProducerStep(c, sh, p, pr).1)
    ensures ProducerStep(c, sh, p, pr).1.cargo == pr.cargo && (Unsent(pr.pc) || GaveUp(pr))
  {
    if pr.pc.Blocking? {
      BlockQuiet(c, sh, p, pr);
    }
  }

  lemma StepKeepsMessages(c: Config, s: State, a: Action)
    requires Inv(c, s) && AllKept(c, s)
    ensures Inv(c, Step(c, s, a)) && AllKept(c, Step(c, s, a))
  {
    StepKeepsInv(c, s, a);
    var t := Step(c, s, a);
    forall q: nat | q < |t.producers| && GaveUp(t.producers[q])
      ensures ContentOf(t.sh.data, t.producers[q].cargo.message) == t.producers[q].cargo.item.content
    {
      StepKeepsMessage(c, s, a, q);
      StepKeepsMemory(c, s, a, WithProducer(q));
    }
  }

  lemma StepKeepsMessage(c: Config, s: State, a: Action, q: nat)
    requires Inv(c, s) && AllKept(c, s) && q < |s.producers|
    ensures var t := Step(c, s, a);
      |t.producers| == |s.producers| &&
      (GaveUp(t.producers[q]) ==>
        && !s.producers[q].pc.Idle? && t.producers[q].cargo == s.producers[q].cargo
        && ContentOf(s.sh.data, s.producers[q].cargo.message) == s.producers[q].cargo.item.content)
  {
    assert CargoOf(c, s.sh.data, q, s.producers[q]);
    assert ProducerOk(c, s.sh, ConsumerOwesSignal(s.consumer.pc), q, s.producers[q]);
    if a != Run(q) {
      OthersKeepCargo(c, s, a, q);
    } else if GaveUp(Step(c, s, a).producers[q]) {
      RunKeepsMessage(c, s.sh, ConsumerOwesSignal(s.consumer.pc), q, s.producers[q]);
    }
  }

  lemma OthersKeepCargo(c: Config, s: State, a: Action, q: nat)
    requires Shape(c, s) && q < |s.producers| && a != Run(q)
    ensures var t := Step(c, s, a);
      && |t.producers| == |s.producers|
      && (GaveUp(t.producers[q]) ==> GaveUp(s.producers[q]) && t.producers[q].cargo == s.producers[q].cargo)
  {
  }

  // ---- why a call gives up ----

  // Producer p is stopped, or its wait on the condition variable times out.
  predicate Troubles(a: Action, p: nat) {
    a == StopProducer(p) || a == Wake(p, true)
  }

  // A producer that nothing has troubled: its last call, if it has returned, is published.
  predicate Steady(pr: Producer) {
    && !pr.stopping && (pr.pc.Idle? || !pr.timedOut)
    && pr.pc != Contending(Rejoin) && pr.pc != Blocking(Throw) && pr.pc != Blocking(Woken(true))
    && (Decided(pr.pc) && pr.cargo.calls > 0 ==> pr.published)
  }

  lemma PublishSteady(c: Config, sh: Shared, owed: bool, p: nat, pr: Producer)
    requires c.entryCount > 0 && |sh.data.entries| == c.entryCount && ProducerOk(c, sh, owed, p, pr)
    requires pr.pc.Publishing? && Steady(pr)
    ensures Steady(PublishStep(c, sh, p, pr).1)
  {
  }

  lemma BlockSteady(c: Config, sh: Shared, p: nat, pr: Producer)
    requires pr.pc.Blocking? && Steady(pr)
    ensures Steady(BlockStep(c, sh, p, pr).1)
  {
  }

  lemma RunSteady(c: Config, sh: Shared, owed: bool, p: nat, pr: Producer)
    requires c.entryCount > 0 && |sh.data.entries| == c.entryCount && ProducerOk(c, sh, owed, p, pr) && Steady(pr)
    ensures Steady(ProducerStep(c, sh, p, pr).1)
  {
    match pr.pc
    case Idle =>
    case Publishing(_) => PublishSteady(c, sh, owed, p, pr);
    case Contending(_) =>
    case Retrying(_) =>
    case Blocking(_) => BlockSteady(c, sh, p, pr);
  }

  lemma ActSteady(c: Config, sh: Shared, owed: bool, p: nat, pr: Producer, a: Action)
    requires c.entryCount > 0 && |sh.data.entries| == c.entryCount && ProducerOk(c, sh, owed, p, pr) && Steady(pr)
    requires NamesProducer(a) && a.p == p && !Troubles(a, p) && pr.cargo.message.block < |sh.data.memory|
    ensures Steady(ProducerAct(c, sh, p, pr, a).1)
  {
    if a.Run? { RunSteady(c, sh, owed, p, pr); }
  }

  lemma StepSteady(c: Config, s: State, a: Action, p: nat)
    requires Inv(c, s) && p < |s.producers| && Steady(s.producers[p]) && !Troubles(a, p)
    ensures p < |Step(c, s, a).producers| && Steady(Step(c, s, a).producers[p])
  {
    if NamesProducer(a) && a.p == p {
      var owed := ConsumerOwesSignal(s.consumer.pc);
      assert ProducerOk(c, s.sh, owed, p, s.producers[p]);
      ActSteady(c, s.sh, owed, p, s.producers[p], a);
    }
  }

  lemma {:induction false} RunsSteady(c: Config, s: State, actions: seq<Action>, p: nat)
    requires Inv(c, s) && p < |s.producers| && Steady(s.producers[p])
    requires forall i: nat | i < |actions| :: !Troubles(actions[i], p)
    ensures var t := After(c, s, actions); p < |t.producers| && Steady(t.producers[p])
    decreases |actions|
  {
    if actions == [] {
    } else {
      StepKeepsInv(c, s, actions[0]);
      StepSteady(c, s, actions[0], p);
      RunsSteady(c, Step(c, s, actions[0]), actions[1..], p);
    }
  }

  // A producer that is not stopped and has no wait time out publishes in every call that returns, and never throws.
  lemma UntroubledPublishes(c: Config, s: State, actions: seq<Action>, p: nat)
    requires Init(c, s) && p < |s.producers| && forall i: nat | i < |actions| :: !Troubles(actions[i], p)
    ensures Inv(c, s)
    ensures var t := After(c, s, actions);
      && p < |t.producers| && t.producers[p].pc != Blocking(Throw) && t.producers[p].pc != Contending(Rejoin)
      && (t.producers[p].pc.Idle? && t.producers[p].cargo.calls > 0 ==>
            InHistory(t.sh.data.published, p, t.producers[p].cargo.calls))
  {
    InitIsInv(c, s);
    assert NewProducer(s.producers[p]);
    RunsSteady(c, s, actions, p);
    forall q: nat | q < |s.producers| ensures Told(s.sh.data.published, q, s.producers[q]) && s.producers[q].pc.Idle? {
      assert NewProducer(s.producers[q]);
    }
    RunsTell(c, s, actions);
    var t := After(c, s, actions);
    assert Told(t.sh.data.published, p, t.producers[p]);
  }

  lemma {:induction false} RunsTell(c: Config, s: State, actions: seq<Action>)
    requires Inv(c, s) && AllTold(s) && AllKept(c, s)
    ensures AllTold(After(c, s, actions)) && AllKept(c, After(c, s, actions))
    decreases |actions|
  {
    if actions == [] {
    } else {
      StepKeepsInv(c, s, actions[0]);
      StepTells(c, s, actions[0]);
      StepKeepsMessages(c, s, actions[0]);
      RunsTell(c, Step(c, s, actions[0]), actions[1..]);
    }
  }

  lemma ReachableTells(c: Config, s: State)
    requires Reachable(c, s)
    ensures Inv(c, s) && AllTold(s) && AllKept(c, s)
  {
    var start, actions := ReachableIsAfter(c, s);
    forall q: nat | q < |start.producers|
      ensures Told(start.sh.data.published, q, start.producers[q]) && start.producers[q].pc.Idle?
    {
      assert NewProducer(start.producers[q]);
    }
    RunsTell(c, start, actions);
  }

  // When publish returns or throws, its call is in the history exactly if it reports so; if not, the caller still has
  // the message, saying what it said.
  lemma PublishReports(c: Config, s: State, p: nat)
    requires Reachable(c, s) && p < |s.producers|
    requires s.producers[p].pc == Publishing(Finish) || s.producers[p].pc == Blocking(Throw)
    ensures Inv(c, s) && Inv(c, Step(c, s, Run(p)))
    ensures var t := Step(c, s, Run(p)); var pr := t.producers[p];
      && pr.pc.Idle? && pr.cargo == s.producers[p].cargo && pr.published == s.producers[p].published
      && (pr.published <==> InHistory(t.sh.data.published, p, pr.cargo.calls))
      && (!pr.published ==> ContentOf(t.sh.data, pr.cargo.message) == pr.cargo.item.content)
  {
    ReachableTells(c, s);
    StepKeepsInv(c, s, Run(p));
    StepTells(c, s, Run(p));
    assert Told(s.sh.data.published, p, s.producers[p]);
    assert Told(Step(c, s, Run(p)).sh.data.published, p, Step(c, s, Run(p)).producers[p]);
  }

  // ---- consuming ----

  function Reading(c: Config, s: State): Content
    requires Shape(c, s)
  {
    ContentOf(s.sh.data, s.consumer.message)
  }

  // The consumer's message is neither written nor replaced nor moved.
  predicate LeavesReading(a: Action) {
    && !a.Scribble?
    && (a.Replace? ==> a.who != OfConsumer)
    && (a.Pass? ==> a.from != OfConsumer && a.to != OfConsumer)
  }

  // What the consumer's message says stays until it is written or the next message is taken into it.
  lemma StepKeepsReading(c: Config, s: State, a: Action)
    requires Inv(c, s) && LeavesReading(a)
    ensures Inv(c, Step(c, s, a))
    ensures var t := Step(c, s, a);
      if t.sh.data.consumed == s.sh.data.consumed then Reading(c, t) == Reading(c, s)
      else t.sh.data.consumed == s.sh.data.consumed + [Reading(c, t)]
  {
    StepKeepsInv(c, s, a);
    StepKeepsMemory(c, s, a, WithConsumer);
    if NamesProducer(a) {
      StepGrows(c, s, a);
    } else if a.RunConsumer? && s.consumer.pc.Trying? {
      if s.consumer.pc.at.Take? {
        TakeReads(c, s);
      } else if !s.consumer.pc.at.Bump? {
        TryQuiet(c, s);
      }
    } else if a.RunConsumer? && s.consumer.pc.Getting? {
      GetQuiet(c, s);
    }
  }

  lemma TakeReads(c: Config, s: State)
    requires Inv(c, s) && s.consumer.pc.Trying? && s.consumer.pc.at.Take?
    ensures var (sh, co) := TryStep(c, s.sh, s.consumer);
      && co.message.block < |sh.data.memory|
      && sh.data.consumed == s.sh.data.consumed + [ContentOf(sh.data, co.message)]
  {
    TakeKeepsData(c, s);
  }

  predicate NoScribble(actions: seq<Action>) {
    forall i: nat | i < |actions| :: LeavesReading(actions[i])
  }

  lemma {:induction false} RunKeepsReading(c: Config, s: State, actions: seq<Action>)
    requires Inv(c, s) && NoScribble(actions)
    requires |After(c, s, actions).sh.data.consumed| == |s.sh.data.consumed|
    ensures Reading(c, After(c, s, actions)) == Reading(c, s)
    decreases |actions|
  {
    if actions == [] {
    } else {
      var t := Step(c, s, actions[0]);
      StepKeepsInv(c, s, actions[0]);
      StepIsLater(c, s, actions[0]);
      RunsGrow(c, t, actions[1..]);
      StepKeepsReading(c, s, actions[0]);
      RunKeepsReading(c, t, actions[1..]);
    }
  }

  // The n-th message taken says what publish was called with the n-th time a message was published, and goes on
  // saying it, whatever the producers do, until the consumer writes it or takes the next.
  lemma ReadsWhatWasWritten(c: Config, s: State, actions: seq<Action>)
    requires Reachable(c, s) && s.consumer.pc.Trying? && s.consumer.pc.at.Take? && NoScribble(actions)
    ensures Inv(c, s) && Inv(c, Step(c, s, RunConsumer))
    ensures var n, t := |s.sh.data.consumed|, After(c, Step(c, s, RunConsumer), actions);
      |t.sh.data.consumed| == n + 1 ==>
        n < |t.sh.data.published| && Reading(c, t) == t.sh.data.published[n].content
  {
    ReachableIsInv(c, s);
    StepKeepsInv(c, s, RunConsumer);
    var u := Step(c, s, RunConsumer);
    RunsGrow(c, u, actions);
    TakenIsPublished(c, s);
    if |After(c, u, actions).sh.data.consumed| == |s.sh.data.consumed| + 1 {
      RunKeepsReading(c, u, actions);
    }
  }

  lemma TakenIsPublished(c: Config, s: State)
    requires Inv(c, s) && s.consumer.pc.Trying? && s.consumer.pc.at.Take?
    ensures Inv(c, Step(c, s, RunConsumer))
    ensures var n, u := |s.sh.data.consumed|, Step(c, s, RunConsumer);
      && |u.sh.data.consumed| == n + 1 && n < |u.sh.data.published|
      && Reading(c, u) == u.sh.data.published[n].content
  {
    StepKeepsInv(c, s, RunConsumer);
    TakeReads(c, s);
    assert Window(c, Step(c, s, RunConsumer));
  }
}
