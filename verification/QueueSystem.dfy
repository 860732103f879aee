// The invariant of the whole queue and its preservation by every action.
module QueueSystem {
  import opened QueueMachine
  import opened QueueInvariants
  import opened QueueData

  ghost predicate SomeoneOwesSignal(s: State) {
    exists p: nat :: p < |s.producers| && OwesSignal(s.producers[p].pc)
  }

  ghost predicate Threads(c: Config, s: State) {
    && (forall p: nat | p < |s.producers| :: ProducerOk(c, s.sh, ConsumerOwesSignal(s.consumer.pc), p, s.producers[p]))
    && ConsumerOk(c, s.sh, SomeoneOwesSignal(s), s.consumer)
    && (s.sh.locks.spinLock.Some? ==> s.sh.locks.spinLock.value < |s.producers|)
    && (s.sh.locks.waitMutex.ByProducer? ==> s.sh.locks.waitMutex.p < |s.producers|)
    && (forall p: nat | p in s.sh.sleep.producersAsleep :: p < |s.producers|)
  }

  ghost predicate Inv(c: Config, s: State) {
    DataOk(c, s) && Positions(c, s.sh) && Threads(c, s)
  }

  // ---- threads ----

  // The others stand what a producer's step does to them.
  lemma ProducerStepThreads(c: Config, s: State, p: nat, r: (Shared, Producer))
    requires Shape(c, s) && Positions(c, s.sh) && Threads(c, s) && p < |s.producers|
    requires ProducerStepOk(c, s.sh, ConsumerOwesSignal(s.consumer.pc), p, s.producers[p], r)
    ensures Threads(c, Put(s, p, r))
  {
    var t := Put(s, p, r);
    var owed := ConsumerOwesSignal(s.consumer.pc);
    forall q: nat | q < |t.producers| ensures ProducerOk(c, t.sh, owed, q, t.producers[q]) {
      if q != p { OtherProducer(c, s.sh, owed, p, s.producers[p], q, s.producers[q], r); }
    }
    ConsumerStands(c, s, p, r);
    forall q: nat | q in t.sh.sleep.producersAsleep ensures q < |t.producers| {
      assert q == p || q in s.sh.sleep.producersAsleep - {p};
    }
  }

  lemma OtherProducer(c: Config, sh: Shared, owed: bool, p: nat, pr: Producer, q: nat, other: Producer,
          r: (Shared, Producer))
    requires p != q && !c.solo
    requires Positions(c, sh) && ProducerOk(c, sh, owed, p, pr) && ProducerOk(c, sh, owed, q, other)
    requires ProducerStepOk(c, sh, owed, p, pr, r)
    ensures ProducerOk(c, r.0, owed, q, other)
  {
    assert q in r.0.sleep.producersAsleep <==> q in r.0.sleep.producersAsleep - {p};
    assert q in sh.sleep.producersAsleep <==> q in sh.sleep.producersAsleep - {p};
  }

  // Whoever owed a signal and is not the one that stepped still does.
  lemma StillOwed(s: State, p: nat, r: (Shared, Producer))
    requires p < |s.producers|
    ensures OwesSignal(r.1.pc) ==> SomeoneOwesSignal(Put(s, p, r))
    ensures SomeoneOwesSignal(s) && !SomeoneOwesSignal(Put(s, p, r)) ==>
      OwesSignal(s.producers[p].pc) && !OwesSignal(r.1.pc)
  {
    var t := Put(s, p, r);
    assert t.producers[p] == r.1;
    if SomeoneOwesSignal(s) && !OwesSignal(s.producers[p].pc) {
      var q: nat :| q < |s.producers| && OwesSignal(s.producers[q].pc);
      assert t.producers[q] == s.producers[q];
    }
  }

  lemma ConsumerStands(c: Config, s: State, p: nat, r: (Shared, Producer))
    requires Positions(c, s.sh) && Threads(c, s) && p < |s.producers|
    requires ProducerStepOk(c, s.sh, ConsumerOwesSignal(s.consumer.pc), p, s.producers[p], r)
    ensures ConsumerOk(c, r.0, SomeoneOwesSignal(Put(s, p, r)), s.consumer)
  {
    StillOwed(s, p, r);
    assert ProducerOk(c, s.sh, ConsumerOwesSignal(s.consumer.pc), p, s.producers[p]);
  }

  // The producers stand what the consumer's step does to them.
  lemma ConsumerStepThreads(c: Config, s: State, r: (Shared, Consumer))
    requires Shape(c, s) && Positions(c, s.sh) && Threads(c, s)
    requires ConsumerStepOk(c, s.sh, SomeoneOwesSignal(s), s.consumer, r)
    ensures Threads(c, State(r.0, s.producers, r.1))
  {
    forall p: nat | p < |s.producers| ensures ProducerOk(c, r.0, ConsumerOwesSignal(r.1.pc), p, s.producers[p]) {
      ProducerStands(c, s.sh, s.consumer, p, s.producers[p], r);
    }
    assert SomeoneOwesSignal(State(r.0, s.producers, r.1)) <==> SomeoneOwesSignal(s);
  }

  lemma ProducerStands(c: Config, sh: Shared, co: Consumer, p: nat, pr: Producer, r: (Shared, Consumer))
    requires Positions(c, sh) && Positions(c, r.0) && ProducerOk(c, sh, ConsumerOwesSignal(co.pc), p, pr)
    requires ConsumerEffect(c, sh, r.0, co, r.1)
    ensures ProducerOk(c, r.0, ConsumerOwesSignal(r.1.pc), p, pr)
  {
  }

  lemma StepKeepsThreads(c: Config, s: State, a: Action)
    requires Inv(c, s)
    ensures Threads(c, Step(c, s, a)) && Positions(c, Step(c, s, a).sh)
  {
    var owed := ConsumerOwesSignal(s.consumer.pc);
    if NamesProducer(a) {
      if a.p < |s.producers| {
        ActOk(c, s.sh, owed, a.p, s.producers[a.p], a);
        ProducerStepThreads(c, s, a.p, ProducerAct(c, s.sh, a.p, s.producers[a.p], a));
      }
    } else if NamesConsumer(a) {
      ConsumerActOk(c, s.sh, SomeoneOwesSignal(s), s.consumer, a);
      ConsumerStepThreads(c, s, ConsumerAct(c, s.sh, s.consumer, a));
    } else if a.Replace? || a.Pass? {
      MessagesSameThreads(c, s, a);
      OtherMessages(c, s, Step(c, s, a));
    } else {
      StoppedThreads(c, s, a);
    }
  }

  lemma StoppedThreads(c: Config, s: State, a: Action)
    requires Inv(c, s) && a.NotifyStopped?
    ensures Threads(c, Step(c, s, a)) && Positions(c, Step(c, s, a).sh)
  {
    var owed := ConsumerOwesSignal(s.consumer.pc);
    assert SomeoneOwesSignal(Step(c, s, a)) <==> SomeoneOwesSignal(s);
    forall p: nat | p < |s.producers| ensures ProducerOk(c, Step(c, s, a).sh, owed, p, s.producers[p]) {
      assert ProducerOk(c, s.sh, owed, p, s.producers[p]);
    }
  }

  // The threads do not look at the messages of those that are at rest.
  predicate SameThreads(s: State, t: State) {
    && t.sh == s.sh.(data := t.sh.data) && |t.producers| == |s.producers|
    && (forall p: nat | p < |s.producers| ::
          t.producers[p] == s.producers[p].(cargo := s.producers[p].cargo.(message := t.producers[p].cargo.message)))
    && t.consumer == s.consumer.(message := t.consumer.message)
  }

  lemma MessagesSameThreads(c: Config, s: State, a: Action)
    requires Shape(c, s) && (a.Replace? || a.Pass?)
    ensures SameThreads(s, Step(c, s, a))
  {
  }

  lemma OtherMessages(c: Config, s: State, t: State)
    requires Positions(c, s.sh) && Threads(c, s) && SameThreads(s, t)
    ensures Threads(c, t) && Positions(c, t.sh)
  {
    assert SomeoneOwesSignal(t) <==> SomeoneOwesSignal(s) by {
      forall p: nat | p < |s.producers| ensures t.producers[p].pc == s.producers[p].pc {
      }
    }
    forall p: nat | p < |t.producers|
      ensures ProducerOk(c, t.sh, ConsumerOwesSignal(t.consumer.pc), p, t.producers[p])
    {
      assert ProducerOk(c, s.sh, ConsumerOwesSignal(s.consumer.pc), p, s.producers[p]);
    }
    assert ConsumerOk(c, s.sh, SomeoneOwesSignal(s), s.consumer);
  }

  // ---- data ----

  // A step that leaves the data, the positions and the message alone, and places no message.
  predicate Quiet(sh: Shared, r: (Shared, Producer), pr: Producer) {
    && r.0.data == sh.data && r.0.publishPosition == sh.publishPosition && r.0.readPosition == sh.readPosition
    && r.1.cargo == pr.cargo
    && (Unsent(r.1.pc) ==> Unsent(pr.pc))
    && (Placed(r.1.pc) ==> r.1.pc == pr.pc && r.1.position == pr.position)
    && (pr.pc.Idle? ==> r.1.pc.Idle?)
  }

  lemma PublishQuiet(c: Config, sh: Shared, owed: bool, p: nat, pr: Producer)
    requires c.entryCount > 0 && |sh.data.entries| == c.entryCount && ProducerOk(c, sh, owed, p, pr)
    requires pr.pc.Publishing? && pr.pc != Publishing(Fill) && !Placed(pr.pc)
    ensures Quiet(sh, PublishStep(c, sh, p, pr), pr)
  {
    if pr.pc.at.Top? || pr.pc.at.Can? || pr.pc.at.Drop? {
      ClaimQuiet(c, sh, p, pr);
    } else {
      LeaveQuiet(c, sh, p, pr);
    }
  }

  lemma ClaimQuiet(c: Config, sh: Shared, p: nat, pr: Producer)
    requires c.entryCount > 0 && |sh.data.entries| == c.entryCount
    requires pr.pc.Publishing? && (pr.pc.at.Top? || pr.pc.at.Can? || pr.pc.at.Drop?)
    ensures Quiet(sh, PublishStep(c, sh, p, pr), pr)
  {
  }

  lemma LeaveQuiet(c: Config, sh: Shared, p: nat, pr: Producer)
    requires c.entryCount > 0 && |sh.data.entries| == c.entryCount
    requires pr.pc.Publishing? && (pr.pc.at.Notify? || pr.pc.at.Signal? || pr.pc.at.Unlock? || pr.pc.at.Finish?)
    ensures Quiet(sh, PublishStep(c, sh, p, pr), pr)
  {
  }

  lemma ContendQuiet(sh: Shared, p: nat, pr: Producer)
    requires pr.pc.Contending?
    ensures Quiet(sh, ContendStep(sh, p, pr), pr)
  {
  }

  lemma RetryQuiet(c: Config, sh: Shared, owed: bool, p: nat, pr: Producer)
    requires pr.pc.Retrying? && ProducerOk(c, sh, owed, p, pr)
    ensures Quiet(sh, RetryStep(c, sh, pr), pr)
  {
  }

  lemma BlockQuiet(c: Config, sh: Shared, p: nat, pr: Producer)
    requires pr.pc.Blocking?
    ensures Quiet(sh, BlockStep(c, sh, p, pr), pr)
  {
    var r := BlockStep(c, sh, p, pr);
    if pr.pc.on.Woken? {
      assert r.0 == sh && r.1.pc.Blocking?;
    }
  }

  lemma QuietKeepsData(c: Config, s: State, p: nat, r: (Shared, Producer))
    requires Inv(c, s) && p < |s.producers| && Quiet(s.sh, r, s.producers[p])
    ensures DataOk(c, Put(s, p, r)) && SameBlocks(s, Put(s, p, r))
  {
    var t := Put(s, p, r);
    SwapBlocks(s, t, WithConsumer, WithConsumer);
    forall i: nat | i < |t.sh.data.published| ensures CallKnown(t, t.sh.data.published[i]) {
      assert CallKnown(s, s.sh.data.published[i]);
    }
  }

  // Two producers never work on an entry at the same time.
  lemma OneWriter(c: Config, s: State, p: nat, q: nat)
    requires Shape(c, s) && Threads(c, s) && p < |s.producers| && q < |s.producers| && p != q
    requires Writing(s.producers[p].pc)
    ensures !Writing(s.producers[q].pc)
  {
    assert ProducerOk(c, s.sh, ConsumerOwesSignal(s.consumer.pc), p, s.producers[p]);
    assert ProducerOk(c, s.sh, ConsumerOwesSignal(s.consumer.pc), q, s.producers[q]);
  }

  // The entry a producer works on is none of those in the queue.
  lemma WriterApart(c: Config, s: State, p: nat, k: nat)
    requires Inv(c, s) && p < |s.producers| && Writing(s.producers[p].pc)
    requires s.sh.readPosition <= k < s.sh.publishPosition
    ensures s.producers[p].position == s.sh.publishPosition
    ensures k % c.entryCount != s.producers[p].position % c.entryCount
  {
    assert ProducerOk(c, s.sh, ConsumerOwesSignal(s.consumer.pc), p, s.producers[p]);
    CellsDiffer(c, k, s.sh.publishPosition);
  }

  lemma FillKeepsData(c: Config, s: State, p: nat)
    requires Inv(c, s) && p < |s.producers| && s.producers[p].pc == Publishing(Fill)
    ensures var t := Put(s, p, PublishStep(c, s.sh, p, s.producers[p])); DataOk(c, t) && SameBlocks(s, t)
  {
    var pr := s.producers[p];
    var t := Put(s, p, PublishStep(c, s.sh, p, pr));
    var index := pr.position % c.entryCount;
    assert s.sh.data.entries[index].status != SKIP;
    SwapBlocks(s, t, InEntry(index), WithProducer(p));
    forall k: nat | s.sh.readPosition <= k < s.sh.publishPosition
      ensures EntryAt(c, t.sh.data, k) == EntryAt(c, s.sh.data, k)
    {
      WriterApart(c, s, p, k);
    }
    FillKeepsCargo(c, s, p);
    forall i: nat | i < |t.sh.data.published| ensures CallKnown(t, t.sh.data.published[i]) {
      assert CallKnown(s, s.sh.data.published[i]);
    }
  }

  lemma FillKeepsCargo(c: Config, s: State, p: nat)
    requires Inv(c, s) && p < |s.producers| && s.producers[p].pc == Publishing(Fill)
    ensures var t := Put(s, p, PublishStep(c, s.sh, p, s.producers[p]));
      Shape(c, t) && forall q: nat | q < |t.producers| :: CargoOf(c, t.sh.data, q, t.producers[q])
  {
    var t := Put(s, p, PublishStep(c, s.sh, p, s.producers[p]));
    assert s.sh.data.entries[s.producers[p].position % c.entryCount].status != SKIP;
    forall q: nat | q < |t.producers| ensures CargoOf(c, t.sh.data, q, t.producers[q]) {
      assert CargoOf(c, s.sh.data, q, s.producers[q]);
      if q != p { OneWriter(c, s, p, q); }
    }
  }

  // What Mark leaves: the entry at the publish position ready to be read.
  function Marked(c: Config, s: State, p: nat): State
    requires Shape(c, s) && p < |s.producers|
  {
    var pr := s.producers[p];
    Put(s, p, (s.sh.(data := MarkEntry(s.sh.data, pr.position % c.entryCount)), pr.(published := true).Go(Store)))
  }

  lemma MarkIs(c: Config, s: State, p: nat)
    requires Shape(c, s) && p < |s.producers| && s.producers[p].pc == Publishing(Mark)
    ensures Put(s, p, PublishStep(c, s.sh, p, s.producers[p])) == Marked(c, s, p)
  {
  }

  lemma MarkKeepsData(c: Config, s: State, p: nat)
    requires Inv(c, s) && p < |s.producers| && s.producers[p].pc == Publishing(Mark)
    ensures DataOk(c, Marked(c, s, p)) && SameBlocks(s, Marked(c, s, p))
  {
    var t := Marked(c, s, p);
    SwapBlocks(s, t, WithConsumer, WithConsumer);
    forall k: nat | s.sh.readPosition <= k < s.sh.publishPosition
      ensures EntryAt(c, t.sh.data, k) == EntryAt(c, s.sh.data, k)
    {
      WriterApart(c, s, p, k);
    }
    forall q: nat | q < |t.producers| ensures CargoOf(c, t.sh.data, q, t.producers[q]) {
      assert CargoOf(c, s.sh.data, q, s.producers[q]);
      if q != p { OneWriter(c, s, p, q); }
    }
    forall i: nat | i < |t.sh.data.published| ensures CallKnown(t, t.sh.data.published[i]) {
      assert CallKnown(s, s.sh.data.published[i]);
    }
  }

  // What Store leaves: the publish position one further and the item at the end of the history.
  function Stored(s: State, p: nat): State
    requires p < |s.producers|
  {
    var pr := s.producers[p];
    Put(s, p, (s.sh.(publishPosition := pr.position + 1, data := Record(s.sh.data, pr.cargo.item)), pr.Go(Notify)))
  }

  lemma StoreWindow(c: Config, s: State, p: nat)
    requires Inv(c, s) && p < |s.producers| && s.producers[p].pc == Publishing(Store)
    ensures Window(c, Stored(s, p))
  {
    var d, e := s.sh.data, Stored(s, p).sh.data;
    var pr := s.producers[p];
    assert ProducerOk(c, s.sh, ConsumerOwesSignal(s.consumer.pc), p, pr);
    assert CargoOf(c, d, p, pr);
    forall k: nat | Taken(s) <= k < pr.position + 1
      ensures ContentOf(e, EntryAt(c, e, k).message) == e.published[k - c.entryCount].content
    {
      assert EntryAt(c, e, k) == EntryAt(c, d, k);
    }
    forall k: nat | s.sh.readPosition <= k < pr.position + 1 ensures EntryAt(c, e, k).status == OK {
      assert EntryAt(c, e, k) == EntryAt(c, d, k);
    }
  }

  lemma StoreOrder(c: Config, s: State, p: nat)
    requires Inv(c, s) && p < |s.producers| && s.producers[p].pc == Publishing(Store)
    ensures CallsInOrder(Stored(s, p))
  {
    var t := Stored(s, p);
    var before, after := s.sh.data.published, t.sh.data.published;
    assert CargoOf(c, s.sh.data, p, s.producers[p]);
    forall i: nat | i < |after| ensures CallKnown(t, after[i]) {
      if i < |before| { assert CallKnown(s, before[i]); }
    }
    forall i: nat, j: nat | i < j < |after| && after[i].producer == after[j].producer
      ensures after[i].call < after[j].call
    {
      assert CallKnown(s, before[i]);
    }
  }

  lemma StoreIs(c: Config, s: State, p: nat)
    requires Inv(c, s) && p < |s.producers| && s.producers[p].pc == Publishing(Store)
    ensures Put(s, p, PublishStep(c, s.sh, p, s.producers[p])) == Stored(s, p)
  {
    assert ProducerOk(c, s.sh, ConsumerOwesSignal(s.consumer.pc), p, s.producers[p]);
  }

  lemma StoreKeepsData(c: Config, s: State, p: nat)
    requires Inv(c, s) && p < |s.producers| && s.producers[p].pc == Publishing(Store)
    ensures DataOk(c, Stored(s, p)) && SameBlocks(s, Stored(s, p))
  {
    var t := Stored(s, p);
    SwapBlocks(s, t, WithConsumer, WithConsumer);
    StoreWindow(c, s, p);
    StoreOrder(c, s, p);
    forall q: nat | q < |t.producers| ensures CargoOf(c, t.sh.data, q, t.producers[q]) {
      assert CargoOf(c, s.sh.data, q, s.producers[q]);
    }
  }

  // Memory that says the same wherever an entry looks leaves the window as it is.
  lemma MemoryKeepsWindow(c: Config, s: State, t: State)
    requires Shape(c, s) && Shape(c, t) && Window(c, s)
    requires t.sh.readPosition == s.sh.readPosition && t.sh.publishPosition == s.sh.publishPosition
      && Taken(t) == Taken(s)
    requires t.sh.data == s.sh.data.(memory := t.sh.data.memory)
    requires forall k: nat :: t.sh.data.memory[EntryAt(c, s.sh.data, k).message.block]
                           == s.sh.data.memory[EntryAt(c, s.sh.data, k).message.block]
    requires c.entryCount <= s.sh.readPosition <= Taken(s)
    ensures Window(c, t)
  {
    var d, e := s.sh.data, t.sh.data;
    forall k: nat | Taken(s) <= k < s.sh.publishPosition
      ensures ContentOf(e, EntryAt(c, e, k).message) == e.published[k - c.entryCount].content
    {
      assert EntryAt(c, e, k) == EntryAt(c, d, k);
      assert ContentOf(d, EntryAt(c, d, k).message) == d.published[k - c.entryCount].content;
    }
    forall k: nat | s.sh.readPosition <= k < s.sh.publishPosition ensures EntryAt(c, e, k).status == OK {
      assert EntryAt(c, e, k) == EntryAt(c, d, k);
    }
  }

  // A producer under way whose block and entry say the same still carries what it was called with.
  lemma MemoryKeepsCargo(c: Config, d: Data, e: Data, p: nat, pr: Producer)
    requires DataShape(c, d) && DataShape(c, e) && pr.cargo.message.block < |d.memory|
    requires e == d.(memory := e.memory) && |e.memory| == |d.memory| && CargoOf(c, d, p, pr)
    requires Unsent(pr.pc) ==> e.memory[pr.cargo.message.block] == d.memory[pr.cargo.message.block]
    requires forall k: nat :: e.memory[EntryAt(c, d, k).message.block] == d.memory[EntryAt(c, d, k).message.block]
    ensures CargoOf(c, e, p, pr)
  {
    assert EntryAt(c, e, pr.position) == EntryAt(c, d, pr.position);
  }

  // Only messages of callers at rest have changed, and only blocks that no other message is on.
  ghost predicate Reassigned(c: Config, s: State, t: State) {
    && Shape(c, s) && Shape(c, t) && SameThreads(s, t)
    && t.sh.data == s.sh.data.(memory := t.sh.data.memory) && |t.sh.data.memory| == |s.sh.data.memory|
    && (forall i: nat | i < |s.sh.data.entries| ::
          t.sh.data.memory[s.sh.data.entries[i].message.block] == s.sh.data.memory[s.sh.data.entries[i].message.block])
    && (forall p: nat | p < |s.producers| && !s.producers[p].pc.Idle? ::
          && t.producers[p] == s.producers[p]
          && t.sh.data.memory[s.producers[p].cargo.message.block] ==
            s.sh.data.memory[s.producers[p].cargo.message.block])
  }

  lemma ReassignedKeepsData(c: Config, s: State, t: State)
    requires Inv(c, s) && Reassigned(c, s, t) && OwnBlocks(t)
    ensures DataOk(c, t)
  {
    MemoryKeepsWindow(c, s, t);
    forall q: nat | q < |t.producers| ensures CargoOf(c, t.sh.data, q, t.producers[q]) {
      assert CargoOf(c, s.sh.data, q, s.producers[q]);
      if !s.producers[q].pc.Idle? { MemoryKeepsCargo(c, s.sh.data, t.sh.data, q, s.producers[q]); }
    }
    CallsStand(s, t);
  }

  // A caller at rest writes its own block, and nobody else's.
  lemma WrittenInPlace(c: Config, s: State, t: State, x: Place)
    requires Inv(c, s) && IsPlace(s, x) && !x.InEntry? && SameThreads(s, t)
    requires x.WithProducer? ==> s.producers[x.p].pc.Idle?
    requires forall z: Place | IsPlace(s, z) :: IsPlace(t, z) && BlockAt(t, z) == BlockAt(s, z)
    requires forall q: nat | q < |s.producers| && x != WithProducer(q) :: t.producers[q] == s.producers[q]
    requires t.sh.data == s.sh.data.(memory := t.sh.data.memory) && |t.sh.data.memory| == |s.sh.data.memory|
    requires forall b: nat | b < |s.sh.data.memory| && b != BlockAt(s, x) :: t.sh.data.memory[b] == s.sh.data.memory[b]
    ensures DataOk(c, t) && SameBlocks(s, t)
  {
    SwapBlocks(s, t, WithConsumer, WithConsumer);
    MemoryApart(c, s, t.sh.data.memory, x);
    forall i: nat | i < |s.sh.data.entries|
      ensures t.sh.data.memory[s.sh.data.entries[i].message.block] ==
        s.sh.data.memory[s.sh.data.entries[i].message.block]
    {
      assert IsPlace(s, InEntry(i)) && BlockAt(s, InEntry(i)) != BlockAt(s, x);
    }
    ReassignedKeepsData(c, s, t);
  }

  function PlaceOf(who: Holder): Place {
    match who
    case OfProducer(p) => WithProducer(p)
    case OfConsumer => WithConsumer
  }

  // A caller takes up a message on a block that no other message of the queue is on, whatever that block says.
  lemma ReplacedKeepsData(c: Config, s: State, who: Holder, message: Handle, bytes: seq<Byte>)
    requires Inv(c, s) && AtRest(s, who) && Vacant(s, who, message.block)
    ensures DataOk(c, Replaced(s, who, message, bytes))
    ensures SameThreads(s, Replaced(s, who, message, bytes))
  {
    var t := Replaced(s, who, message, bytes);
    forall z: Place | IsPlace(s, z)
      ensures IsPlace(t, z) && BlockAt(t, z) == if z == PlaceOf(who) then message.block else BlockAt(s, z)
      ensures z != PlaceOf(who) ==> BlockAt(s, z) != message.block
    {
    }
    assert OwnBlocks(t);
    ReassignedKeepsData(c, s, t);
  }

  // Two callers at rest swap blocks.
  lemma PassedKeepsData(c: Config, s: State, from: Holder, to: Holder)
    requires Inv(c, s) && AtRest(s, from) && AtRest(s, to) && from != to
    ensures DataOk(c, Passed(s, from, to)) && SameBlocks(s, Passed(s, from, to)) && SameThreads(s, Passed(s, from, to))
  {
    SwapBlocks(s, Passed(s, from, to), PlaceOf(from), PlaceOf(to));
    ReassignedKeepsData(c, s, Passed(s, from, to));
  }

  // The history and the calls made so far are as they were.
  lemma CallsStand(s: State, t: State)
    requires CallsInOrder(s) && t.sh.data.published == s.sh.data.published && |t.producers| == |s.producers|
    requires forall q: nat | q < |s.producers| ::
      t.producers[q].cargo.calls == s.producers[q].cargo.calls && t.producers[q].pc == s.producers[q].pc
    ensures CallsInOrder(t)
  {
    forall i: nat | i < |t.sh.data.published| ensures CallKnown(t, t.sh.data.published[i]) {
      assert CallKnown(s, s.sh.data.published[i]);
    }
  }

  // An idle producer writes its own block, and nobody else's.
  lemma WriteKeepsData(c: Config, s: State, a: Action)
    requires Inv(c, s) && a.Write? && a.p < |s.producers| && s.producers[a.p].pc.Idle?
    ensures DataOk(c, Step(c, s, a)) && SameBlocks(s, Step(c, s, a))
  {
    WrittenInPlace(c, s, Step(c, s, a), WithProducer(a.p));
  }

  // Writing the block of one place leaves what is at every other place.
  lemma MemoryApart(c: Config, s: State, memory: seq<seq<Byte>>, x: Place)
    requires Shape(c, s) && OwnBlocks(s) && IsPlace(s, x) && |memory| == |s.sh.data.memory|
    requires forall b: nat | b < |memory| && b != BlockAt(s, x) :: memory[b] == s.sh.data.memory[b]
    ensures forall k: nat :: !x.InEntry? ==>
      memory[EntryAt(c, s.sh.data, k).message.block] == s.sh.data.memory[EntryAt(c, s.sh.data, k).message.block]
    ensures forall q: nat | q < |s.producers| && x != WithProducer(q) ::
      memory[s.producers[q].cargo.message.block] == s.sh.data.memory[s.producers[q].cargo.message.block]
    ensures x != WithConsumer ==> memory[s.consumer.message.block] == s.sh.data.memory[s.consumer.message.block]
  {
    forall k: nat | !x.InEntry?
      ensures memory[EntryAt(c, s.sh.data, k).message.block] == s.sh.data.memory[EntryAt(c, s.sh.data, k).message.block]
    {
      assert IsPlace(s, InEntry(k % c.entryCount));
      assert BlockAt(s, InEntry(k % c.entryCount)) == EntryAt(c, s.sh.data, k).message.block;
    }
    forall q: nat | q < |s.producers| && x != WithProducer(q)
      ensures memory[s.producers[q].cargo.message.block] == s.sh.data.memory[s.producers[q].cargo.message.block]
    {
      assert IsPlace(s, WithProducer(q)) && BlockAt(s, WithProducer(q)) == s.producers[q].cargo.message.block;
    }
    assert IsPlace(s, WithConsumer) && BlockAt(s, WithConsumer) == s.consumer.message.block;
  }

  lemma CallKeepsData(c: Config, s: State, a: Action)
    requires Inv(c, s) && a.Call? && a.p < |s.producers| && s.producers[a.p].pc.Idle?
    ensures DataOk(c, Step(c, s, a)) && SameBlocks(s, Step(c, s, a))
  {
    var t := Step(c, s, a);
    SwapBlocks(s, t, WithConsumer, WithConsumer);
    forall q: nat | q < |t.producers| ensures CargoOf(c, t.sh.data, q, t.producers[q]) {
      assert CargoOf(c, s.sh.data, q, s.producers[q]);
    }
    forall i: nat | i < |t.sh.data.published| ensures CallKnown(t, t.sh.data.published[i]) {
      assert CallKnown(s, s.sh.data.published[i]);
    }
  }

  lemma RunKeepsData(c: Config, s: State, p: nat)
    requires Inv(c, s) && p < |s.producers|
    ensures var t := Put(s, p, ProducerStep(c, s.sh, p, s.producers[p])); DataOk(c, t) && SameBlocks(s, t)
  {
    var pr := s.producers[p];
    var owed := ConsumerOwesSignal(s.consumer.pc);
    assert ProducerOk(c, s.sh, owed, p, pr);
    match pr.pc
    case Idle => QuietKeepsData(c, s, p, (s.sh, pr));
    case Publishing(at) =>
      if at.Fill? {
        FillKeepsData(c, s, p);
      } else if at.Mark? {
        MarkIs(c, s, p);
        MarkKeepsData(c, s, p);
      } else if at.Store? {
        StoreIs(c, s, p);
        StoreKeepsData(c, s, p);
      } else {
        PublishQuiet(c, s.sh, owed, p, pr);
        QuietKeepsData(c, s, p, PublishStep(c, s.sh, p, pr));
      }
    case Contending(_) =>
      ContendQuiet(s.sh, p, pr);
      QuietKeepsData(c, s, p, ContendStep(s.sh, p, pr));
    case Retrying(_) =>
      RetryQuiet(c, s.sh, owed, p, pr);
      QuietKeepsData(c, s, p, RetryStep(c, s.sh, pr));
    case Blocking(_) =>
      BlockQuiet(c, s.sh, p, pr);
      QuietKeepsData(c, s, p, BlockStep(c, s.sh, p, pr));
  }

  // ---- the consumer's data ----

  lemma TakeKeepsData(c: Config, s: State)
    requires Inv(c, s) && s.consumer.pc.Trying? && s.consumer.pc.at.Take?
    ensures var (sh, co) := TryStep(c, s.sh, s.consumer);
            DataOk(c, State(sh, s.producers, co)) && SameBlocks(s, State(sh, s.producers, co))
    ensures TryStep(c, s.sh, s.consumer).1.pc.at == Bump(true)
  {
    var (sh, co) := TryStep(c, s.sh, s.consumer);
    var t := State(sh, s.producers, co);
    var index := s.sh.readPosition % c.entryCount;
    var d, e := s.sh.data, sh.data;
    assert EntryAt(c, d, s.sh.readPosition).status == OK;
    SwapBlocks(s, t, InEntry(index), WithConsumer);
    forall k: nat | s.sh.readPosition < k <= s.sh.publishPosition && k < s.sh.readPosition + c.entryCount
      ensures EntryAt(c, e, k) == EntryAt(c, d, k)
    {
      CellsDiffer(c, s.sh.readPosition, k);
    }
    forall q: nat | q < |t.producers| ensures CargoOf(c, e, q, t.producers[q]) {
      assert CargoOf(c, d, q, s.producers[q]);
      assert ProducerOk(c, s.sh, ConsumerOwesSignal(s.consumer.pc), q, s.producers[q]);
    }
    TakeWindow(c, s, t);
    forall i: nat | i < |e.published| ensures CallKnown(t, e.published[i]) {
      assert CallKnown(s, d.published[i]);
    }
  }

  lemma TakeWindow(c: Config, s: State, t: State)
    requires Inv(c, s) && s.consumer.pc.Trying? && s.consumer.pc.at.Take? && Shape(c, t)
    requires t.sh.readPosition == s.sh.readPosition < s.sh.publishPosition == t.sh.publishPosition
    requires t.consumer.pc.Trying? && t.consumer.pc.at == Bump(true)
    requires t.sh.data.published == s.sh.data.published && t.sh.data.memory == s.sh.data.memory
    requires t.sh.data.consumed ==
      s.sh.data.consumed + [ContentOf(s.sh.data, EntryAt(c, s.sh.data, s.sh.readPosition).message)]
    requires EntryAt(c, t.sh.data, s.sh.readPosition).status == OK
    requires forall k: nat | s.sh.readPosition < k < s.sh.publishPosition ::
      EntryAt(c, t.sh.data, k) == EntryAt(c, s.sh.data, k)
    ensures Window(c, t)
  {
  }

  lemma BumpKeepsData(c: Config, s: State)
    requires Inv(c, s) && s.consumer.pc.Trying? && s.consumer.pc.at.Bump?
    ensures var (sh, co) := TryStep(c, s.sh, s.consumer);
            DataOk(c, State(sh, s.producers, co)) && SameBlocks(s, State(sh, s.producers, co))
  {
    var (sh, co) := TryStep(c, s.sh, s.consumer);
    var t := State(sh, s.producers, co);
    assert s.consumer.pc.at == Bump(true);
    SwapBlocks(s, t, WithConsumer, WithConsumer);
    assert Taken(t) == Taken(s);
    forall i: nat | i < |t.sh.data.published| ensures CallKnown(t, t.sh.data.published[i]) {
      assert CallKnown(s, s.sh.data.published[i]);
    }
  }

  // A step of the consumer that moves neither message nor position.
  ghost predicate ConsumerQuiet(s: State, r: (Shared, Consumer)) {
    && r.0.data == s.sh.data && r.0.publishPosition == s.sh.publishPosition && r.0.readPosition == s.sh.readPosition
    && r.1.message == s.consumer.message && NeverSkips(r.1.pc)
    && !(r.1.pc.Trying? && r.1.pc.at.Bump?) && !(s.consumer.pc.Trying? && s.consumer.pc.at.Bump?)
  }

  lemma ConsumerQuietKeepsData(c: Config, s: State, r: (Shared, Consumer))
    requires Inv(c, s) && ConsumerQuiet(s, r)
    ensures DataOk(c, State(r.0, s.producers, r.1)) && SameBlocks(s, State(r.0, s.producers, r.1))
  {
    var t := State(r.0, s.producers, r.1);
    SwapBlocks(s, t, WithConsumer, WithConsumer);
    assert Taken(t) == Taken(s);
    forall i: nat | i < |t.sh.data.published| ensures CallKnown(t, t.sh.data.published[i]) {
      assert CallKnown(s, s.sh.data.published[i]);
    }
  }

  lemma TryQuiet(c: Config, s: State)
    requires Inv(c, s) && s.consumer.pc.Trying? && !s.consumer.pc.at.Take? && !s.consumer.pc.at.Bump?
    ensures ConsumerQuiet(s, TryStep(c, s.sh, s.consumer))
  {
  }

  lemma GetQuiet(c: Config, s: State)
    requires s.consumer.pc.Getting?
    ensures ConsumerQuiet(s, GetStep(c, s.sh, s.consumer))
  {
  }

  lemma ScribbleKeepsData(c: Config, s: State, a: Action)
    requires Inv(c, s) && a.Scribble? && s.consumer.pc.Resting?
    ensures DataOk(c, Step(c, s, a)) && SameBlocks(s, Step(c, s, a))
  {
    WrittenInPlace(c, s, Step(c, s, a), WithConsumer);
  }

  lemma ConsumerKeepsData(c: Config, s: State, a: Action)
    requires Inv(c, s) && NamesConsumer(a)
    ensures DataOk(c, Step(c, s, a)) && SameBlocks(s, Step(c, s, a))
  {
    if a.RunConsumer? && s.consumer.pc.Trying? {
      if s.consumer.pc.at.Take? {
        TakeKeepsData(c, s);
      } else if s.consumer.pc.at.Bump? {
        BumpKeepsData(c, s);
      } else {
        TryQuiet(c, s);
        ConsumerQuietKeepsData(c, s, TryStep(c, s.sh, s.consumer));
      }
    } else if a.RunConsumer? && s.consumer.pc.Getting? {
      GetQuiet(c, s);
      ConsumerQuietKeepsData(c, s, GetStep(c, s.sh, s.consumer));
    } else if a.Scribble? && s.consumer.pc.Resting? {
      ScribbleKeepsData(c, s, a);
    } else {
      CalledKeepsData(c, s, a);
    }
  }

  // The remaining actions on the consumer: calls, waking, stopping.
  lemma CalledKeepsData(c: Config, s: State, a: Action)
    requires Inv(c, s) && NamesConsumer(a)
    requires a.RunConsumer? ==> s.consumer.pc.Resting?
    requires a.Scribble? ==> !s.consumer.pc.Resting?
    ensures DataOk(c, Step(c, s, a)) && SameBlocks(s, Step(c, s, a))
  {
    var t := Step(c, s, a);
    assert t.sh.data == s.sh.data && t.consumer.message == s.consumer.message;
    SwapBlocks(s, t, WithConsumer, WithConsumer);
    assert Taken(t) == Taken(s);
    forall i: nat | i < |t.sh.data.published| ensures CallKnown(t, t.sh.data.published[i]) {
      assert CallKnown(s, s.sh.data.published[i]);
    }
  }

  // ---- every action ----

  lemma StepKeepsInv(c: Config, s: State, a: Action)
    requires Inv(c, s)
    ensures Inv(c, Step(c, s, a))
    ensures !a.Replace? ==> SameBlocks(s, Step(c, s, a))
  {
    StepKeepsThreads(c, s, a);
    SwapBlocks(s, s, WithConsumer, WithConsumer);
    if NamesProducer(a) {
      if a.p < |s.producers| {
        ProducerKeepsData(c, s, a);
      }
    } else if a.Replace? {
      if AtRest(s, a.who) && Vacant(s, a.who, a.message.block) { ReplacedKeepsData(c, s, a.who, a.message, a.bytes); }
    } else if a.Pass? {
      if AtRest(s, a.from) && AtRest(s, a.to) && a.from != a.to { PassedKeepsData(c, s, a.from, a.to); }
    } else if a.NotifyStopped? {
      var t := Step(c, s, a);
      SwapBlocks(s, t, WithConsumer, WithConsumer);
      assert Taken(t) == Taken(s);
      forall i: nat | i < |t.sh.data.published| ensures CallKnown(t, t.sh.data.published[i]) {
        assert CallKnown(s, s.sh.data.published[i]);
      }
    } else {
      ConsumerKeepsData(c, s, a);
    }
  }

  lemma ProducerKeepsData(c: Config, s: State, a: Action)
    requires Inv(c, s) && NamesProducer(a) && a.p < |s.producers|
    ensures DataOk(c, Step(c, s, a)) && SameBlocks(s, Step(c, s, a))
  {
    var pr := s.producers[a.p];
    if a.Run? {
      RunKeepsData(c, s, a.p);
    } else if a.Write? && pr.pc.Idle? {
      WriteKeepsData(c, s, a);
    } else if a.Call? && pr.pc.Idle? {
      CallKeepsData(c, s, a);
    } else {
      QuietKeepsData(c, s, a.p, ProducerAct(c, s.sh, a.p, pr, a));
    }
  }
}
