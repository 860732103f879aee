// The messages in the ring: whose block is where, and what the blocks say.
module QueueData {
  import opened QueueMachine
  import opened QueueInvariants
  import opened Residues

  // ---- blocks ----

  datatype Place = InEntry(i: nat) | WithProducer(p: nat) | WithConsumer

  predicate IsPlace(s: State, x: Place) {
    match x
    case InEntry(i) => i < |s.sh.data.entries|
    case WithProducer(p) => p < |s.producers|
    case WithConsumer => true
  }

  function BlockAt(s: State, x: Place): nat
    requires IsPlace(s, x)
  {
    match x
    case InEntry(i) => s.sh.data.entries[i].message.block
    case WithProducer(p) => s.producers[p].cargo.message.block
    case WithConsumer => s.consumer.message.block
  }

  // No two messages are handles on the same block.
  ghost predicate OwnBlocks(s: State) {
    forall x: Place, y: Place | IsPlace(s, x) && IsPlace(s, y) && BlockAt(s, x) == BlockAt(s, y) :: x == y
  }

  ghost predicate Holds(s: State, b: nat) {
    exists x: Place :: IsPlace(s, x) && BlockAt(s, x) == b
  }

  // r holds the blocks that s holds, each once.
  ghost predicate SameBlocks(s: State, r: State) {
    OwnBlocks(r) && forall b: nat :: Holds(r, b) <==> Holds(s, b)
  }

  // Two places swap blocks and the rest stay (x == y when nothing moves).
  lemma SwapBlocks(s: State, r: State, x: Place, y: Place)
    requires OwnBlocks(s) && IsPlace(s, x) && IsPlace(s, y)
    requires forall z: Place :: IsPlace(r, z) <==> IsPlace(s, z)
    requires BlockAt(r, x) == BlockAt(s, y) && BlockAt(r, y) == BlockAt(s, x)
    requires forall z: Place | IsPlace(s, z) && z != x && z != y :: BlockAt(r, z) == BlockAt(s, z)
    ensures SameBlocks(s, r)
  {
    forall b: nat ensures Holds(r, b) <==> Holds(s, b) {
      if Holds(s, b) {
        var z :| IsPlace(s, z) && BlockAt(s, z) == b;
        assert BlockAt(r, if z == x then y else if z == y then x else z) == b;
      }
      if Holds(r, b) {
        var z :| IsPlace(r, z) && BlockAt(r, z) == b;
        assert BlockAt(s, if z == x then y else if z == y then x else z) == b;
      }
    }
  }

  // ---- contents ----

  function EntryAt(c: Config, d: Data, k: nat): Entry
    requires c.entryCount > 0 && |d.entries| == c.entryCount
  {
    d.entries[k % c.entryCount]
  }

  // The message handed to publish has not been moved into an entry yet.
  predicate Unsent(pc: PPc) {
    match pc
    case Idle => false
    case Publishing(at) => at.Top? || at.Can? || at.Fill? || at.Drop?
    case _ => true
  }

  // The message is in the entry at the producer's position, which is not published yet.
  predicate Placed(pc: PPc) {
    pc == Publishing(Mark) || pc == Publishing(Store)
  }

  // What the producer is to publish is what publish was called with.
  predicate CargoOf(c: Config, d: Data, p: nat, pr: Producer)
    requires DataShape(c, d) && pr.cargo.message.block < |d.memory|
  {
    && (!pr.pc.Idle? ==> pr.cargo.item.producer == p && pr.cargo.item.call == pr.cargo.calls)
    && (Unsent(pr.pc) ==> ContentOf(d, pr.cargo.message) == pr.cargo.item.content)
    && (Placed(pr.pc) ==> ContentOf(d, EntryAt(c, d, pr.position).message) == pr.cargo.item.content)
    && (pr.pc == Publishing(Store) ==> EntryAt(c, d, pr.position).status == OK)
  }

  // Messages handed over so far: the entry being consumed counts as soon as its message has been moved out.
  function Taken(s: State): nat {
    if s.consumer.pc.Trying? && s.consumer.pc.at == Bump(true) then s.sh.readPosition + 1 else s.sh.readPosition
  }

  // No entry is stepped over.
  predicate NeverSkips(pc: CPc) {
    match pc
    case Trying(_, at) =>
      (match at
       case Bump(got) => got
       case NotifyLock(got) => got
       case NotifySignal(got) => got
       case NotifyUnlock(got) => got
       case _ => true)
    case _ => true
  }

  // The entries from the read position up to the publish position are filled, and say what was published.
  ghost predicate Window(c: Config, s: State)
    requires Shape(c, s)
  {
    var d := s.sh.data;
    && |d.published| == s.sh.publishPosition - c.entryCount
    && |d.consumed| == Taken(s) - c.entryCount
    && (forall i: nat | i < |d.consumed| && i < |d.published| :: d.consumed[i] == d.published[i].content)
    && (forall k: nat | s.sh.readPosition <= k < s.sh.publishPosition :: EntryAt(c, d, k).status == OK)
    && (forall k: nat | Taken(s) <= k < s.sh.publishPosition ::
          ContentOf(d, EntryAt(c, d, k).message) == d.published[k - c.entryCount].content)
  }

  // The calls of one producer are published in the order they were made, each at most once.
  ghost predicate CallsInOrder(s: State) {
    && (forall i: nat, j: nat | i < j < |s.sh.data.published|
      && s.sh.data.published[i].producer == s.sh.data.published[j].producer ::
          s.sh.data.published[i].call < s.sh.data.published[j].call)
    && (forall i: nat | i < |s.sh.data.published| :: CallKnown(s, s.sh.data.published[i]))
  }

  // The item belongs to a call made, and to a finished one while the producer has not stored its present one.
  predicate CallKnown(s: State, item: Item) {
    && item.producer < |s.producers|
    && item.call <= s.producers[item.producer].cargo.calls
    && (Unsent(s.producers[item.producer].pc) || Placed(s.producers[item.producer].pc) ==>
          item.call < s.producers[item.producer].cargo.calls)
  }

  ghost predicate DataOk(c: Config, s: State) {
    && Shape(c, s) && NoSkips(s.sh) && OwnBlocks(s) && NeverSkips(s.consumer.pc)
    && Window(c, s) && CallsInOrder(s)
    && forall p: nat | p < |s.producers| :: CargoOf(c, s.sh.data, p, s.producers[p])
  }

  // ---- cells ----

  // Positions less than entryCount apart use different entries.
  lemma CellsDiffer(c: Config, j: nat, k: nat)
    requires c.entryCount > 0 && j < k < j + c.entryCount
    ensures j % c.entryCount != k % c.entryCount
  {
    if j % c.entryCount == k % c.entryCount {
      SameCell(j, k, c.entryCount);
    }
  }
}
