// The queue at work on the blocks of a pool, while its callers and others allocate, move, write and release messages.
module QueueCustody {
  import opened Words
  import opened Residues
  import opened BlockPoolSpec
  import opened QueueOnPool
  import C = Custody
  import Q = QueueMachine
  import QueueInvariants
  import QueueData
  import QueueSystem
  import QueueRuns

  // ---- the messages of a queue ----

  function Size(s: Q.State): nat {
    |s.sh.data.entries| + |s.producers| + 1
  }

  // Those of the entries come first, then the producers' and the consumer's.
  function HandleAt(s: Q.State, i: nat): Q.Handle {
    var n := |s.sh.data.entries|;
    if i < n then s.sh.data.entries[i].message
    else if i < n + |s.producers| then s.producers[i - n].cargo.message
    else s.consumer.message
  }

  // The i-th message of the queue is the i-th of the pool. If that is on a block of the pool, the queue has it there,
  // and the block says the same; if not, the queue has it on a block of its own beyond the pool's.
  ghost predicate ShownAt(s: Q.State, t: C.System, i: nat)
    requires t.pool.blockSize > 0
  {
    i < |t.handles|
    && var h, m := HandleAt(s, i), t.handles[i];
       && h.used == m.used && h.read == m.read && h.meta == m.meta && h.block < |s.sh.data.memory|
       && if C.Attached(t, i) then
            && h.block == NumberOf(t.pool, m.offset) && h.block < t.pool.blockCount
            && s.sh.data.memory[h.block] == BlockBytes(t.pool, h.block)
          else t.pool.blockCount <= h.block
  }

  ghost predicate Shows(s: Q.State, t: C.System) {
    && t.pool.blockSize > 0 && |s.sh.data.memory| == t.pool.blockCount + Size(s)
    && forall i: nat | i < Size(s) :: ShownAt(s, t, i)
  }

  // ---- what a thread does to the pool ----

  // A step of a thread, as against what is done with messages between calls.
  predicate OfThread(a: Q.Action) {
    !a.Write? && !a.Scribble? && !a.Replace? && !a.Pass?
  }

  // What it does to the messages of the queue: at most one move.
  datatype Change = Nothing | Moves(h: nat, k: nat)

  function ChangeOf(c: Q.Config, s: Q.State, a: Q.Action): Change
    requires Q.Shape(c, s)
  {
    var n := c.entryCount;
    match a
    case Run(p) =>
      if p < |s.producers| && s.producers[p].pc == Q.Publishing(Q.Fill) then Moves(n + p, s.producers[p].position % n)
      else Nothing
    case RunConsumer =>
      if s.consumer.pc.Trying? && s.consumer.pc.at.Take? then Moves(s.sh.readPosition % n, n + |s.producers|)
      else Nothing
    case _ => Nothing
  }

  // The operations on the pool's messages that this amounts to.
  function Deeds(change: Change): seq<C.Action> {
    match change
    case Nothing => []
    case Moves(h, k) => [C.Move(h, k)]
  }

  // The change has been made, and nothing else.
  predicate Made(s: Q.State, r: Q.State, change: Change) {
    match change
    case Nothing => SameMessages(s, r)
    case Moves(h, k) => MovedMessages(s, r, h, k)
  }

  // ---- steps that move nothing ----

  // No message and no block changes.
  predicate SameMessages(s: Q.State, r: Q.State) {
    && |r.sh.data.entries| == |s.sh.data.entries| && |r.producers| == |s.producers|
    && r.sh.data.memory == s.sh.data.memory
    && forall i: nat | i < Size(s) :: HandleAt(r, i) == HandleAt(s, i)
  }

  lemma SameShows(s: Q.State, r: Q.State, t: C.System)
    requires Shows(s, t) && SameMessages(s, r)
    ensures Shows(r, t)
  {
    forall i: nat | i < Size(r) ensures ShownAt(r, t, i) {
      assert ShownAt(s, t, i);
    }
  }

  // A producer's step other than the one that fills an entry.
  lemma RunMovesNothing(c: Q.Config, sh: Q.Shared, owed: bool, p: nat, pr: Q.Producer)
    requires c.entryCount > 0 && |sh.data.entries| == c.entryCount && QueueInvariants.ProducerOk(c, sh, owed, p, pr)
    requires pr.pc != Q.Publishing(Q.Fill)
    ensures KeepsMessages(sh, pr, Q.ProducerStep(c, sh, p, pr))
  {
    match pr.pc
    case Idle =>
    case Publishing(_) =>
      if QueueData.Placed(pr.pc) {
      } else {
        QueueSystem.PublishQuiet(c, sh, owed, p, pr);
      }
    case Contending(_) => QueueSystem.ContendQuiet(sh, p, pr);
    case Retrying(_) => QueueSystem.RetryQuiet(c, sh, owed, p, pr);
    case Blocking(_) => QueueSystem.BlockQuiet(c, sh, p, pr);
  }

  lemma ProducerMovesNothing(c: Q.Config, s: Q.State, a: Q.Action)
    requires QueueSystem.Inv(c, s) && Q.NamesProducer(a) && OfThread(a) && ChangeOf(c, s, a).Nothing?
    ensures SameMessages(s, Q.Step(c, s, a))
  {
    if a.p < |s.producers| {
      var owed := QueueInvariants.ConsumerOwesSignal(s.consumer.pc);
      var pr := s.producers[a.p];
      var r := Q.ProducerAct(c, s.sh, a.p, pr, a);
      assert QueueInvariants.ProducerOk(c, s.sh, owed, a.p, pr);
      ActMovesNothing(c, s.sh, owed, a.p, pr, a);
      PutMovesNothing(s, a.p, r);
    }
  }

  lemma ActMovesNothing(c: Q.Config, sh: Q.Shared, owed: bool, p: nat, pr: Q.Producer, a: Q.Action)
    requires c.entryCount > 0 && |sh.data.entries| == c.entryCount && pr.cargo.message.block < |sh.data.memory|
    requires QueueInvariants.ProducerOk(c, sh, owed, p, pr)
    requires (a.Run? ==> pr.pc != Q.Publishing(Q.Fill)) && !a.Write?
    ensures KeepsMessages(sh, pr, Q.ProducerAct(c, sh, p, pr, a))
  {
    if a.Run? { RunMovesNothing(c, sh, owed, p, pr); }
  }

  predicate KeepsMessages(sh: Q.Shared, pr: Q.Producer, r: (Q.Shared, Q.Producer)) {
    && r.1.cargo.message == pr.cargo.message && r.0.data.memory == sh.data.memory
    && |r.0.data.entries| == |sh.data.entries|
    && forall i: nat | i < |sh.data.entries| :: r.0.data.entries[i].message == sh.data.entries[i].message
  }

  lemma PutMovesNothing(s: Q.State, p: nat, r: (Q.Shared, Q.Producer))
    requires p < |s.producers| && KeepsMessages(s.sh, s.producers[p], r)
    ensures SameMessages(s, Q.Put(s, p, r))
  {
  }

  lemma ConsumerMovesNothing(c: Q.Config, s: Q.State, a: Q.Action)
    requires QueueSystem.Inv(c, s) && !Q.NamesProducer(a) && OfThread(a) && ChangeOf(c, s, a).Nothing?
    ensures SameMessages(s, Q.Step(c, s, a))
  {
    if a.RunConsumer? && s.consumer.pc.Getting? {
      QueueSystem.GetQuiet(c, s);
    } else if a.RunConsumer? && s.consumer.pc.Trying? && !s.consumer.pc.at.Bump? {
      QueueSystem.TryQuiet(c, s);
    }
  }

  // ---- moves ----

  // Messages h and k have changed blocks, and the rest are as they were.
  predicate MovedMessages(s: Q.State, r: Q.State, h: nat, k: nat) {
    && h != k && h < Size(s) && k < Size(s)
    && |r.sh.data.entries| == |s.sh.data.entries| && |r.producers| == |s.producers|
    && r.sh.data.memory == s.sh.data.memory
    && (HandleAt(r, h), HandleAt(r, k)) == Q.MoveTo(HandleAt(s, h), HandleAt(s, k))
    && forall i: nat | i < Size(s) && i != h && i != k :: HandleAt(r, i) == HandleAt(s, i)
  }

  lemma MoveShows(s: Q.State, r: Q.State, t: C.System, h: nat, k: nat)
    requires Shows(s, t) && MovedMessages(s, r, h, k)
    ensures Shows(r, C.Step(t, C.Move(h, k)))
  {
    var u := C.Step(t, C.Move(h, k));
    assert ShownAt(s, t, h) && ShownAt(s, t, k);
    forall i: nat | i < Size(r) ensures ShownAt(r, u, i) {
      assert ShownAt(s, t, i);
    }
  }

  lemma FillMoves(c: Q.Config, s: Q.State, p: nat)
    requires QueueSystem.Inv(c, s) && p < |s.producers| && s.producers[p].pc == Q.Publishing(Q.Fill)
    ensures MovedMessages(s, Q.Step(c, s, Q.Run(p)), c.entryCount + p, s.producers[p].position % c.entryCount)
  {
    assert s.sh.data.entries[s.producers[p].position % c.entryCount].status != Q.SKIP;
  }

  lemma TakeMoves(c: Q.Config, s: Q.State)
    requires QueueSystem.Inv(c, s) && s.consumer.pc.Trying? && s.consumer.pc.at.Take?
    ensures MovedMessages(s, Q.Step(c, s, Q.RunConsumer), s.sh.readPosition % c.entryCount,
      c.entryCount + |s.producers|)
  {
    assert QueueData.EntryAt(c, s.sh.data, s.sh.readPosition).status == Q.OK;
  }

  // ---- one step of a thread ----

  lemma AfterOne(t: C.System, b: C.Action)
    ensures C.After(t, [b]) == C.Step(t, b) && C.After(t, []) == t
  {
    assert [b][1..] == [];
  }

  lemma StepMakes(c: Q.Config, s: Q.State, a: Q.Action)
    requires QueueSystem.Inv(c, s) && OfThread(a)
    ensures Made(s, Q.Step(c, s, a), ChangeOf(c, s, a))
  {
    match ChangeOf(c, s, a)
    case Nothing => if Q.NamesProducer(a) { ProducerMovesNothing(c, s, a); } else { ConsumerMovesNothing(c, s, a); }
    case Moves(_, _) => if a.Run? { FillMoves(c, s, a.p); } else { TakeMoves(c, s); }
  }

  lemma ChangeShows(s: Q.State, r: Q.State, t: C.System, change: Change)
    requires Shows(s, t) && Made(s, r, change)
    ensures Shows(r, C.After(t, Deeds(change)))
  {
    match change
    case Nothing => SameShows(s, r, t);
    case Moves(h, k) =>
      MoveShows(s, r, t, h, k);
      AfterOne(t, C.Move(h, k));
  }

  // Whatever a thread does, the pool's messages do with it: nothing, or one move.
  lemma ThreadShows(c: Q.Config, s: Q.State, t: C.System, a: Q.Action)
    requires QueueSystem.Inv(c, s) && Shows(s, t) && OfThread(a)
    ensures Shows(Q.Step(c, s, a), C.After(t, Deeds(ChangeOf(c, s, a))))
  {
    StepMakes(c, s, a);
    ChangeShows(s, Q.Step(c, s, a), t, ChangeOf(c, s, a));
  }

  // ---- one operation between calls ----

  // The caller whose message this is, none of the entries'.
  function HolderAt(s: Q.State, i: nat): Q.Holder {
    var n := |s.sh.data.entries|;
    if n <= i < n + |s.producers| then Q.OfProducer(i - n) else Q.OfConsumer
  }

  // The message of a caller that has no call under way.
  predicate Rests(s: Q.State, i: nat) {
    |s.sh.data.entries| <= i < Size(s) && Q.AtRest(s, HolderAt(s, i))
  }

  // Messages that lie in the queue or are being published or received are nobody else's to touch.
  predicate Allowed(s: Q.State, b: C.Action) {
    && (b.h < Size(s) ==> Rests(s, b.h))
    && (b.Move? && b.to < Size(s) ==> Rests(s, b.to))
  }

  // No message of the queue but i is on the block.
  ghost predicate Spare(s: Q.State, i: nat, block: nat) {
    block < |s.sh.data.memory| && forall j: nat | j < Size(s) && j != i :: HandleAt(s, j).block != block
  }

  // Of n numbers one is none of fewer than n.
  lemma {:induction false} SomeNumberLeft(taken: seq<nat>, low: nat, n: nat) returns (b: nat)
    requires |taken| < n
    ensures low <= b < low + n && b !in taken
    decreases n
  {
    b := low + n - 1;
    if i: nat :| i < |taken| && taken[i] == b {
      var rest := taken[..i] + taken[i + 1..];
      b := SomeNumberLeft(rest, low, n - 1);
      assert forall x | x in taken && x != low + n - 1 :: x in rest by {
        assert taken == taken[..i] + [taken[i]] + taken[i + 1..];
      }
    }
  }

  // The blocks of the first n messages but message i.
  function OtherBlocks(s: Q.State, i: nat, n: nat): (r: seq<nat>)
    ensures |r| == if i < n then n - 1 else n
    ensures forall j: nat | j < n && j != i :: HandleAt(s, j).block in r
  {
    if n == 0 then []
    else if n - 1 == i then OtherBlocks(s, i, n - 1)
    else OtherBlocks(s, i, n - 1) + [HandleAt(s, n - 1).block]
  }

  // The queue has room beyond the pool's blocks for all its messages, so for one more than the others.
  lemma SpareThere(s: Q.State, blockCount: nat, i: nat)
    requires |s.sh.data.memory| == blockCount + Size(s) && i < Size(s)
    ensures exists b: nat :: blockCount <= b && Spare(s, i, b)
  {
    var b := SomeNumberLeft(OtherBlocks(s, i, Size(s)), blockCount, Size(s));
    assert Spare(s, i, b);
  }

  // Where the queue has message i once u is the state of the pool, and what it says there.
  ghost function NewBlock(s: Q.State, u: C.System, i: nat): (b: nat)
    requires u.pool.blockSize > 0 && |s.sh.data.memory| == u.pool.blockCount + Size(s) && i < Size(s) && i < |u.handles|
    ensures !C.Attached(u, i) ==> u.pool.blockCount <= b && Spare(s, i, b)
  {
    if C.Attached(u, i) then NumberOf(u.pool, u.handles[i].offset)
    else
      SpareThere(s, u.pool.blockCount, i);
      var b: nat :| u.pool.blockCount <= b && Spare(s, i, b);
      b
  }

  ghost function NewBytes(s: Q.State, u: C.System, i: nat, block: nat): seq<Byte> {
    if C.Attached(u, i) then BlockBytes(u.pool, block) else []
  }

  // What an operation on the pool's messages is for the queue: nothing if it names none of its messages, a move between
  // two of them, or the one it names is replaced.
  ghost function Answer(s: Q.State, t: C.System, b: C.Action): seq<Q.Action>
    requires Shows(s, t) && SameGeometry(t.pool, C.Step(t, b).pool) && |C.Step(t, b).handles| == |t.handles|
    requires Size(s) <= |t.handles|
  {
    if b.Move? && b.h < Size(s) && b.to < Size(s) && b.h != b.to then [Q.Pass(HolderAt(s, b.h), HolderAt(s, b.to))]
    else if b.h < Size(s) then [Taking(s, C.Step(t, b), b.h)]
    else if b.Move? && b.to < Size(s) then [Taking(s, C.Step(t, b), b.to)]
    else []
  }

  // Message i is taken up as it is in u.
  ghost function Taking(s: Q.State, u: C.System, i: nat): Q.Action
    requires u.pool.blockSize > 0 && |s.sh.data.memory| == u.pool.blockCount + Size(s) && i < Size(s) && i < |u.handles|
  {
    var m, block := u.handles[i], NewBlock(s, u, i);
    Q.Replace(HolderAt(s, i), Q.Handle(block, m.used, m.read, m.meta), NewBytes(s, u, i, block))
  }

  // ---- messages that an operation does not name ----

  // Message i is as it was, and so are the layout and the bytes of its block.
  ghost predicate SameAt(t: C.System, u: C.System, i: nat)
    requires t.pool.blockSize > 0
  {
    && i < |t.handles| == |u.handles| && u.handles[i] == t.handles[i] && SameGeometry(t.pool, u.pool)
    && (C.Attached(t, i) ==>
          BlockBytes(u.pool, NumberOf(u.pool, u.handles[i].offset)) ==
            BlockBytes(t.pool, NumberOf(t.pool, t.handles[i].offset)))
  }

  lemma UnnamedSame(t: C.System, free: seq<nat>, b: C.Action, i: nat)
    requires C.Orderly(t, free) && i < |t.handles| && b.h != i && (b.Move? ==> b.to != i)
    ensures SameAt(t, C.Step(t, b), i)
  {
    C.StepGeometry(t, free, b);
    UnnamedKeepsHandle(t, b, i);
    if C.Attached(t, i) {
      C.StepKeepsBlock(t, free, b, i);
      Numbered(t.pool, t.handles[i].offset);
      SameBytes(t.pool, C.Step(t, b).pool, t.handles[i].offset);
    }
  }

  // A block is the same if the layout and the bytes there are.
  lemma SameBytes(p: Pool, q: Pool, offset: nat)
    requires SameGeometry(p, q) && p.blockSize > 0 && offset + p.blockSize <= |p.memory|
    requires offset == BlockAt(Start(p.base, p.header), p.blockSize, NumberOf(p, offset))
    requires p.memory[offset..offset + p.blockSize] == q.memory[offset..offset + p.blockSize]
    ensures BlockBytes(q, NumberOf(q, offset)) == BlockBytes(p, NumberOf(p, offset))
  {
  }

  lemma UnnamedKeepsHandle(t: C.System, b: C.Action, i: nat)
    requires i < |t.handles| && b.h != i && (b.Move? ==> b.to != i)
    ensures |C.Step(t, b).handles| == |t.handles| && C.Step(t, b).handles[i] == t.handles[i]
  {
  }

  lemma StillShown(s: Q.State, t: C.System, u: C.System, i: nat)
    requires t.pool.blockSize > 0 && ShownAt(s, t, i) && SameAt(t, u, i)
    ensures ShownAt(s, u, i)
  {
  }

  // ---- messages that it names ----

  // Message i has been replaced, the block it is on now says bytes, and the rest is as it was.
  predicate ReplacedMessage(s: Q.State, r: Q.State, i: nat, message: Q.Handle, bytes: seq<Byte>) {
    && i < Size(s) && message.block < |s.sh.data.memory|
    && |r.sh.data.entries| == |s.sh.data.entries| && |r.producers| == |s.producers|
    && r.sh.data.memory == s.sh.data.memory[message.block := bytes]
    && HandleAt(r, i) == message
    && forall j: nat | j < Size(s) && j != i :: HandleAt(r, j) == HandleAt(s, j)
  }

  lemma ReplaceReplaces(c: Q.Config, s: Q.State, i: nat, message: Q.Handle, bytes: seq<Byte>)
    requires Q.Shape(c, s) && Rests(s, i) && Spare(s, i, message.block)
    ensures ReplacedMessage(s, Q.Step(c, s, Q.Replace(HolderAt(s, i), message, bytes)), i, message, bytes)
  {
    SpareIsVacant(s, i, message.block);
  }

  lemma SpareIsVacant(s: Q.State, i: nat, block: nat)
    requires Rests(s, i) && Spare(s, i, block)
    ensures Q.Vacant(s, HolderAt(s, i), block)
  {
    var n := |s.sh.data.entries|;
    forall j: nat | j < n ensures s.sh.data.entries[j].message.block != block {
      assert HandleAt(s, j).block != block;
    }
    forall q: nat | q < |s.producers| && HolderAt(s, i) != Q.OfProducer(q)
      ensures s.producers[q].cargo.message.block != block
    {
      assert HandleAt(s, n + q).block != block;
    }
    if HolderAt(s, i) != Q.OfConsumer {
      assert HandleAt(s, n + |s.producers|).block != block;
    }
  }

  lemma PassMoves(c: Q.Config, s: Q.State, h: nat, k: nat)
    requires Q.Shape(c, s) && Rests(s, h) && Rests(s, k) && h != k
    ensures MovedMessages(s, Q.Step(c, s, Q.Pass(HolderAt(s, h), HolderAt(s, k))), h, k)
  {
  }

  // The block that message i takes up is none of the others': of the pool's messages no two are on one block.
  lemma NewBlockSpare(s: Q.State, t: C.System, u: C.System, left: seq<nat>, i: nat)
    requires Shows(s, t) && C.Orderly(u, left) && SameGeometry(t.pool, u.pool) && i < Size(s) && i < |u.handles|
    requires forall j: nat | j < Size(s) && j != i :: SameAt(t, u, j)
    ensures Spare(s, i, NewBlock(s, u, i))
    ensures C.Attached(u, i) ==> NewBlock(s, u, i) < u.pool.blockCount
  {
    if C.Attached(u, i) {
      OwnNumber(u, left, i);
      forall j: nat | j < Size(s) && j != i ensures HandleAt(s, j).block != NewBlock(s, u, i) {
        assert ShownAt(s, t, j) && SameAt(t, u, j);
        StillShown(s, t, u, j);
        if C.Attached(u, j) { assert View(u.pool, u.handles[j]).block != View(u.pool, u.handles[i]).block; }
      }
    }
  }

  lemma ReplaceShows(s: Q.State, r: Q.State, t: C.System, u: C.System, i: nat, message: Q.Handle, bytes: seq<Byte>)
    requires Shows(s, t) && ReplacedMessage(s, r, i, message, bytes) && Spare(s, i, message.block)
    requires SameGeometry(t.pool, u.pool) && |u.handles| == |t.handles|
    requires forall j: nat | j < Size(s) && j != i :: SameAt(t, u, j)
    requires ShownAt(r, u, i)
    ensures Shows(r, u)
  {
    forall j: nat | j < Size(r) ensures ShownAt(r, u, j) {
      if j != i {
        assert ShownAt(s, t, j) && SameAt(t, u, j);
        StillShown(s, t, u, j);
        assert HandleAt(s, j).block != message.block;
      }
    }
  }

  // One message of the queue is named.
  lemma TakingShows(c: Q.Config, s: Q.State, t: C.System, u: C.System, left: seq<nat>, i: nat)
    requires QueueSystem.Inv(c, s) && Shows(s, t) && C.Orderly(u, left) && Rests(s, i)
    requires SameGeometry(t.pool, u.pool) && |u.handles| == |t.handles| && i < |u.handles|
    requires forall j: nat | j < Size(s) && j != i :: SameAt(t, u, j)
    ensures Shows(Q.Step(c, s, Taking(s, u, i)), u)
  {
    var block, m := NewBlock(s, u, i), u.handles[i];
    var message, bytes := Q.Handle(block, m.used, m.read, m.meta), NewBytes(s, u, i, block);
    NewBlockSpare(s, t, u, left, i);
    ReplaceReplaces(c, s, i, message, bytes);
    ReplaceShows(s, Q.Step(c, s, Taking(s, u, i)), t, u, i, message, bytes);
  }

  lemma NoneNamedShows(s: Q.State, t: C.System, u: C.System)
    requires Shows(s, t) && SameGeometry(t.pool, u.pool) && |u.handles| == |t.handles|
    requires forall j: nat | j < Size(s) :: SameAt(t, u, j)
    ensures Shows(s, u)
  {
    forall j: nat | j < Size(s) ensures ShownAt(s, u, j) {
      assert ShownAt(s, t, j);
      StillShown(s, t, u, j);
    }
  }

  lemma EnoughHandles(s: Q.State, t: C.System)
    requires Shows(s, t)
    ensures Size(s) <= |t.handles|
  {
    assert ShownAt(s, t, Size(s) - 1);
  }

  // The queue's answer to any operation that touches none of its messages but those of callers
  // at rest keeps it in step.
  lemma UserShows(c: Q.Config, s: Q.State, t: C.System, free: seq<nat>, b: C.Action)
    requires QueueSystem.Inv(c, s) && C.Orderly(t, free) && Shows(s, t) && Allowed(s, b)
    ensures Size(s) <= |t.handles| && SameGeometry(t.pool, C.Step(t, b).pool) && |C.Step(t, b).handles| == |t.handles|
    ensures Shows(QueueRuns.After(c, s, Answer(s, t, b)), C.Step(t, b))
  {
    var u := C.Step(t, b);
    EnoughHandles(s, t);
    C.StepGeometry(t, free, b);
    C.StepOrderly(t, free, b);
    forall j: nat | j < Size(s) && b.h != j && (b.Move? ==> b.to != j) ensures SameAt(t, u, j) {
      UnnamedSame(t, free, b, j);
    }
    if b.Move? && b.h < Size(s) && b.to < Size(s) && b.h != b.to {
      PassMoves(c, s, b.h, b.to);
      AfterOneStep(c, s, Q.Pass(HolderAt(s, b.h), HolderAt(s, b.to)));
      MoveShows(s, Q.Step(c, s, Q.Pass(HolderAt(s, b.h), HolderAt(s, b.to))), t, b.h, b.to);
    } else if b.h < Size(s) {
      AfterOneStep(c, s, Taking(s, u, b.h));
      TakingShows(c, s, t, u, C.FreeAfter(t, free, b), b.h);
    } else if b.Move? && b.to < Size(s) {
      AfterOneStep(c, s, Taking(s, u, b.to));
      TakingShows(c, s, t, u, C.FreeAfter(t, free, b), b.to);
    } else {
      NoneNamedShows(s, t, u);
    }
  }

  lemma AfterOneStep(c: Q.Config, s: Q.State, a: Q.Action)
    requires QueueSystem.Inv(c, s)
    ensures QueueRuns.After(c, s, [a]) == Q.Step(c, s, a)
  {
    QueueSystem.StepKeepsInv(c, s, a);
    assert [a][1..] == [];
  }
}
