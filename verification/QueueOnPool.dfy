// The queue's messages on the blocks of a pool: a queue set up from the pool starts as QueueRuns requires, and the
// handles and contents of the queue are those of the pool.
module QueueOnPool {
  import opened Words
  import opened Residues
  import opened BlockPoolSpec
  import C = Custody
  import Q = QueueMachine
  import QueueData
  import QueueRuns

  // Blocks are numbered in the order of their addresses.
  function NumberOf(p: Pool, offset: nat): nat
    requires p.blockSize > 0
  {
    if offset < Start(p.base, p.header) then 0 else (offset - Start(p.base, p.header)) / p.blockSize
  }

  function View(p: Pool, m: MessageState): Q.Handle
    requires p.blockSize > 0
  {
    Q.Handle(NumberOf(p, m.offset), m.used, m.read, m.meta)
  }

  function BlockBytes(p: Pool, k: nat): seq<Byte> {
    var from := BlockAt(Start(p.base, p.header), p.blockSize, k);
    if from + p.blockSize <= |p.memory| then p.memory[from..from + p.blockSize] else []
  }

  function Blocks(p: Pool): (r: seq<seq<Byte>>)
    ensures |r| == p.blockCount
  {
    seq(p.blockCount, (k: nat) requires k < p.blockCount => BlockBytes(p, k))
  }

  lemma Numbered(p: Pool, offset: nat)
    requires Geometry(p) && IsBlock(p, offset)
    ensures NumberOf(p, offset) < p.blockCount
    ensures offset == BlockAt(Start(p.base, p.header), p.blockSize, NumberOf(p, offset))
  {
    var start := Start(p.base, p.header);
    var k: nat :| k < p.blockCount && offset == BlockAt(start, p.blockSize, k);
    Decompose(k, 0, p.blockSize);
  }

  // moveTo is the same seen from the queue and from the pool.
  lemma MoveAgrees(p: Pool, source: MessageState, target: MessageState)
    requires p.blockSize > 0
    ensures var (s, t) := MoveTo(source, target);
      (View(p, s), View(p, t)) == Q.MoveTo(View(p, source), View(p, target))
  {
  }

  // What a message says is the beginning of its block.
  lemma SaysAgrees(s: C.System, free: seq<nat>, h: nat)
    requires C.Orderly(s, free) && C.Attached(s, h)
    ensures var v := View(s.pool, s.handles[h]);
      && C.InBounds(s, h) && v.block < |Blocks(s.pool)| && v.used <= |Blocks(s.pool)[v.block]|
      && C.Says(s, h) == C.Text(Blocks(s.pool)[v.block][..v.used], v.read, v.meta)
  {
    var m := s.handles[h];
    C.AttachedInBounds(s, free, h);
    Numbered(s.pool, m.offset);
    BlockInside(s.pool, m.offset);
  }

  // ---- setting up a queue ----

  function NewEntry(p: Pool, m: MessageState): Q.Entry
    requires p.blockSize > 0
  {
    Q.Entry(View(p, m), Q.EMPTY)
  }

  function NewProducer(p: Pool, m: MessageState): Q.Producer
    requires p.blockSize > 0
  {
    var nothing := Q.Item(0, 0, Q.Content([], 0, 0, m.meta));
    Q.Producer(Q.Idle, Q.Cargo(View(p, m), 0, nothing), 0, 0, Q.Count(0, 0, 0), false, false, false, false)
  }

  // Memory of the queue's that is in none of the pool's blocks: a message on no block of this pool is on one of these.
  function Outside(n: nat): (r: seq<seq<Byte>>)
    ensures |r| == n
  {
    seq(n, _ => [])
  }

  // The first messages are those of the entries, then come the producers' and the consumer's.
  function QueueOf(c: Q.Config, s: C.System, producers: nat): Q.State
    requires s.pool.blockSize > 0 && c.entryCount + producers < |s.handles|
  {
    var n := c.entryCount;
    var entries := seq(n, (i: nat) requires i < n => NewEntry(s.pool, s.handles[i]));
    Q.State(
      Q.Shared(n, n, Q.Locks(Q.None, Q.Free), Q.Sleep(false, false, {}, false),
        Q.Data(entries, Blocks(s.pool) + Outside(n + producers + 1), [], [])),
      seq(producers, (i: nat) requires i < producers => NewProducer(s.pool, s.handles[n + i])),
      Q.Consumer(Q.Resting, View(s.pool, s.handles[n + producers]), n, Q.Count(0, 0, 0), false, 0, Q.Empty))
  }

  function HandleOf(c: Q.Config, producers: nat, x: QueueData.Place): nat {
    match x
    case InEntry(i) => i
    case WithProducer(p) => c.entryCount + p
    case WithConsumer => c.entryCount + producers
  }

  // The messages that the queue is set up on are all on blocks of the pool.
  ghost predicate Ready(c: Q.Config, s: C.System, free: seq<nat>, producers: nat) {
    && C.Orderly(s, free) && c.entryCount > 0 && c.entryCount + producers < |s.handles|
    && forall h: nat | h <= c.entryCount + producers :: C.Attached(s, h)
  }

  lemma PlaceIs(c: Q.Config, s: C.System, producers: nat, x: QueueData.Place)
    requires s.pool.blockSize > 0 && c.entryCount + producers < |s.handles|
    requires QueueData.IsPlace(QueueOf(c, s, producers), x)
    ensures HandleOf(c, producers, x) <= c.entryCount + producers
    ensures QueueData.BlockAt(QueueOf(c, s, producers), x) == View(s.pool, s.handles[HandleOf(c, producers, x)]).block
  {
    var t := QueueOf(c, s, producers);
    match x
    case InEntry(i) => assert t.sh.data.entries[i] == NewEntry(s.pool, s.handles[i]);
    case WithProducer(p) => assert t.producers[p] == NewProducer(s.pool, s.handles[c.entryCount + p]);
    case WithConsumer =>
  }

  lemma OwnNumber(s: C.System, free: seq<nat>, h: nat)
    requires C.Orderly(s, free) && C.Attached(s, h)
    ensures View(s.pool, s.handles[h]).block < s.pool.blockCount
    ensures forall k: nat | C.Attached(s, k) && View(s.pool, s.handles[k]).block == View(s.pool, s.handles[h]).block ::
      k == h
  {
    Numbered(s.pool, s.handles[h].offset);
    forall k: nat | C.Attached(s, k) && View(s.pool, s.handles[k]).block == View(s.pool, s.handles[h]).block
      ensures k == h
    {
      Numbered(s.pool, s.handles[k].offset);
    }
  }

  lemma PlaceOnPool(c: Q.Config, s: C.System, free: seq<nat>, producers: nat, x: QueueData.Place)
    requires Ready(c, s, free, producers) && QueueData.IsPlace(QueueOf(c, s, producers), x)
    ensures QueueData.BlockAt(QueueOf(c, s, producers), x) < s.pool.blockCount
  {
    PlaceIs(c, s, producers, x);
    OwnNumber(s, free, HandleOf(c, producers, x));
  }

  lemma PlacesApart(c: Q.Config, s: C.System, free: seq<nat>, producers: nat, x: QueueData.Place, y: QueueData.Place)
    requires Ready(c, s, free, producers)
    requires QueueData.IsPlace(QueueOf(c, s, producers), x) && QueueData.IsPlace(QueueOf(c, s, producers), y)
    requires QueueData.BlockAt(QueueOf(c, s, producers), x) == QueueData.BlockAt(QueueOf(c, s, producers), y)
    ensures x == y
  {
    PlaceIs(c, s, producers, x);
    PlaceIs(c, s, producers, y);
    OwnNumber(s, free, HandleOf(c, producers, x));
    OneHandle(c, s, producers, x, y);
  }

  lemma OneHandle(c: Q.Config, s: C.System, producers: nat, x: QueueData.Place, y: QueueData.Place)
    requires s.pool.blockSize > 0 && c.entryCount + producers < |s.handles|
    requires QueueData.IsPlace(QueueOf(c, s, producers), x) && QueueData.IsPlace(QueueOf(c, s, producers), y)
    requires HandleOf(c, producers, x) == HandleOf(c, producers, y)
    ensures x == y
  {
  }

  // Messages constructed from a pool have blocks of their own, so a queue set up on them can start.
  lemma QueueStarts(c: Q.Config, s: C.System, free: seq<nat>, producers: nat)
    requires Ready(c, s, free, producers) && (c.solo ==> producers <= 1)
    ensures QueueRuns.Init(c, QueueOf(c, s, producers))
  {
    QueueHasShape(c, s, free, producers);
    QueueHasOwnBlocks(c, s, free, producers);
    QueueIsNew(c, s, producers);
  }

  lemma QueueHasOwnBlocks(c: Q.Config, s: C.System, free: seq<nat>, producers: nat)
    requires Ready(c, s, free, producers)
    ensures QueueData.OwnBlocks(QueueOf(c, s, producers))
  {
    var t := QueueOf(c, s, producers);
    forall x: QueueData.Place, y: QueueData.Place
      | QueueData.IsPlace(t, x) && QueueData.IsPlace(t, y) && QueueData.BlockAt(t, x) == QueueData.BlockAt(t, y)
      ensures x == y
    {
      PlacesApart(c, s, free, producers, x, y);
    }
  }

  lemma QueueIsNew(c: Q.Config, s: C.System, producers: nat)
    requires s.pool.blockSize > 0 && c.entryCount + producers < |s.handles|
    ensures var t := QueueOf(c, s, producers);
      && (forall i: nat | i < |t.sh.data.entries| :: t.sh.data.entries[i].status == Q.EMPTY)
      && (forall p: nat | p < |t.producers| :: QueueRuns.NewProducer(t.producers[p]))
  {
    var t := QueueOf(c, s, producers);
    forall i: nat | i < |t.sh.data.entries| ensures t.sh.data.entries[i].status == Q.EMPTY {
      assert t.sh.data.entries[i] == NewEntry(s.pool, s.handles[i]);
    }
    forall p: nat | p < |t.producers| ensures QueueRuns.NewProducer(t.producers[p]) {
      assert t.producers[p] == NewProducer(s.pool, s.handles[c.entryCount + p]);
    }
  }

  lemma QueueHasShape(c: Q.Config, s: C.System, free: seq<nat>, producers: nat)
    requires Ready(c, s, free, producers) && (c.solo ==> producers <= 1)
    ensures Q.Shape(c, QueueOf(c, s, producers))
  {
    var t := QueueOf(c, s, producers);
    forall i: nat | i < |t.sh.data.entries| ensures t.sh.data.entries[i].message.block < |t.sh.data.memory| {
      PlaceOnPool(c, s, free, producers, QueueData.InEntry(i));
    }
    forall p: nat | p < |t.producers| ensures t.producers[p].cargo.message.block < |t.sh.data.memory| {
      PlaceOnPool(c, s, free, producers, QueueData.WithProducer(p));
    }
    PlaceOnPool(c, s, free, producers, QueueData.WithConsumer);
  }

  // From an empty pool: as many messages as the queue needs are constructed, and the queue starts on them.
  lemma PoolToQueue(c: Q.Config, s: C.System, producers: nat)
    requires Threaded(s.pool, AllBlocks(s.pool)) && (forall h: nat :: !C.Attached(s, h))
    requires c.entryCount > 0 && (c.solo ==> producers <= 1)
    requires c.entryCount + producers + 1 <= s.pool.blockCount && c.entryCount + producers + 1 <= |s.handles|
    ensures var t := C.After(s, C.Constructions(c.entryCount + producers + 1));
      && t.pool.blockSize > 0 && c.entryCount + producers < |t.handles| && QueueRuns.Init(c, QueueOf(c, t, producers))
  {
    var n := c.entryCount + producers + 1;
    C.StartsComplete(s);
    C.ConstructAll(s, AllBlocks(s.pool), 0, n);
    assert C.Constructions(n)[0..] == C.Constructions(n);
    var t := C.After(s, C.Constructions(n));
    QueueStarts(c, t, AllBlocks(s.pool)[n..], producers);
  }
}
