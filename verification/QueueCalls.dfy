// The calls of a producer and of the consumer when nothing comes in between, with the positions, the cached bounds and
// the entries updated in place, stepping over entries that are marked to be.
module QueueCalls {
  import opened QueueMachine
  import opened Residues

  // The messages of the entries from one position up to another that are to be read, oldest first.
  function Waiting(entries: seq<Entry>, from: nat, to: nat): seq<Handle>
    requires |entries| > 0
    decreases if from < to then to - from else 0
  {
    if from >= to then []
    else
      var entry := entries[from % |entries|];
      (if entry.status.OK? then [entry.message] else []) + Waiting(entries, from + 1, to)
  }

  // Entries outside the range do not matter.
  lemma {:induction false} WaitingSame(a: seq<Entry>, b: seq<Entry>, from: nat, to: nat)
    requires |a| == |b| > 0
    requires forall k: nat | from <= k < to :: a[k % |a|] == b[k % |a|]
    ensures Waiting(a, from, to) == Waiting(b, from, to)
    decreases if from < to then to - from else 0
  {
    if from >= to {
    } else {
      WaitingSame(a, b, from + 1, to);
    }
  }

  lemma {:induction false} WaitingMore(entries: seq<Entry>, from: nat, to: nat)
    requires |entries| > 0 && from <= to
    ensures Waiting(entries, from, to + 1) ==
      Waiting(entries, from, to)
      + (if entries[to % |entries|].status.OK? then [entries[to % |entries|].message] else [])
    decreases if from < to then to - from else 0
  {
    if from == to {
    } else {
      WaitingMore(entries, from + 1, to);
    }
  }

  // An entry at a position that is not in the range can be written.
  lemma WaitingApart(entries: seq<Entry>, from: nat, to: nat, k: nat, entry: Entry)
    requires |entries| > 0 && from <= to
    requires k < from <= to <= k + |entries| || from <= to <= k < from + |entries|
    ensures Waiting(entries[k % |entries| := entry], from, to) == Waiting(entries, from, to)
  {
    var n := |entries|;
    forall j: nat | from <= j < to ensures j % n != k % n {
      if j % n == k % n {
        if k < j { SameCell(k, j, n); } else { SameCell(j, k, n); }
      }
    }
    WaitingSame(entries, entries[k % n := entry], from, to);
  }

  class HighQueue {
    const entryCount: nat
    const entries: array<Entry>
    var readPosition: nat
    var publishPosition: nat

    ghost predicate Valid()
      reads this
    {
      && entryCount > 0 && entries.Length == entryCount
      && entryCount <= readPosition <= publishPosition <= readPosition + entryCount
    }

    ghost function Contents(): seq<Handle>
      requires Valid()
      reads this, entries
    {
      Waiting(entries[..], readPosition, publishPosition)
    }

    constructor (messages: seq<Handle>)
      requires messages != []
      ensures Valid() && Contents() == [] && fresh(entries) && readPosition == entryCount == |messages|
    {
      entryCount := |messages|;
      entries := new Entry[|messages|](i requires 0 <= i < |messages| => Entry(messages[i], EMPTY));
      readPosition, publishPosition := |messages|, |messages|;
    }
  }

  class Producer {
    const queue: HighQueue
    var publishable: nat

    ghost predicate Valid()
      reads this, queue
    {
      queue.Valid() && publishable <= queue.readPosition + queue.entryCount
    }

    constructor (queue: HighQueue)
      requires queue.Valid()
      ensures Valid() && this.queue == queue
    {
      this.queue, publishable := queue, 0;
    }

    // The cached bound gives the same answer as the read position itself.
    method CanPublish(position: nat) returns (ok: bool)
      requires Valid()
      modifies this
      ensures Valid() && (ok <==> position < queue.readPosition + queue.entryCount)
      ensures ok ==> position < publishable
    {
      if publishable > position {
        return true;
      }
      publishable := queue.readPosition + queue.entryCount;
      return publishable > position;
    }

    // The message and the entry swap blocks, unless the entry is to be stepped over.
    method Fill(reserved: nat, message: Handle) returns (published: bool, left: Handle)
      requires queue.Valid()
      modifies queue.entries
      ensures var i := reserved % queue.entryCount;
        var entry := old(queue.entries[i]);
        && published == !entry.status.SKIP?
        && queue.entries[..] ==
          old(queue.entries[..])[i := if published then Entry(MoveTo(message, entry.message).1, OK) else entry]
        && left == if published then MoveTo(message, entry.message).0 else message
    {
      var i := reserved % queue.entryCount;
      var entry := queue.entries[i];
      if entry.status.SKIP? {
        return false, message;
      }
      var (source, target) := MoveTo(message, entry.message);
      queue.entries[i] := Entry(target, OK);
      return true, source;
    }

    // Publishing until the message is in or the queue is full, where publish would wait. Once in it is the last to be
    // read, saying what it said; if not, nothing waiting has changed and the caller keeps it.
    method Publish(message: Handle) returns (published: bool, left: Handle)
      requires Valid()
      modifies this, queue, queue.entries
      ensures Valid() && queue.readPosition == old(queue.readPosition)
        && old(queue.publishPosition) <= queue.publishPosition
      ensures published ==>
        && |queue.Contents()| == |old(queue.Contents())| + 1
        && queue.Contents()[..|old(queue.Contents())|] == old(queue.Contents())
        && var last := queue.Contents()[|old(queue.Contents())|];
           (last.block, last.used, last.read, last.meta) == (message.block, message.used, message.read, message.meta)
      ensures !published ==>
        left == message && queue.Contents() == old(queue.Contents())
          && queue.publishPosition == queue.readPosition + queue.entryCount
      ensures published ==> left.used == 0 && left.read == 0
      ensures published <==> exists k: nat ::
        old(queue.publishPosition) <= k < queue.readPosition + queue.entryCount
        && !old(queue.entries[..])[k % queue.entryCount].status.SKIP?
    {
      published, left := false, message;
      ghost var n := queue.entryCount;
      ghost var before := queue.entries[..];
      ghost var waiting := queue.Contents();
      var full := false;
      while !published && !full
        invariant Valid() && queue.readPosition == old(queue.readPosition)
          && old(queue.publishPosition) <= queue.publishPosition
        invariant !published ==> left == message && queue.entries[..] == before && queue.Contents() == waiting
        invariant !published ==>
          forall k: nat | old(queue.publishPosition) <= k < queue.publishPosition :: before[k % n].status.SKIP?
        invariant full ==> queue.publishPosition == queue.readPosition + n
        invariant published ==>
          && left.used == 0 && left.read == 0
          && queue.Contents() == waiting + [MoveTo(message, before[(queue.publishPosition - 1) % n].message).1]
          && old(queue.publishPosition) < queue.publishPosition <= queue.readPosition + n
          && !before[(queue.publishPosition - 1) % n].status.SKIP?
        decreases queue.readPosition + n - queue.publishPosition, if full then 0 else 1
      {
        var position := queue.publishPosition;
        var ok := CanPublish(position);
        if ok {
          published, left := Fill(position, message);
          if published {
            WaitingApart(before, queue.readPosition, position, position, queue.entries[position % n]);
          }
          WaitingMore(queue.entries[..], queue.readPosition, position);
          queue.publishPosition := position + 1;
        } else {
          full := true;
        }
      }
    }
  }

  class Consumer {
    const queue: HighQueue
    var cachedPublishPosition: nat

    ghost predicate Valid()
      reads this, queue
    {
      queue.Valid() && cachedPublishPosition <= queue.publishPosition
    }

    constructor (queue: HighQueue)
      requires queue.Valid()
      ensures Valid() && this.queue == queue
    {
      this.queue, cachedPublishPosition := queue, queue.publishPosition;
    }

    // The oldest waiting message, if there is one, and the entry left with the caller's block.
    method TryGetNext(message: Handle) returns (got: bool, taken: Handle)
      requires Valid()
      modifies this, queue, queue.entries
      ensures Valid() && queue.publishPosition == old(queue.publishPosition)
      ensures got == (old(queue.Contents()) != [])
      ensures got ==>
        && queue.Contents() == old(queue.Contents())[1..] && taken == MoveTo(old(queue.Contents())[0], message).1
        && old(queue.readPosition) < queue.readPosition
        && queue.entries[..] == old(queue.entries[..])[(queue.readPosition - 1) % queue.entryCount :=
             Entry(MoveTo(old(queue.Contents())[0], message).0, OK)]
      ensures !got ==>
        taken == message && queue.Contents() == [] && queue.readPosition == queue.publishPosition
        && queue.entries[..] == old(queue.entries[..])
    {
      ghost var before := queue.entries[..];
      while true
        invariant Valid() && queue.publishPosition == old(queue.publishPosition)
          && old(queue.readPosition) <= queue.readPosition
        invariant queue.entries[..] == before && queue.Contents() == old(queue.Contents())
        decreases queue.publishPosition - queue.readPosition
      {
        var readPosition := queue.readPosition;
        if readPosition >= cachedPublishPosition {
          cachedPublishPosition := queue.publishPosition;
          if readPosition >= cachedPublishPosition {
            return false, message;
          }
        }
        var i := readPosition % queue.entryCount;
        var entry := queue.entries[i];
        if entry.status.OK? {
          var (source, target) := MoveTo(entry.message, message);
          queue.entries[i] := entry.(message := source);
          WaitingApart(before, readPosition + 1, queue.publishPosition, readPosition, queue.entries[i]);
          queue.readPosition := readPosition + 1;
          return true, target;
        }
        queue.readPosition := readPosition + 1;
      }
    }
  }
}
