// Messages as the processing steps see them: the valid bytes of a message plus its metadata.
module Messages {
  import opened Words

  // The merge and the shuffler tell heartbeats and shutdowns apart; every other type is data.
  datatype Kind = Heartbeat | Shutdown | Other

  // bytes holds the used part of the block, so its length is used_.
  datatype Msg = Msg(kind: Kind, sequence: nat, bytes: seq<Byte>) {
    predicate IsEmpty() {
      bytes == []
    }

    predicate IsData() {
      kind.Other?
    }

    // What is left behind when the message is sent or moved elsewhere.
    function Emptied(): Msg {
      this.(bytes := [])
    }
  }

  // What travels with a message besides its bytes. The queue and the pool carry it without looking at it.
  datatype Meta = Meta(kind: nat, timestamp: nat, sequence: nat)

  const BLANK := Msg(Other, 0, [])

  // The cells of a ring of messages that hold something.
  ghost function Filled(ring: seq<Msg>): set<nat> {
    set i: nat | i < |ring| && !ring[i].IsEmpty()
  }

  lemma EmptyingShrinks(ring: seq<Msg>, i: nat)
    requires i < |ring| && !ring[i].IsEmpty()
    ensures Filled(ring[i := ring[i].Emptied()]) == Filled(ring) - {i}
    ensures |Filled(ring[i := ring[i].Emptied()])| < |Filled(ring)|
  {
    assert i in Filled(ring);
    assert Filled(ring[i := ring[i].Emptied()]) == Filled(ring) - {i};
  }

  // The data messages among the messages.
  function DataOf(ms: seq<Msg>): seq<Msg> {
    if ms == [] then []
    else
      var rest, last := DataOf(ms[..|ms| - 1]), ms[|ms| - 1];
      if last.IsData() then rest + [last] else rest
  }

  lemma DataOfAppend(ms: seq<Msg>, m: Msg)
    ensures DataOf(ms + [m]) == if m.IsData() then DataOf(ms) + [m] else DataOf(ms)
  {
    assert (ms + [m])[..|ms|] == ms;
  }

  lemma {:induction false} DataIn(ms: seq<Msg>)
    ensures forall m :: m in DataOf(ms) <==> m in ms && m.IsData()
    decreases |ms|
  {
    if ms == [] {
    } else {
      DataIn(ms[..|ms| - 1]);
      assert ms == ms[..|ms| - 1] + [ms[|ms| - 1]];
    }
  }

  lemma {:induction false} DataOfJoin(a: seq<Msg>, b: seq<Msg>)
    ensures DataOf(a + b) == DataOf(a) + DataOf(b)
    decreases |b|
  {
    if b == [] {
      assert a + b == a;
    } else {
      var front, last := b[..|b| - 1], b[|b| - 1];
      DataOfJoin(a, front);
      assert a + b == (a + front) + [last];
      DataOfAppend(a + front, last);
    }
  }

  lemma {:induction false} NoData(lead: seq<Msg>)
    requires forall m | m in lead :: !m.IsData()
    ensures DataOf(lead) == []
    decreases |lead|
  {
    if lead == [] {
    } else {
      NoData(lead[..|lead| - 1]);
      assert lead[|lead| - 1] in lead;
    }
  }
}
