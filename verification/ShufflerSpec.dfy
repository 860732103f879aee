// The shuffler: a deck of cells through which data messages pass out of order.
module ShufflerSpec {
  import opened Messages
  import opened Residues

  datatype Shuffler = Shuffler(lookAhead: nat, prime: nat, position: nat, deck: seq<Msg>, out: seq<Msg>) {
    predicate Shape() {
      lookAhead >= 1 && |deck| == lookAhead
    }
  }

  function NewShuffler(lookAhead: nat, prime: nat): Shuffler {
    Shuffler(lookAhead, prime, 0, seq(lookAhead, _ => BLANK), [])
  }

  // Sending whatever the cell holds.
  function Eject(s: Shuffler, index: nat): Shuffler
    requires index < |s.deck|
  {
    if s.deck[index].IsEmpty() then s
    else s.(deck := s.deck[index := s.deck[index].Emptied()], out := s.out + [s.deck[index]])
  }

  function Place(s: Shuffler, index: nat, m: Msg): Shuffler
    requires index < |s.deck|
  {
    var e := Eject(s, index);
    e.(deck := e.deck[index := m])
  }

  // handleDataMessage
  function Deal(s: Shuffler, m: Msg): Shuffler
    requires s.Shape()
  {
    var position := s.position + s.prime;
    Place(s, position % s.lookAhead, m).(position := position)
  }

  // publishPendingMessages, from cell k on
  function FlushFrom(s: Shuffler, k: nat): Shuffler
    requires k <= |s.deck|
    decreases |s.deck| - k
  {
    if k == |s.deck| then s else FlushFrom(Eject(s, k), k + 1)
  }

  function Shuffle1(s: Shuffler, m: Msg): Shuffler
    requires s.Shape()
  {
    if m.IsData() then Deal(s, m)
    else
      var f := FlushFrom(s, 0);
      f.(out := f.out + [m])
  }

  lemma {:induction false} FlushShape(s: Shuffler, k: nat)
    requires k <= |s.deck|
    ensures var f := FlushFrom(s, k);
            && |f.deck| == |s.deck| && f.lookAhead == s.lookAhead && f.prime == s.prime && f.position == s.position
            && s.out <= f.out
            && (forall i: nat :: i < k ==> f.deck[i] == s.deck[i])
            && (forall i: nat :: k <= i < |s.deck| ==> f.deck[i].IsEmpty())
    decreases |s.deck| - k
  {
    if k == |s.deck| {
    } else {
      FlushShape(Eject(s, k), k + 1);
    }
  }

  // What every ejection keeps, a flush keeps.
  lemma {:induction false} FlushKeeps(inv: Shuffler -> bool, s: Shuffler, k: nat)
    requires k <= |s.deck| && inv(s)
    requires forall t: Shuffler, i: nat | i < |t.deck| && inv(t) :: inv(Eject(t, i))
    ensures inv(FlushFrom(s, k))
    decreases |s.deck| - k
  {
    if k == |s.deck| {
    } else {
      FlushKeeps(inv, Eject(s, k), k + 1);
    }
  }

  function Shuffle(lookAhead: nat, prime: nat, ms: seq<Msg>): (s: Shuffler)
    requires lookAhead >= 1
    ensures s.Shape() && s.lookAhead == lookAhead && s.prime == prime
    decreases |ms|
  {
    if ms == [] then NewShuffler(lookAhead, prime)
    else
      var before := Shuffle(lookAhead, prime, ms[..|ms| - 1]);
      FlushShape(before, 0);
      Shuffle1(before, ms[|ms| - 1])
  }

  // ---- conservation ----

  // What a ring of messages holds.
  ghost function Contents(ring: seq<Msg>): multiset<Msg> {
    if ring == [] then multiset{}
    else Contents(ring[..|ring| - 1]) + (if ring[|ring| - 1].IsEmpty() then multiset{} else multiset{ring[|ring| - 1]})
  }

  ghost function One(m: Msg): multiset<Msg> {
    if m.IsEmpty() then multiset{} else multiset{m}
  }

  lemma {:induction false} ContentsUpdate(ring: seq<Msg>, i: nat, m: Msg)
    requires i < |ring|
    ensures Contents(ring[i := m]) + One(ring[i]) == Contents(ring) + One(m)
    decreases |ring|
  {
    var front := ring[..|ring| - 1];
    if i == |ring| - 1 {
      assert ring[i := m][..|ring| - 1] == front;
    } else {
      assert ring[i := m][..|ring| - 1] == front[i := m];
      ContentsUpdate(front, i, m);
    }
  }

  // All the messages forwarded or held.
  ghost function Total(s: Shuffler): multiset<Msg> {
    multiset(s.out) + Contents(s.deck)
  }

  lemma EjectConserves(s: Shuffler, k: nat)
    requires k < |s.deck|
    ensures Total(Eject(s, k)) == Total(s)
  {
    var x := s.deck[k];
    if !x.IsEmpty() {
      var deck := s.deck[k := x.Emptied()];
      ContentsUpdate(s.deck, k, x.Emptied());
      assert Contents(deck) + multiset{x} == Contents(s.deck);
      assert multiset(s.out + [x]) == multiset(s.out) + multiset{x};
      assert multiset(s.out) + multiset{x} + Contents(deck) == multiset(s.out) + (Contents(deck) + multiset{x});
    }
  }

  lemma {:induction false} FlushConserves(s: Shuffler, k: nat)
    requires k <= |s.deck|
    ensures Total(FlushFrom(s, k)) == Total(s)
    decreases |s.deck| - k
  {
    if k == |s.deck| {
    } else {
      EjectConserves(s, k);
      FlushConserves(Eject(s, k), k + 1);
    }
  }

  lemma {:induction false} NothingHeld(ring: seq<Msg>)
    requires forall m | m in ring :: m.IsEmpty()
    ensures Contents(ring) == multiset{}
    decreases |ring|
  {
    if ring == [] {
    } else {
      assert ring[|ring| - 1] in ring;
      NothingHeld(ring[..|ring| - 1]);
    }
  }

  lemma PlaceConserves(s: Shuffler, index: nat, m: Msg)
    requires index < |s.deck| && !m.IsEmpty()
    ensures Total(Place(s, index, m)) == Total(s) + multiset{m}
  {
    var e := Eject(s, index);
    EjectConserves(s, index);
    FillCell(e.deck, index, m);
    assert multiset(e.out) + (Contents(e.deck) + multiset{m}) == Total(e) + multiset{m};
  }

  lemma DealConserves(s: Shuffler, m: Msg)
    requires s.Shape() && !m.IsEmpty()
    ensures Total(Deal(s, m)) == Total(s) + multiset{m}
  {
    var p := Place(s, (s.position + s.prime) % s.lookAhead, m);
    PlaceConserves(s, (s.position + s.prime) % s.lookAhead, m);
    var d := Deal(s, m);
    assert d.out == p.out && d.deck == p.deck;
  }

  lemma FillCell(ring: seq<Msg>, i: nat, m: Msg)
    requires i < |ring| && ring[i].IsEmpty() && !m.IsEmpty()
    ensures Contents(ring[i := m]) == Contents(ring) + multiset{m}
  {
    ContentsUpdate(ring, i, m);
    assert Contents(ring[i := m]) + multiset{} == Contents(ring[i := m]);
  }

  lemma ControlConserves(s: Shuffler, m: Msg)
    requires s.Shape() && !m.IsData()
    ensures multiset(Shuffle1(s, m).out) == Total(s) + multiset{m} == Total(Shuffle1(s, m))
  {
    var f := FlushFrom(s, 0);
    FlushConserves(s, 0);
    FlushShape(s, 0);
    NothingHeld(f.deck);
    assert multiset(f.out + [m]) == multiset(f.out) + multiset{m};
  }

  // What was forwarded together with what is still in the deck is what was received, each message as often:
  // nothing is forwarded twice, and after a control message the forwarded is a permutation of the received.
  lemma {:induction false} ShuffleConserves(lookAhead: nat, prime: nat, ms: seq<Msg>)
    requires lookAhead >= 1 && forall m | m in ms && m.IsData() :: !m.IsEmpty()
    ensures var s := Shuffle(lookAhead, prime, ms);
            && Total(s) == multiset(ms)
            && (ms != [] && !ms[|ms| - 1].IsData() ==> multiset(s.out) == multiset(ms))
    decreases |ms|
  {
    if ms == [] {
      NothingHeld(NewShuffler(lookAhead, prime).deck);
    } else {
      var front, m := ms[..|ms| - 1], ms[|ms| - 1];
      assert ms == front + [m];
      assert m in ms;
      ShuffleConserves(lookAhead, prime, front);
      var s := Shuffle(lookAhead, prime, front);
      if m.IsData() {
        DealConserves(s, m);
      } else {
        ControlConserves(s, m);
      }
    }
  }

  // ---- displacement ----

  // The cell of the i-th data message, counting from zero.
  function Cell(lookAhead: nat, prime: nat, i: nat): nat
    requires lookAhead >= 1
  {
    ((i + 1) * prime) % lookAhead
  }

  lemma CellRepeats(lookAhead: nat, prime: nat, i: nat)
    requires lookAhead >= 1
    ensures Cell(lookAhead, prime, i + lookAhead) == Cell(lookAhead, prime, i)
  {
    assert (i + lookAhead + 1) * prime == (i + 1) * prime + prime * lookAhead;
    ShiftCell((i + 1) * prime, prime, lookAhead);
  }

  // The message sitting in cell k is the i-th one received.
  ghost predicate Sits(s: Shuffler, data: seq<Msg>, k: nat, i: nat)
    requires s.Shape()
  {
    k < s.lookAhead && i < |data| <= i + s.lookAhead && Cell(s.lookAhead, s.prime, i) == k && s.deck[k] == data[i]
  }

  // What is in cell k, if anything, was received no more than lookAhead places ago.
  ghost predicate Held(s: Shuffler, data: seq<Msg>, k: nat)
    requires s.Shape()
  {
    k < s.lookAhead && !s.deck[k].IsEmpty() ==> exists i: nat :: Sits(s, data, k, i)
  }

  // The i-th message received has been forwarded, or it sits in its cell.
  ghost predicate Passed(s: Shuffler, data: seq<Msg>, i: nat)
    requires s.Shape()
  {
    i < |data| ==> data[i] in s.out || Sits(s, data, Cell(s.lookAhead, s.prime, i), i)
  }

  ghost predicate DeckInv(s: Shuffler, data: seq<Msg>) {
    && s.Shape()
    && s.position == |data| * s.prime
    && (forall m | m in data :: !m.IsEmpty())
    && (forall k: nat :: Held(s, data, k))
    && (forall i: nat :: Passed(s, data, i))
  }

  lemma EjectKeepsDeck(s: Shuffler, data: seq<Msg>, k: nat)
    requires DeckInv(s, data) && k < s.lookAhead
    ensures DeckInv(Eject(s, k), data)
  {
    var e := Eject(s, k);
    forall j: nat ensures Held(e, data, j) {
      assert Held(s, data, j);
      if j < s.lookAhead && !e.deck[j].IsEmpty() {
        var i: nat :| Sits(s, data, j, i);
        assert Sits(e, data, j, i);
      }
    }
    forall i: nat ensures Passed(e, data, i) {
      assert Passed(s, data, i);
      if i < |data| && Sits(s, data, k, i) {
        assert data[i] in data;
        assert e.out[|s.out|] == data[i];
      }
    }
  }

  lemma DealKeepsDeck(s: Shuffler, data: seq<Msg>, m: Msg)
    requires DeckInv(s, data) && !m.IsEmpty()
    ensures DeckInv(Deal(s, m), data + [m])
  {
    var index := Cell(s.lookAhead, s.prime, |data|);
    assert s.position + s.prime == (|data| + 1) * s.prime;
    if |data| >= s.lookAhead {
      CellRepeats(s.lookAhead, s.prime, |data| - s.lookAhead);
    }
    PlaceKeepsDeck(s, data, index, m);
  }

  // The cell to be filled is the cell of the message about to be lookAhead old.
  lemma PlaceKeepsDeck(s: Shuffler, data: seq<Msg>, index: nat, m: Msg)
    requires DeckInv(s, data) && !m.IsEmpty()
    requires index == Cell(s.lookAhead, s.prime, |data|)
    requires |data| >= s.lookAhead ==> Cell(s.lookAhead, s.prime, |data| - s.lookAhead) == index
    ensures DeckInv(Place(s, index, m).(position := (|data| + 1) * s.prime), data + [m])
  {
    var e := Eject(s, index);
    EjectKeepsDeck(s, data, index);
    var r, more := Place(s, index, m).(position := (|data| + 1) * s.prime), data + [m];
    forall k: nat ensures Held(r, more, k) {
      assert Held(e, data, k);
      if k == index {
        assert Sits(r, more, k, |data|);
      } else if k < s.lookAhead && !r.deck[k].IsEmpty() {
        var i: nat :| Sits(e, data, k, i);
        assert Sits(r, more, k, i);
      }
    }
    forall i: nat ensures Passed(r, more, i) {
      assert Passed(e, data, i);
      if i == |data| {
        assert Sits(r, more, index, i);
      } else if i < |data| && data[i] !in e.out {
        assert data[i] in data;
        assert Sits(r, more, Cell(s.lookAhead, s.prime, i), i);
      }
    }
  }

  lemma {:induction false} FlushKeepsDeck(s: Shuffler, data: seq<Msg>, k: nat)
    requires DeckInv(s, data) && k <= s.lookAhead
    ensures DeckInv(FlushFrom(s, k), data)
    decreases s.lookAhead - k
  {
    if k == s.lookAhead {
    } else {
      EjectKeepsDeck(s, data, k);
      FlushKeepsDeck(Eject(s, k), data, k + 1);
    }
  }

  lemma FreshDeck(lookAhead: nat, prime: nat)
    requires lookAhead >= 1
    ensures DeckInv(NewShuffler(lookAhead, prime), [])
  {
  }

  lemma ControlKeepsDeck(s: Shuffler, data: seq<Msg>, m: Msg)
    requires DeckInv(s, data)
    ensures DeckInv(s.(out := s.out + [m]), data)
  {
    var t := s.(out := s.out + [m]);
    forall k: nat ensures Held(t, data, k) {
      assert Held(s, data, k);
      if k < s.lookAhead && !s.deck[k].IsEmpty() {
        var i: nat :| Sits(s, data, k, i);
        assert Sits(t, data, k, i);
      }
    }
    forall i: nat ensures Passed(t, data, i) {
      assert Passed(s, data, i);
    }
  }

  // ---- counting ----

  // The data messages forwarded and those in the deck are together those received, each as often.
  ghost predicate Accounted(s: Shuffler, data: seq<Msg>) {
    multiset(DataOf(s.out)) + Contents(s.deck) == multiset(data)
  }

  lemma EjectAccounts(s: Shuffler, data: seq<Msg>, k: nat)
    requires Accounted(s, data) && k < |s.deck| && (s.deck[k].IsEmpty() || s.deck[k].IsData())
    ensures Accounted(Eject(s, k), data)
  {
    var x := s.deck[k];
    if !x.IsEmpty() {
      ContentsUpdate(s.deck, k, x.Emptied());
      DataOfAppend(s.out, x);
      assert Contents(Eject(s, k).deck) + multiset{x} == Contents(s.deck);
      assert multiset(DataOf(s.out) + [x]) == multiset(DataOf(s.out)) + multiset{x};
    }
  }

  lemma PlaceAccounts(s: Shuffler, data: seq<Msg>, k: nat, m: Msg)
    requires Accounted(s, data) && k < |s.deck| && (s.deck[k].IsEmpty() || s.deck[k].IsData()) && !m.IsEmpty()
    ensures Accounted(Place(s, k, m), data + [m])
  {
    var e := Eject(s, k);
    EjectAccounts(s, data, k);
    FillCell(e.deck, k, m);
    OneMore(multiset(DataOf(e.out)), Contents(e.deck), data, m);
  }

  lemma OneMore(out: multiset<Msg>, held: multiset<Msg>, data: seq<Msg>, m: Msg)
    requires out + held == multiset(data)
    ensures out + (held + multiset{m}) == multiset(data + [m])
  {
    assert multiset(data + [m]) == multiset(data) + multiset{m};
  }

  // Every cell is empty or holds data.
  predicate HoldsData(s: Shuffler) {
    forall k: nat | k < |s.deck| :: s.deck[k].IsEmpty() || s.deck[k].IsData()
  }

  lemma {:induction false} FlushAccounts(s: Shuffler, data: seq<Msg>, k: nat)
    requires Accounted(s, data) && k <= |s.deck| && HoldsData(s)
    ensures Accounted(FlushFrom(s, k), data) && HoldsData(FlushFrom(s, k))
    decreases |s.deck| - k
  {
    if k == |s.deck| {
    } else {
      EjectAccounts(s, data, k);
      FlushAccounts(Eject(s, k), data, k + 1);
    }
  }

  lemma {:induction false} CellsRun(lookAhead: nat, prime: nat, ms: seq<Msg>)
    requires lookAhead >= 1 && forall m | m in ms && m.IsData() :: !m.IsEmpty()
    ensures DeckInv(Shuffle(lookAhead, prime, ms), DataOf(ms))
    decreases |ms|
  {
    if ms == [] {
      FreshDeck(lookAhead, prime);
    } else {
      var front, m := ms[..|ms| - 1], ms[|ms| - 1];
      var s := Shuffle(lookAhead, prime, front);
      assert m in ms;
      CellsRun(lookAhead, prime, front);
      if m.IsData() {
        DealKeepsDeck(s, DataOf(front), m);
      } else {
        FlushKeepsDeck(s, DataOf(front), 0);
        ControlKeepsDeck(FlushFrom(s, 0), DataOf(front), m);
      }
    }
  }

  lemma StepAccounts(s: Shuffler, data: seq<Msg>, m: Msg)
    requires s.Shape() && Accounted(s, data) && HoldsData(s) && (m.IsData() ==> !m.IsEmpty())
    ensures Accounted(Shuffle1(s, m), if m.IsData() then data + [m] else data) && HoldsData(Shuffle1(s, m))
  {
    if m.IsData() {
      DealAccounts(s, data, m);
    } else {
      FlushAccounts(s, data, 0);
      DataOfAppend(FlushFrom(s, 0).out, m);
    }
  }

  lemma DealAccounts(s: Shuffler, data: seq<Msg>, m: Msg)
    requires s.Shape() && Accounted(s, data) && HoldsData(s) && m.IsData() && !m.IsEmpty()
    ensures Accounted(Deal(s, m), data + [m]) && HoldsData(Deal(s, m))
  {
    var index := DealPlaces(s, m);
    PlaceAccounts(s, data, index, m);
    PlaceHoldsData(s, index, m);
    SameAccounts(Place(s, index, m), Deal(s, m), data + [m]);
  }

  lemma DealPlaces(s: Shuffler, m: Msg) returns (index: nat)
    requires s.Shape()
    ensures index < |s.deck|
    ensures Deal(s, m).deck == Place(s, index, m).deck && Deal(s, m).out == Place(s, index, m).out
  {
    index := (s.position + s.prime) % s.lookAhead;
  }

  lemma PlaceHoldsData(s: Shuffler, k: nat, m: Msg)
    requires HoldsData(s) && k < |s.deck| && m.IsData()
    ensures HoldsData(Place(s, k, m))
  {
  }

  lemma SameAccounts(s: Shuffler, t: Shuffler, data: seq<Msg>)
    requires Accounted(s, data) && HoldsData(s) && t.deck == s.deck && t.out == s.out
    ensures Accounted(t, data) && HoldsData(t)
  {
  }

  lemma {:induction false} CountsRun(lookAhead: nat, prime: nat, ms: seq<Msg>)
    requires lookAhead >= 1 && forall m | m in ms && m.IsData() :: !m.IsEmpty()
    ensures Accounted(Shuffle(lookAhead, prime, ms), DataOf(ms)) && HoldsData(Shuffle(lookAhead, prime, ms))
    decreases |ms|
  {
    if ms == [] {
      NothingHeld(NewShuffler(lookAhead, prime).deck);
    } else {
      var front, m := ms[..|ms| - 1], ms[|ms| - 1];
      assert m in ms;
      CountsRun(lookAhead, prime, front);
      StepAccounts(Shuffle(lookAhead, prime, front), DataOf(front), m);
    }
  }

  // Over every run: where each message is, and how many of each there are.
  lemma DeckRun(lookAhead: nat, prime: nat, ms: seq<Msg>)
    requires lookAhead >= 1 && forall m | m in ms && m.IsData() :: !m.IsEmpty()
    ensures DeckInv(Shuffle(lookAhead, prime, ms), DataOf(ms)) && Accounted(Shuffle(lookAhead, prime, ms), DataOf(ms))
  {
    CellsRun(lookAhead, prime, ms);
    CountsRun(lookAhead, prime, ms);
  }

  // What is in cell k, if anything, is the message received at some place from low up to high whose cell it is.
  ghost predicate Recent(s: Shuffler, deck: seq<Msg>, data: seq<Msg>, low: nat, high: nat, k: nat)
    requires s.Shape()
  {
    k < |deck| && !deck[k].IsEmpty() ==> exists i: nat :: ReceivedAt(s, deck, data, low, high, k, i)
  }

  ghost predicate ReceivedAt(s: Shuffler, deck: seq<Msg>, data: seq<Msg>, low: nat, high: nat, k: nat, i: nat)
    requires s.Shape()
  {
    k < |deck| && low <= i < high <= |data| && Cell(s.lookAhead, s.prime, i) == k && deck[k] == data[i]
  }

  // Such messages are no more, each counted as often, than were received there.
  lemma {:induction false} RecentCount(s: Shuffler, deck: seq<Msg>, data: seq<Msg>, low: nat, high: nat)
    requires s.Shape() && low <= high <= |data| && forall k: nat :: Recent(s, deck, data, low, high, k)
    ensures Contents(deck) <= multiset(data[low..high])
    decreases high - low
  {
    if low == high {
      forall k: nat | k < |deck| ensures deck[k].IsEmpty() {
        assert Recent(s, deck, data, low, high, k);
      }
      NothingHeld(deck);
    } else {
      var i := high - 1;
      var c := Cell(s.lookAhead, s.prime, i);
      var rest := if c < |deck| && deck[c] == data[i] && !deck[c].IsEmpty() then deck[c := deck[c].Emptied()] else deck;
      forall k: nat ensures Recent(s, rest, data, low, i, k) {
        RecentWithout(s, deck, rest, data, low, high, k);
      }
      RecentCount(s, rest, data, low, i);
      OneLess(deck, rest, c, data[i]);
      assert data[low..high] == data[low..i] + [data[i]];
    }
  }

  lemma RecentWithout(s: Shuffler, deck: seq<Msg>, rest: seq<Msg>, data: seq<Msg>, low: nat, high: nat, k: nat)
    requires s.Shape() && low < high <= |data| && Recent(s, deck, data, low, high, k)
    requires var c := Cell(s.lookAhead, s.prime, high - 1);
      rest ==
        if c < |deck| && deck[c] == data[high - 1] && !deck[c].IsEmpty() then deck[c := deck[c].Emptied()] else deck
    ensures Recent(s, rest, data, low, high - 1, k)
  {
    if k < |rest| && !rest[k].IsEmpty() {
      var j: nat :| ReceivedAt(s, deck, data, low, high, k, j);
      assert ReceivedAt(s, rest, data, low, high - 1, k, j);
    }
  }

  lemma OneLess(deck: seq<Msg>, rest: seq<Msg>, c: nat, x: Msg)
    requires rest == if c < |deck| && deck[c] == x && !deck[c].IsEmpty() then deck[c := deck[c].Emptied()] else deck
    ensures Contents(deck) <= Contents(rest) + multiset{x}
  {
    if rest != deck {
      ContentsUpdate(deck, c, deck[c].Emptied());
    }
  }

  // All that was received lookAhead or more places ago has been forwarded, each message as often.
  lemma OldIsForwarded(s: Shuffler, data: seq<Msg>, n: nat)
    requires DeckInv(s, data) && Accounted(s, data) && n + s.lookAhead <= |data|
    ensures multiset(data[..n]) <= multiset(DataOf(s.out))
  {
    forall k: nat ensures Recent(s, s.deck, data, n, |data|, k) {
      DeckIsRecent(s, data, n, k);
    }
    RecentCount(s, s.deck, data, n, |data|);
    Cancel(multiset(DataOf(s.out)), Contents(s.deck), data, n);
  }

  lemma DeckIsRecent(s: Shuffler, data: seq<Msg>, n: nat, k: nat)
    requires s.Shape() && Held(s, data, k) && n + s.lookAhead <= |data| && |s.deck| == s.lookAhead
    ensures Recent(s, s.deck, data, n, |data|, k)
  {
    if k < |s.deck| && !s.deck[k].IsEmpty() {
      var i: nat :| Sits(s, data, k, i);
      assert ReceivedAt(s, s.deck, data, n, |data|, k, i);
    }
  }

  lemma Cancel(out: multiset<Msg>, held: multiset<Msg>, data: seq<Msg>, n: nat)
    requires n <= |data| && out + held == multiset(data) && held <= multiset(data[n..|data|])
    ensures multiset(data[..n]) <= out
  {
    assert data == data[..n] + data[n..|data|];
    assert multiset(data) == multiset(data[..n]) + multiset(data[n..|data|]);
    forall x ensures multiset(data[..n])[x] <= out[x] {
      assert (out + held)[x] == multiset(data)[x];
    }
  }

  // A data message is forwarded by the time lookAhead more have arrived: it moves no further than that.
  lemma Displacement(lookAhead: nat, prime: nat, ms: seq<Msg>, n: nat)
    requires lookAhead >= 1 && forall m | m in ms && m.IsData() :: !m.IsEmpty()
    requires n + lookAhead <= |DataOf(ms)|
    ensures multiset(DataOf(ms)[..n]) <= multiset(DataOf(Shuffle(lookAhead, prime, ms).out))
  {
    DeckRun(lookAhead, prime, ms);
    OldIsForwarded(Shuffle(lookAhead, prime, ms), DataOf(ms), n);
  }

  // When the j-th message is sent from its cell, all those lookAhead or more places before it have been, each as often.
  lemma OlderGoFirst(s: Shuffler, data: seq<Msg>, k: nat, j: nat)
    requires DeckInv(s, data) && Accounted(s, data) && Sits(s, data, k, j) && s.lookAhead <= j
    ensures Eject(s, k).out == s.out + [data[j]]
    ensures multiset(data[..j - s.lookAhead + 1]) <= multiset(DataOf(s.out))
  {
    assert data[j] in data;
    OldIsForwarded(s, data, j - s.lookAhead + 1);
  }
}
