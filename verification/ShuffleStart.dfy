// When the shuffler forwards the first message of a stream first, which is what the merge needs of it.
module ShuffleStart {
  import opened Messages
  import opened Residues
  import opened ShufflerSpec
  import M = MergeUndoesShuffle
  import MergeRuns
  import MergeSpec

  // Two of the first n data messages share a cell.
  ghost predicate Repeats(deck: nat, prime: nat, n: nat)
    requires deck >= 1
  {
    exists i: nat, j: nat :: i < j < n && Cell(deck, prime, i) == Cell(deck, prime, j)
  }

  // No cell comes before the cell of the first data message.
  ghost predicate FirstCellLeast(deck: nat, prime: nat, n: nat)
    requires deck >= 1
  {
    forall i: nat | i < n :: Cell(deck, prime, 0) <= Cell(deck, prime, i)
  }

  // The cells run round a cycle: a cell met again means that the cell of the first message was met again before.
  lemma CellCycle(deck: nat, prime: nat, i: nat, n: nat)
    requires deck >= 1 && i < n && Cell(deck, prime, i) == Cell(deck, prime, n)
    ensures Cell(deck, prime, n - i) == Cell(deck, prime, 0)
  {
    var a, b, c := (i + 1) * prime, (n + 1) * prime, (n - i + 1) * prime;
    assert c == b - a + prime && b >= a by {
      assert (n + 1) * prime == (i + 1) * prime + (n - i) * prime;
      assert c == (n - i) * prime + prime;
    }
    var k := SameCellGap(a, b, deck);
    ShiftCell(prime, k, deck);
  }

  // Before the first flush the deck forwards nothing until a cell repeats, and then the first message.
  ghost predicate Started(s: Shuffler, run: seq<Msg>) {
    && DeckInv(s, run)
    && (DataOf(s.out) == [] <==> !Repeats(s.lookAhead, s.prime, |run|))
    && (DataOf(s.out) != [] ==> run != [] && DataOf(s.out)[0] == run[0])
  }

  lemma {:induction false} RunStarts(deck: nat, prime: nat, lead: seq<Msg>, run: seq<Msg>)
    requires deck >= 1 && (forall m | m in lead :: !m.IsData()) && M.Contiguous(run)
    ensures Started(Shuffle(deck, prime, lead + run), run)
    decreases |run|
  {
    if run == [] {
      LeadStarts(deck, prime, lead);
      assert lead + run == lead;
    } else {
      var front, m := run[..|run| - 1], run[|run| - 1];
      var all := lead + run;
      assert all[..|all| - 1] == lead + front && all[|all| - 1] == m;
      RunStarts(deck, prime, lead, front);
      assert run == front + [m];
      DealStarts(Shuffle(deck, prime, lead + front), front, m);
    }
  }

  lemma LeadStarts(deck: nat, prime: nat, lead: seq<Msg>)
    requires deck >= 1 && forall m | m in lead :: !m.IsData()
    ensures Started(Shuffle(deck, prime, lead), [])
  {
    LeadPasses(deck, prime, lead);
    NoData(lead);
    DeckRun(deck, prime, lead);
  }

  lemma OnlyRunIsData(lead: seq<Msg>, run: seq<Msg>)
    requires (forall m | m in lead :: !m.IsData()) && (forall m | m in run :: m.IsData())
    ensures DataOf(lead + run) == run
  {
    DataOfJoin(lead, run);
    NoData(lead);
    AllData(run);
  }

  lemma {:induction false} AllData(run: seq<Msg>)
    requires forall m | m in run :: m.IsData()
    ensures DataOf(run) == run
    decreases |run|
  {
    if run == [] {
    } else {
      AllData(run[..|run| - 1]);
      assert run[|run| - 1] in run;
    }
  }

  lemma LeadPasses(deck: nat, prime: nat, lead: seq<Msg>)
    requires deck >= 1 && forall m | m in lead :: !m.IsData()
    ensures DataOf(Shuffle(deck, prime, lead).out) == []
  {
    M.ForwardedWasReceived(deck, prime, lead);
    var out := Shuffle(deck, prime, lead).out;
    DataIn(out);
    if DataOf(out) != [] {
      assert DataOf(out)[0] in DataOf(out);
    }
  }

  lemma DealStarts(s: Shuffler, front: seq<Msg>, m: Msg)
    requires Started(s, front) && M.Contiguous(front + [m])
    ensures Started(Deal(s, m), front + [m])
  {
    var n := |front|;
    var c := Cell(s.lookAhead, s.prime, n);
    assert s.position + s.prime == (n + 1) * s.prime;
    assert (front + [m])[n] == m;
    DealKeepsDeck(s, front, m);
    RepeatsGrows(s.lookAhead, s.prime, n);
    if s.deck[c].IsEmpty() {
      CellNew(s, front, m);
    } else {
      assert Held(s, front, c);
      var i: nat :| Sits(s, front, c, i);
      DealEjects(s, front, m, c, i);
    }
  }

  lemma RepeatsGrows(deck: nat, prime: nat, n: nat)
    requires deck >= 1
    ensures Repeats(deck, prime, n + 1) <==>
      Repeats(deck, prime, n) || exists i: nat :: i < n && Cell(deck, prime, i) == Cell(deck, prime, n)
  {
  }

  // An empty cell in a deck that has forwarded nothing has not been used.
  lemma CellNew(s: Shuffler, front: seq<Msg>, m: Msg)
    requires DeckInv(s, front) && M.Contiguous(front + [m])
    requires s.deck[Cell(s.lookAhead, s.prime, |front|)].IsEmpty()
    ensures DataOf(s.out) == [] ==>
      forall i: nat | i < |front| :: Cell(s.lookAhead, s.prime, i) != Cell(s.lookAhead, s.prime, |front|)
  {
    DataIn(s.out);
    forall i: nat | i < |front| && DataOf(s.out) == []
      ensures Cell(s.lookAhead, s.prime, i) != Cell(s.lookAhead, s.prime, |front|)
    {
      assert (front + [m])[i] == front[i] && Passed(s, front, i) && front[i] in front;
    }
  }

  lemma DealEjects(s: Shuffler, front: seq<Msg>, m: Msg, c: nat, i: nat)
    requires DeckInv(s, front) && M.Contiguous(front + [m])
    requires DataOf(s.out) == [] <==> !Repeats(s.lookAhead, s.prime, |front|)
    requires c == Cell(s.lookAhead, s.prime, |front|) && Sits(s, front, c, i)
    ensures DataOf(s.out + [s.deck[c]]) == DataOf(s.out) + [front[i]] && Repeats(s.lookAhead, s.prime, |front| + 1)
    ensures DataOf(s.out) == [] ==> i == 0
  {
    DataOfAppend(s.out, front[i]);
    assert (front + [m])[i] == front[i];
    if i > 0 {
      CellCycle(s.lookAhead, s.prime, i, |front|);
    }
  }

  // The first nonempty cell is the first sent by a flush.
  lemma {:induction false} FlushStarts(s: Shuffler, k: nat, c: nat)
    requires k <= c < |s.deck| && !s.deck[c].IsEmpty() && s.deck[c].IsData()
    requires forall i: nat | k <= i < c :: s.deck[i].IsEmpty()
    requires DataOf(s.out) == []
    ensures DataOf(FlushFrom(s, k).out) != [] && DataOf(FlushFrom(s, k).out)[0] == s.deck[c]
    decreases c - k
  {
    if k < c {
      FlushStarts(s, k + 1, c);
    } else {
      FlushShape(Eject(s, k), k + 1);
      DataOfAppend(s.out, s.deck[c]);
      StartKept(Eject(s, k).out, FlushFrom(s, k).out);
    }
  }

  // The stream starts with run, nothing but heartbeats and shutdowns before it, and either ends there or
  // goes on with a heartbeat or shutdown. The first message forwarded is the first of the stream exactly when
  // nothing flushes the deck after the run, two messages of the run share a cell, or the first message lies
  // in the least cell.
  lemma StartsRightExactly(deck: nat, prime: nat, lead: seq<Msg>, run: seq<Msg>, rest: seq<Msg>)
    requires deck >= 1 && run != [] && (forall m | m in lead :: !m.IsData()) && M.Contiguous(run)
    requires rest != [] ==> !rest[0].IsData()
    requires M.Contiguous(DataOf(lead + run + rest))
    ensures M.StartsRight(lead + run + rest, Shuffle(deck, prime, lead + run + rest).out) <==>
      rest == [] || Repeats(deck, prime, |run|) || FirstCellLeast(deck, prime, |run|)
  {
    var s := Shuffle(deck, prime, lead + run);
    RunStarts(deck, prime, lead, run);
    FirstOfAll(lead, run, rest);
    if rest == [] {
      assert lead + run + rest == lead + run;
    } else if Repeats(deck, prime, |run|) {
      OutGrows(deck, prime, lead + run, rest);
      StartKept(s.out, Shuffle(deck, prime, lead + run + rest).out);
    } else {
      FlushOfRun(deck, prime, s, run);
      FlushDecides(deck, prime, lead + run, rest);
    }
  }

  // The same condition, which can be checked before the stream is sent, decides whether the merge undoes the shuffle.
  lemma UndoneExactlyWhen(
    deck: nat, prime: nat, lookAhead: nat, maxDelay: nat, lead: seq<Msg>, run: seq<Msg>, rest: seq<Msg>)
    requires 1 <= deck <= lookAhead && run != [] && (forall m | m in lead :: !m.IsData()) && M.Contiguous(run)
    requires rest != [] ==> !rest[0].IsData()
    requires M.Contiguous(DataOf(lead + run + rest))
    ensures M.Undone(lookAhead, maxDelay, lead + run + rest, Shuffle(deck, prime, lead + run + rest).out) <==>
      rest == [] || Repeats(deck, prime, |run|) || FirstCellLeast(deck, prime, |run|)
  {
    StartsRightExactly(deck, prime, lead, run, rest);
    M.UndoneExactly(deck, prime, lookAhead, maxDelay, lead + run + rest);
  }

  // Every stream with data in it has this form: control messages, a run of data, and the rest.
  lemma EveryStreamSplits(inputs: seq<Msg>) returns (lead: seq<Msg>, run: seq<Msg>, rest: seq<Msg>)
    requires DataOf(inputs) != [] && M.Contiguous(DataOf(inputs))
    ensures inputs == lead + run + rest && run != [] && (forall m | m in lead :: !m.IsData())
    ensures M.Contiguous(run) && (rest != [] ==> !rest[0].IsData())
  {
    var i := FirstWith(inputs, 0, true);
    var j := FirstWith(inputs, i, false);
    lead, run, rest := inputs[..i], inputs[i..j], inputs[j..];
    assert inputs == lead + run + rest;
    if run == [] {
      assert i == |inputs|;
      NoData(inputs);
      assert false;
    }
    OnlyRunIsData(lead, run);
    DataOfJoin(lead + run, rest);
    assert run == DataOf(inputs)[..|run|];
  }

  // The first place from i on with a data message, or with a control message.
  lemma {:induction false} FirstWith(ms: seq<Msg>, i: nat, data: bool) returns (j: nat)
    requires i <= |ms|
    ensures i <= j <= |ms| && (forall k: nat | i <= k < j :: ms[k].IsData() != data)
    ensures j < |ms| ==> ms[j].IsData() == data
    decreases |ms| - i
  {
    if i == |ms| || ms[i].IsData() == data {
      j := i;
    } else {
      j := FirstWith(ms, i + 1, data);
    }
  }

  lemma FirstOfAll(lead: seq<Msg>, run: seq<Msg>, rest: seq<Msg>)
    requires run != [] && (forall m | m in lead :: !m.IsData()) && (forall m | m in run :: m.IsData())
    ensures DataOf(lead + run + rest) != [] && DataOf(lead + run + rest)[0] == run[0]
  {
    OnlyRunIsData(lead, run);
    DataOfJoin(lead + run, rest);
  }

  // What the flush at the head of rest forwards first stays first.
  lemma FlushDecides(deck: nat, prime: nat, begun: seq<Msg>, rest: seq<Msg>)
    requires deck >= 1 && rest != [] && !rest[0].IsData()
    requires DataOf(FlushFrom(Shuffle(deck, prime, begun), 0).out) != []
    ensures var out := Shuffle(deck, prime, begun + rest).out;
            DataOf(out) != [] && DataOf(out)[0] == DataOf(FlushFrom(Shuffle(deck, prime, begun), 0).out)[0]
  {
    var with := begun + [rest[0]];
    assert begun + rest == with + rest[1..] && with[..|begun|] == begun;
    OutGrows(deck, prime, with, rest[1..]);
    DataOfAppend(FlushFrom(Shuffle(deck, prime, begun), 0).out, rest[0]);
    StartKept(Shuffle(deck, prime, with).out, Shuffle(deck, prime, begun + rest).out);
  }

  lemma StartKept(early: seq<Msg>, late: seq<Msg>)
    requires early <= late && DataOf(early) != []
    ensures DataOf(late) != [] && DataOf(late)[0] == DataOf(early)[0]
  {
    assert late == early + late[|early|..];
    DataOfJoin(early, late[|early|..]);
  }

  lemma {:induction false} OutGrows(deck: nat, prime: nat, ms: seq<Msg>, more: seq<Msg>)
    requires deck >= 1
    ensures Shuffle(deck, prime, ms).out <= Shuffle(deck, prime, ms + more).out
    decreases |more|
  {
    if more == [] {
      assert ms + more == ms;
    } else {
      var all := ms + more;
      assert all[..|all| - 1] == ms + more[..|more| - 1];
      OutGrows(deck, prime, ms, more[..|more| - 1]);
      FlushShape(Shuffle(deck, prime, all[..|all| - 1]), 0);
    }
  }

  // A deck that has forwarded nothing yet and is flushed sends the message in its least cell first.
  lemma FlushOfRun(deck: nat, prime: nat, s: Shuffler, run: seq<Msg>)
    requires DeckInv(s, run) && s.lookAhead == deck && s.prime == prime && run != [] && M.Contiguous(run)
    requires DataOf(s.out) == [] && !Repeats(deck, prime, |run|)
    ensures DataOf(FlushFrom(s, 0).out) != []
    ensures DataOf(FlushFrom(s, 0).out)[0] == run[0] <==> FirstCellLeast(deck, prime, |run|)
  {
    DataIn(s.out);
    var least := LeastCell(deck, prime, |run|);
    var c := Cell(deck, prime, least);
    forall i: nat | i < |run| ensures Sits(s, run, Cell(deck, prime, i), i) {
      assert run[i].IsData() && Passed(s, run, i);
    }
    forall k: nat | k < c ensures s.deck[k].IsEmpty() {
      assert Held(s, run, k);
    }
    assert Sits(s, run, c, least) && run[least].IsData();
    FlushStarts(s, 0, c);
    if least != 0 {
      assert run[least].sequence == run[0].sequence + least;
    }
  }

  lemma {:induction false} LeastCell(deck: nat, prime: nat, n: nat) returns (least: nat)
    requires deck >= 1 && n >= 1
    ensures least < n && forall i: nat | i < n :: Cell(deck, prime, least) <= Cell(deck, prime, i)
    ensures Cell(deck, prime, least) == Cell(deck, prime, 0) ==> least == 0
    decreases n
  {
    least := 0;
    if n > 1 {
      var before := LeastCell(deck, prime, n - 1);
      least := if Cell(deck, prime, n - 1) < Cell(deck, prime, before) then n - 1 else before;
    }
  }

  // A heartbeat that comes too early turns the stream round: with a deck of 3 and the prime 2 it makes the merge
  // take the second message for the first, and the first is dropped.
  lemma EarlyHeartbeatLoses()
    ensures var one, two, hb := Msg(Other, 1, [1]), Msg(Other, 2, [1]), Msg(Heartbeat, 0, []);
            && M.Contiguous([one, two])
            && Shuffle(3, 2, [one, two, hb]).out == [two, one, hb]
            && MergeRuns.InWindow(3, 1, [two, one, hb])
            && MergeRuns.After(3, 1, [two, one, hb]).out == [MergeSpec.Sent(two), MergeSpec.Sent(hb)]
  {
    var one, two, hb := Msg(Other, 1, [1]), Msg(Other, 2, [1]), Msg(Heartbeat, 0, []);
    TurnedRound(one, two, hb);
    DroppedByMerge(one, two, hb);
  }

  lemma TurnedRound(one: Msg, two: Msg, hb: Msg)
    requires one.IsData() && !one.IsEmpty() && two.IsData() && !two.IsEmpty() && !hb.IsData()
    ensures Shuffle(3, 2, [one, two, hb]).out == [two, one, hb]
  {
    assert [one, two, hb][..2] == [one, two] && [one, two][..1] == [one] && [one][..0] == [];
    assert Shuffle(3, 2, [one]) == Shuffler(3, 2, 2, [BLANK, BLANK, one], []);
    assert Shuffle(3, 2, [one, two]) == Shuffler(3, 2, 4, [BLANK, two, one], []);
    var s := Shuffle(3, 2, [one, two]);
    assert FlushFrom(s, 0) == FlushFrom(s, 1) == FlushFrom(Eject(s, 1), 2) == FlushFrom(Eject(Eject(s, 1), 2), 3);
  }

  lemma DroppedByMerge(one: Msg, two: Msg, hb: Msg)
    requires one == Msg(Other, 1, [1]) && two == Msg(Other, 2, [1]) && hb == Msg(Heartbeat, 0, [])
    ensures MergeRuns.InWindow(3, 1, [two, one, hb])
    ensures MergeRuns.After(3, 1, [two, one, hb]).out == [MergeSpec.Sent(two), MergeSpec.Sent(hb)]
  {
    assert [two, one, hb][..2] == [two, one] && [two, one][..1] == [two] && [two][..0] == [];
    MergeRuns.FreshGood(3, 1);
    var g := MergeSpec.Fresh(3, 1);
    assert MergeRuns.After(3, 1, [two]) == g.(expected := 3, highest := 2, out := [MergeSpec.Sent(two)]);
    assert MergeRuns.After(3, 1, [two, one]) == MergeRuns.After(3, 1, [two]);
  }
}
