// The merge is the inverse of the shuffler: a shuffled stream comes out of the merge as it went in.
module MergeUndoesShuffle {
  import opened Messages
  import opened MergeSpec
  import opened MergeWindow
  import opened MergeRuns
  import opened ShufflerSpec

  // The log of a merge that just passes everything on.
  function Echo(ms: seq<Msg>): seq<Event> {
    seq(|ms|, i requires 0 <= i < |ms| => Sent(ms[i]))
  }

  // The data messages are nonempty and numbered one after the other.
  predicate Contiguous(data: seq<Msg>) {
    forall i: nat | i < |data| :: data[i].IsData() && !data[i].IsEmpty() && data[i].sequence == data[0].sequence + i
  }

  // The message is the one of the stream with its number.
  predicate FromStream(data: seq<Msg>, m: Msg) {
    data != [] && data[0].sequence <= m.sequence < data[0].sequence + |data| && m == data[m.sequence - data[0].sequence]
  }

  // How many messages of the stream the merge has sent.
  function Progress(g: Merge, data: seq<Msg>): int {
    if g.expected == 0 || data == [] then 0 else g.expected - data[0].sequence
  }

  // ---- the merge between two flushes ----

  // The merge has sent the first messages of the stream and stashes only messages of the stream.
  ghost predicate Follows(g: Merge, data: seq<Msg>) {
    && Good(g)
    && 0 <= Progress(g, data) <= |data|
    && (g.expected > 0 ==> data != [])
    && (forall i: nat | i < g.lookAhead && !g.pending[i].IsEmpty() :: FromStream(data, g.pending[i]))
  }

  // Sends that cover a range of numbers with messages of the stream are that part of the stream.
  lemma {:induction false} CoverIsStream(news: seq<Event>, data: seq<Msg>, a: nat, b: nat)
    requires Contiguous(data) && data != [] && Tiles(news, a, b) && data[0].sequence <= a
    requires forall e | e in news :: e.Sent? && FromStream(data, e.m)
    ensures a <= b && (a < b ==> b - data[0].sequence <= |data|)
    ensures a <= data[0].sequence + |data| ==>
      b - data[0].sequence <= |data| && news == Echo(data[a - data[0].sequence..b - data[0].sequence])
    decreases |news|
  {
    var first := data[0].sequence;
    if news == [] {
    } else {
      var front, last := news[..|news| - 1], news[|news| - 1];
      assert last in news;
      CoverIsStream(front, data, a, last.m.sequence);
      if a <= first + |data| {
        assert data[a - first..b - first] == data[a - first..b - first - 1] + [last.m];
      }
    }
  }

  // One more message of the stream reaches the merge: it sends the next part of the stream.
  lemma ForwardInOrder(g: Merge, data: seq<Msg>, x: Msg)
    requires Contiguous(data) && Follows(g, data) && FromStream(data, x) && Fits(g, x) && InOrder(g, x)
    requires g.expected == 0 ==> x == data[0]
    ensures var r := DataStep(g, x);
            && Follows(r, data) && Progress(g, data) < Progress(r, data)
            && r.out == g.out + Echo(data[Progress(g, data)..Progress(r, data)])
  {
    var r := DataStep(g, x);
    var news := InOrderSends(g, data, x);
    var p, q := Progress(g, data), Progress(r, data);
    assert data[p] == x;
    assert data[p..q] == [x] + data[p + 1..q];
    EchoJoin([x], data[p + 1..q]);
    assert Echo([x]) == [Sent(x)];
    assert g.out + [Sent(x)] + news == g.out + ([Sent(x)] + news);
  }

  // What it sends after the message itself is the stream up to where it stops.
  lemma InOrderSends(g: Merge, data: seq<Msg>, x: Msg) returns (news: seq<Event>)
    requires Contiguous(data) && Follows(g, data) && FromStream(data, x) && Fits(g, x) && InOrder(g, x)
    requires g.expected == 0 ==> x == data[0]
    ensures var r := DataStep(g, x);
            && r.out == g.out + [Sent(x)] + news
            && Follows(r, data) && Progress(g, data) < Progress(r, data)
            && news == Echo(data[Progress(g, data) + 1..Progress(r, data)])
  {
    news := InOrderEffect(g, x);
    AdvanceFollows(Arrived(g, x), DataStep(g, x), data, news);
  }

  lemma AdvanceFollows(t: Merge, r: Merge, data: seq<Msg>, news: seq<Event>)
    requires Contiguous(data) && data != [] && Advances(t, r, news) && forall e | e in news :: e.Sent?
    requires forall i: nat | i < t.lookAhead && !t.pending[i].IsEmpty() :: FromStream(data, t.pending[i])
    requires data[0].sequence < t.expected <= data[0].sequence + |data|
    ensures forall i: nat | i < r.lookAhead && !r.pending[i].IsEmpty() :: FromStream(data, r.pending[i])
    ensures t.expected <= r.expected <= data[0].sequence + |data|
    ensures news == Echo(data[t.expected - data[0].sequence..r.expected - data[0].sequence])
  {
    forall e | e in news ensures e.Sent? && FromStream(data, e.m) {
      var i: nat :| i < |t.pending| && t.pending[i] == e.m;
    }
    CoverIsStream(news, data, t.expected, r.expected);
  }

  lemma EchoJoin(a: seq<Msg>, b: seq<Msg>)
    ensures Echo(a + b) == Echo(a) + Echo(b)
  {
  }

  lemma ForwardOne(g: Merge, data: seq<Msg>, x: Msg)
    requires Contiguous(data) && Follows(g, data) && FromStream(data, x) && Fits(g, x)
    requires g.expected == 0 ==> x == data[0]
    ensures var r := Step(g, x);
            && Follows(r, data) && r.expected > 0
            && Progress(g, data) <= Progress(r, data)
            && r.out == g.out + Echo(data[Progress(g, data)..Progress(r, data)])
  {
    if InOrder(g, x) {
      ForwardInOrder(g, data, x);
    } else {
      if x.sequence > g.expected {
        StashEffect(g, x);
      }
      assert Echo(data[Progress(g, data)..Progress(g, data)]) == [];
    }
  }

  // What the merge has sent so far is a beginning of the inputs, and the rest of them is data.
  ghost predicate Sending(g: Merge, inputs: seq<Msg>, sent: nat) {
    var data := DataOf(inputs);
    && Contiguous(data) && Follows(g, data)
    && sent <= |inputs| && g.out == Echo(inputs[..sent])
    && inputs[sent..] == data[Progress(g, data)..]
  }

  lemma SendMore(g: Merge, inputs: seq<Msg>, sent: nat, x: Msg) returns (sent': nat)
    requires Sending(g, inputs, sent) && FromStream(DataOf(inputs), x) && Fits(g, x)
    requires g.expected == 0 ==> x == DataOf(inputs)[0]
    ensures Sending(Step(g, x), inputs, sent') && Step(g, x).expected > 0
  {
    var data := DataOf(inputs);
    ForwardOne(g, data, x);
    var p, q := Progress(g, data), Progress(Step(g, x), data);
    Splice(inputs, sent, data, p, q);
    EchoJoin(inputs[..sent], data[p..q]);
    sent' := sent + (q - p);
  }

  lemma Splice(inputs: seq<Msg>, sent: nat, data: seq<Msg>, p: nat, q: nat)
    requires sent <= |inputs| && p <= q <= |data| && inputs[sent..] == data[p..]
    ensures sent + (q - p) <= |inputs|
    ensures inputs[..sent + (q - p)] == inputs[..sent] + data[p..q]
    ensures inputs[sent + (q - p)..] == data[q..]
  {
    var rest := inputs[sent..];
    assert |rest| == |data| - p;
    assert data[p..q] == rest[..q - p];
    assert inputs[sent + (q - p)..] == rest[q - p..] == data[q..];
    assert inputs[..sent + (q - p)] == inputs[..sent] + rest[..q - p];
  }

  // ---- what is kept of a stream ----

  // The stream without the data messages numbered below first.
  function Kept(ms: seq<Msg>, first: nat): seq<Msg> {
    if ms == [] then []
    else
      var rest, last := Kept(ms[..|ms| - 1], first), ms[|ms| - 1];
      if last.IsData() && last.sequence < first then rest else rest + [last]
  }

  lemma KeptAppend(ms: seq<Msg>, m: Msg, first: nat)
    ensures Kept(ms + [m], first) == if m.IsData() && m.sequence < first then Kept(ms, first) else Kept(ms, first) + [m]
  {
    assert (ms + [m])[..|ms|] == ms;
  }

  // How many of the stream's data messages that leaves out.
  function Below(data: seq<Msg>, first: nat): (n: nat)
    ensures n <= |data|
  {
    if data == [] || first <= data[0].sequence then 0
    else if first - data[0].sequence >= |data| then |data|
    else first - data[0].sequence
  }

  lemma {:induction false} KeptData(ms: seq<Msg>, first: nat)
    requires Contiguous(DataOf(ms))
    ensures DataOf(Kept(ms, first)) == DataOf(ms)[Below(DataOf(ms), first)..]
    decreases |ms|
  {
    if ms == [] {
    } else {
      var front, m := ms[..|ms| - 1], ms[|ms| - 1];
      var data := DataOf(front);
      assert ms == front + [m];
      assert DataOf(ms)[..|data|] == data;
      KeptData(front, first);
      KeptAppend(front, m, first);
      DataOfAppend(Kept(front, first), m);
      if m.IsData() { BelowAppend(data, m, first); }
    }
  }

  lemma BelowAppend(data: seq<Msg>, m: Msg, first: nat)
    requires Contiguous(data + [m])
    ensures (data + [m])[Below(data + [m], first)..] ==
      if m.sequence < first then data[Below(data, first)..] else data[Below(data, first)..] + [m]
  {
    assert (data + [m])[|data|] == m;
    if data != [] { assert (data + [m])[0] == data[0]; }
  }

  // The data that is kept is numbered from the first or later, one after the other.
  lemma KeptStream(ms: seq<Msg>, first: nat)
    requires Contiguous(DataOf(ms))
    ensures Contiguous(DataOf(Kept(ms, first)))
    ensures forall x | FromStream(DataOf(ms), x) && first <= x.sequence :: FromStream(DataOf(Kept(ms, first)), x)
    ensures forall x | FromStream(DataOf(ms), x) && first == x.sequence ::
      DataOf(Kept(ms, first)) != [] && DataOf(Kept(ms, first))[0] == x
  {
    KeptData(ms, first);
  }

  // Nothing is left out if the first is the first of the stream, or before it.
  lemma {:induction false} KeptAll(ms: seq<Msg>, first: nat)
    requires forall m | m in DataOf(ms) :: first <= m.sequence
    ensures Kept(ms, first) == ms
    decreases |ms|
  {
    if ms == [] {
    } else {
      var front, m := ms[..|ms| - 1], ms[|ms| - 1];
      assert ms == front + [m];
      DataIn(ms);
      DataIn(front);
      KeptAll(front, first);
    }
  }

  // ---- the two steps together ----

  // The data messages received are a stream, and what has been forwarded is of it and inside the window of the merge.
  ghost predicate Fitting(lookAhead: nat, maxDelay: nat, data: seq<Msg>, s: Shuffler)
    requires lookAhead >= 1
  {
    && s.lookAhead <= lookAhead && Contiguous(data) && DeckInv(s, data)
    && InWindow(lookAhead, maxDelay, s.out)
    && forall m | m in DataOf(s.out) :: FromStream(data, m)
  }

  // The merge has taken what the shuffler has forwarded, and sent the first of what is kept of the inputs.
  ghost predicate Paired(lookAhead: nat, maxDelay: nat, inputs: seq<Msg>, first: nat, s: Shuffler, sent: nat)
    requires lookAhead >= 1
  {
    && Fitting(lookAhead, maxDelay, DataOf(inputs), s)
    && Sending(After(lookAhead, maxDelay, s.out), Kept(inputs, first), sent)
  }

  // The first data message forwarded, if any, has this number.
  predicate FirstIs(first: nat, out: seq<Msg>) {
    DataOf(out) == [] || DataOf(out)[0].sequence == first
  }

  lemma FirstEarlier(first: nat, early: seq<Msg>, late: seq<Msg>)
    requires early <= late && FirstIs(first, late)
    ensures FirstIs(first, early)
  {
    assert late == early + late[|early|..];
    DataOfJoin(early, late[|early|..]);
  }

  lemma ExpectedNotSeen(lookAhead: nat, maxDelay: nat, ms: seq<Msg>, m: Msg)
    requires lookAhead >= 1 && InWindow(lookAhead, maxDelay, ms) && m in ms && m.IsData()
    ensures m.sequence != After(lookAhead, maxDelay, ms).expected
  {
    DataIn(ms);
    RunAccounts(lookAhead, maxDelay, ms);
  }

  // Once the merge has sent something, it expects a number behind the first it was sent.
  lemma ExpectedBehindFirst(lookAhead: nat, maxDelay: nat, ms: seq<Msg>)
    requires lookAhead >= 1 && InWindow(lookAhead, maxDelay, ms) && DataOf(ms) != []
    ensures DataOf(ms)[0].sequence <= After(lookAhead, maxDelay, ms).expected
      && After(lookAhead, maxDelay, ms).expected > 0
  {
    var g := After(lookAhead, maxDelay, ms);
    RunAccounts(lookAhead, maxDelay, ms);
    TilesPartition(g.out, DataOf(ms)[0].sequence, g.expected);
  }

  // Every message lookAhead or more places back has reached the merge, so what is forwarded now is inside its window,
  // whatever was forwarded first.
  lemma EjectedFits(lookAhead: nat, maxDelay: nat, data: seq<Msg>, s: Shuffler, k: nat)
    requires lookAhead >= 1 && Fitting(lookAhead, maxDelay, data, s) && k < s.lookAhead && !s.deck[k].IsEmpty()
    ensures FromStream(data, s.deck[k]) && Fits(After(lookAhead, maxDelay, s.out), s.deck[k])
  {
    var expected := After(lookAhead, maxDelay, s.out).expected;
    assert Held(s, data, k);
    var i: nat :| Sits(s, data, k, i);
    if expected > 0 {
      ExpectedOfStream(lookAhead, maxDelay, data, s.out);
      var j := expected - data[0].sequence;
      assert Passed(s, data, j);
      NotFarAhead(lookAhead, maxDelay, data, s, i, j);
    }
  }

  lemma ExpectedOfStream(lookAhead: nat, maxDelay: nat, data: seq<Msg>, out: seq<Msg>)
    requires lookAhead >= 1 && InWindow(lookAhead, maxDelay, out) && After(lookAhead, maxDelay, out).expected > 0
    requires forall m | m in DataOf(out) :: FromStream(data, m)
    ensures data != [] && data[0].sequence <= After(lookAhead, maxDelay, out).expected
  {
    RunAccounts(lookAhead, maxDelay, out);
    ExpectedBehindFirst(lookAhead, maxDelay, out);
    assert FromStream(data, DataOf(out)[0]);
  }

  lemma NotFarAhead(lookAhead: nat, maxDelay: nat, data: seq<Msg>, s: Shuffler, i: nat, j: nat)
    requires lookAhead >= s.lookAhead && s.Shape() && InWindow(lookAhead, maxDelay, s.out)
    requires Contiguous(data) && i < |data| && (j < |data| ==> Passed(s, data, j))
    requires j < |data| ==> data[j].sequence == After(lookAhead, maxDelay, s.out).expected
    ensures i < j + lookAhead
  {
    if j + lookAhead <= i {
      ExpectedNotSeen(lookAhead, maxDelay, s.out, data[j]);
    }
  }

  lemma FittingEject(lookAhead: nat, maxDelay: nat, data: seq<Msg>, s: Shuffler, k: nat)
    requires lookAhead >= 1 && Fitting(lookAhead, maxDelay, data, s) && k < s.lookAhead
    ensures Fitting(lookAhead, maxDelay, data, Eject(s, k))
  {
    EjectKeepsDeck(s, data, k);
    if !s.deck[k].IsEmpty() {
      EjectedFits(lookAhead, maxDelay, data, s, k);
      DataOfAppend(s.out, s.deck[k]);
      AfterAppend(lookAhead, maxDelay, s.out, s.deck[k]);
    }
  }

  // A message numbered below the first that was forwarded is dropped.
  lemma DroppedBehind(g: Merge, x: Msg)
    requires Good(g) && x.IsData() && !x.IsEmpty() && g.expected > 0 && x.sequence < g.expected
    ensures Fits(g, x) && Step(g, x) == g
  {
  }

  // One message reaches the merge: it is dropped, or it is one of those kept.
  lemma KeptForward(g: Merge, inputs: seq<Msg>, first: nat, sent: nat, x: Msg) returns (sent': nat)
    requires Contiguous(DataOf(inputs)) && Sending(g, Kept(inputs, first), sent)
    requires FromStream(DataOf(inputs), x) && Fits(g, x)
    requires g.expected == 0 ==> x.sequence == first
    requires g.expected > 0 ==> first <= g.expected
    ensures Sending(Step(g, x), Kept(inputs, first), sent')
  {
    KeptStream(inputs, first);
    if x.sequence < first {
      DroppedBehind(g, x);
      sent' := sent;
    } else {
      sent' := SendMore(g, Kept(inputs, first), sent, x);
    }
  }

  // One cell is sent on.
  lemma PairedEject(lookAhead: nat, maxDelay: nat, inputs: seq<Msg>, first: nat, s: Shuffler, sent: nat, k: nat)
    returns (sent': nat)
    requires lookAhead >= 1 && Paired(lookAhead, maxDelay, inputs, first, s, sent) && k < s.lookAhead
    requires FirstIs(first, Eject(s, k).out)
    ensures Paired(lookAhead, maxDelay, inputs, first, Eject(s, k), sent')
  {
    FittingEject(lookAhead, maxDelay, DataOf(inputs), s, k);
    sent' := sent;
    if !s.deck[k].IsEmpty() {
      var g, x := After(lookAhead, maxDelay, s.out), s.deck[k];
      EjectedFits(lookAhead, maxDelay, DataOf(inputs), s, k);
      FirstWhenSent(lookAhead, maxDelay, first, s.out, x);
      sent' := KeptForward(g, inputs, first, sent, x);
      AfterAppend(lookAhead, maxDelay, s.out, x);
    }
  }

  lemma FirstWhenSent(lookAhead: nat, maxDelay: nat, first: nat, out: seq<Msg>, x: Msg)
    requires lookAhead >= 1 && InWindow(lookAhead, maxDelay, out) && x.IsData() && FirstIs(first, out + [x])
    ensures var g := After(lookAhead, maxDelay, out);
      if g.expected == 0 then x.sequence == first else first <= g.expected
  {
    DataOfAppend(out, x);
    RunAccounts(lookAhead, maxDelay, out);
    if DataOf(out) != [] { ExpectedBehindFirst(lookAhead, maxDelay, out); }
  }

  // The two steps are paired, or the first message forwarded was another.
  ghost predicate Flows(lookAhead: nat, maxDelay: nat, inputs: seq<Msg>, first: nat, s: Shuffler)
    requires lookAhead >= 1
  {
    FirstIs(first, s.out) ==> exists sent: nat :: Paired(lookAhead, maxDelay, inputs, first, s, sent)
  }

  lemma FlowsOn(lookAhead: nat, maxDelay: nat, inputs: seq<Msg>, first: nat, s: Shuffler, k: nat)
    requires lookAhead >= 1 && Flows(lookAhead, maxDelay, inputs, first, s) && k < |s.deck|
    ensures Flows(lookAhead, maxDelay, inputs, first, Eject(s, k))
  {
    if FirstIs(first, Eject(s, k).out) {
      FirstEarlier(first, s.out, Eject(s, k).out);
      var sent: nat :| Paired(lookAhead, maxDelay, inputs, first, s, sent);
      var sent' := PairedEject(lookAhead, maxDelay, inputs, first, s, sent, k);
    }
  }

  // The whole deck is sent on, in the order of the cells.
  lemma PairedFlush(lookAhead: nat, maxDelay: nat, inputs: seq<Msg>, first: nat, s: Shuffler, sent: nat)
    returns (sent': nat)
    requires lookAhead >= 1 && Paired(lookAhead, maxDelay, inputs, first, s, sent)
    requires FirstIs(first, FlushFrom(s, 0).out)
    ensures Paired(lookAhead, maxDelay, inputs, first, FlushFrom(s, 0), sent')
  {
    var inv := (t: Shuffler) => Flows(lookAhead, maxDelay, inputs, first, t);
    forall t: Shuffler, i: nat | i < |t.deck| && inv(t) ensures inv(Eject(t, i)) {
      FlowsOn(lookAhead, maxDelay, inputs, first, t, i);
    }
    FlushKeeps(inv, s, 0);
    sent' :| Paired(lookAhead, maxDelay, inputs, first, FlushFrom(s, 0), sent');
  }

  // With the deck empty the merge has sent all that is kept and holds nothing.
  lemma FlushedMeansDone(lookAhead: nat, maxDelay: nat, inputs: seq<Msg>, first: nat, s: Shuffler, sent: nat)
    requires lookAhead >= 1 && Paired(lookAhead, maxDelay, inputs, first, s, sent)
    requires forall k: nat | k < s.lookAhead :: s.deck[k].IsEmpty()
    ensures var kept := Kept(inputs, first);
      sent == |kept| && After(lookAhead, maxDelay, s.out).out == Echo(kept)
    ensures forall i: nat | i < lookAhead :: After(lookAhead, maxDelay, s.out).pending[i].IsEmpty()
  {
    var kept := Kept(inputs, first);
    var data, all := DataOf(kept), DataOf(inputs);
    var g := After(lookAhead, maxDelay, s.out);
    var j := Progress(g, data);
    KeptData(inputs, first);
    if j < |data| {
      assert data[j] == all[Below(all, first) + j] && data[j] in all && Passed(s, all, Below(all, first) + j);
      AllSent(lookAhead, maxDelay, s.out, g, data, j);
    }
    assert |kept[sent..]| == 0;
    assert kept[..sent] == kept;
  }

  // The message the merge expects next cannot have reached it.
  lemma AllSent(lookAhead: nat, maxDelay: nat, out: seq<Msg>, g: Merge, data: seq<Msg>, j: nat)
    requires lookAhead >= 1 && InWindow(lookAhead, maxDelay, out) && g == After(lookAhead, maxDelay, out)
    requires Contiguous(data) && j == Progress(g, data) < |data|
    ensures data[j] !in out
  {
    DataIn(out);
    RunAccounts(lookAhead, maxDelay, out);
    if data[j] in out {
      ExpectedNotSeen(lookAhead, maxDelay, out, data[j]);
    }
  }

  // A control message that reaches a merge with an empty stash is passed on and changes nothing else.
  lemma ControlPasses(g: Merge, m: Msg)
    requires Good(g) && !m.IsData() && forall i: nat | i < g.lookAhead :: g.pending[i].IsEmpty()
    ensures Good(Step(g, m)) && Step(g, m).out == g.out + [Sent(m)]
    ensures Step(g, m).expected == g.expected && Step(g, m).pending == g.pending
  {
    ControlEffect(g, m);
    var news := SettledEffect(g, m);
    NothingToAdvance(Base(g, m), Settled(g, m), news);
    FindGapShape(g);
    var _ := FindGapAdvances(g);
  }

  // A data message goes into the deck after the cell has been sent on.
  lemma PairedDeal(lookAhead: nat, maxDelay: nat, inputs: seq<Msg>, first: nat, s: Shuffler, sent: nat, m: Msg)
    returns (sent': nat)
    requires lookAhead >= 1 && Paired(lookAhead, maxDelay, inputs, first, s, sent)
    requires m.IsData() && Contiguous(DataOf(inputs) + [m]) && FirstIs(first, Deal(s, m).out)
    ensures Paired(lookAhead, maxDelay, inputs + [m], first, Deal(s, m), sent')
  {
    assert (DataOf(inputs) + [m])[|DataOf(inputs)|] == m;
    DealKeepsDeck(s, DataOf(inputs), m);
    var index := DealsInto(s, m);
    sent' := PairedEject(lookAhead, maxDelay, inputs, first, s, sent, index);
    PairedGrows(lookAhead, maxDelay, inputs, first, Eject(s, index), sent', m, Deal(s, m));
  }

  lemma DealsInto(s: Shuffler, m: Msg) returns (index: nat)
    requires s.Shape()
    ensures index < s.lookAhead && Deal(s, m).lookAhead == s.lookAhead && Deal(s, m).out == Eject(s, index).out
  {
    index := (s.position + s.prime) % s.lookAhead;
  }

  lemma PairedGrows(lookAhead: nat, maxDelay: nat, inputs: seq<Msg>, first: nat, e: Shuffler, sent: nat, m: Msg,
          d: Shuffler)
    requires lookAhead >= 1 && Paired(lookAhead, maxDelay, inputs, first, e, sent)
    requires m.IsData() && Contiguous(DataOf(inputs) + [m])
    requires d.lookAhead == e.lookAhead && d.out == e.out && DeckInv(d, DataOf(inputs) + [m])
    ensures Paired(lookAhead, maxDelay, inputs + [m], first, d, sent)
  {
    DataOfAppend(inputs, m);
    StreamGrows(DataOf(inputs), m);
    KeptAppend(inputs, m, first);
    if m.sequence >= first {
      KeptStream(inputs + [m], first);
      DataOfAppend(Kept(inputs, first), m);
      SendingGrows(After(lookAhead, maxDelay, e.out), Kept(inputs, first), sent, m);
    }
  }

  lemma StreamGrows(data: seq<Msg>, m: Msg)
    ensures forall x | FromStream(data, x) :: FromStream(data + [m], x)
  {
  }

  lemma SendingGrows(g: Merge, inputs: seq<Msg>, sent: nat, m: Msg)
    requires Sending(g, inputs, sent) && m.IsData() && Contiguous(DataOf(inputs) + [m])
    ensures Sending(g, inputs + [m], sent)
  {
    var data := DataOf(inputs);
    DataOfAppend(inputs, m);
    FollowsGrows(g, data, m);
    SliceGrows(inputs, sent, m);
    SliceGrows(data, Progress(g, data), m);
  }

  lemma FollowsGrows(g: Merge, data: seq<Msg>, m: Msg)
    requires Follows(g, data)
    ensures Follows(g, data + [m]) && Progress(g, data + [m]) == Progress(g, data)
  {
    StreamGrows(data, m);
  }

  lemma SliceGrows(ms: seq<Msg>, k: nat, m: Msg)
    requires k <= |ms|
    ensures (ms + [m])[..k] == ms[..k] && (ms + [m])[k..] == ms[k..] + [m]
  {
  }

  // A control message leaves nothing behind in either step.
  lemma PairedControl(lookAhead: nat, maxDelay: nat, inputs: seq<Msg>, first: nat, s: Shuffler, sent: nat, m: Msg)
    requires lookAhead >= 1 && Paired(lookAhead, maxDelay, inputs, first, s, sent)
    requires !m.IsData() && FirstIs(first, FlushFrom(s, 0).out)
    ensures Paired(lookAhead, maxDelay, inputs + [m], first, Shuffle1(s, m), |Kept(inputs + [m], first)|)
  {
    var f := FlushFrom(s, 0);
    FlushShape(s, 0);
    var done := PairedFlush(lookAhead, maxDelay, inputs, first, s, sent);
    FlushedMeansDone(lookAhead, maxDelay, inputs, first, f, done);
    ControlFollows(lookAhead, maxDelay, inputs, first, f, m);
  }

  // Both steps have nothing left: the control message goes through both.
  lemma ControlFollows(lookAhead: nat, maxDelay: nat, inputs: seq<Msg>, first: nat, f: Shuffler, m: Msg)
    requires lookAhead >= 1 && Paired(lookAhead, maxDelay, inputs, first, f, |Kept(inputs, first)|) && !m.IsData()
    requires forall i: nat | i < lookAhead :: After(lookAhead, maxDelay, f.out).pending[i].IsEmpty()
    ensures Paired(lookAhead, maxDelay, inputs + [m], first, f.(out := f.out + [m]), |Kept(inputs + [m], first)|)
  {
    var g := After(lookAhead, maxDelay, f.out);
    ControlPasses(g, m);
    AfterAppend(lookAhead, maxDelay, f.out, m);
    KeptAppend(inputs, m, first);
    ControlSends(g, Step(g, m), Kept(inputs, first), m);
    DataOfAppend(inputs, m);
    DataOfAppend(f.out, m);
    ControlKeepsDeck(f, DataOf(inputs), m);
  }

  lemma ControlSends(g: Merge, r: Merge, inputs: seq<Msg>, m: Msg)
    requires Sending(g, inputs, |inputs|) && !m.IsData() && Good(r)
    requires r.out == g.out + [Sent(m)] && r.expected == g.expected && r.pending == g.pending
      && r.lookAhead == g.lookAhead
    ensures Sending(r, inputs + [m], |inputs| + 1)
  {
    DataOfAppend(inputs, m);
    EchoAll(inputs);
    EchoAll(inputs + [m]);
    EchoJoin(inputs, [m]);
    assert Echo([m]) == [Sent(m)];
    assert (inputs + [m])[|inputs| + 1..] == inputs[|inputs|..];
  }

  lemma EchoAll(ms: seq<Msg>)
    ensures ms[..|ms|] == ms && Echo(ms[..|ms|]) == Echo(ms)
  {
  }

  lemma {:induction false} PairedRun(
    deck: nat, prime: nat, lookAhead: nat, maxDelay: nat, inputs: seq<Msg>, first: nat) returns (sent: nat)
    requires 1 <= deck <= lookAhead && Contiguous(DataOf(inputs))
    requires FirstIs(first, Shuffle(deck, prime, inputs).out)
    ensures Paired(lookAhead, maxDelay, inputs, first, Shuffle(deck, prime, inputs), sent)
    ensures inputs != [] && !inputs[|inputs| - 1].IsData() ==> sent == |Kept(inputs, first)|
    decreases |inputs|
  {
    if inputs == [] {
      sent := 0;
      FreshDeck(deck, prime);
      FreshGood(lookAhead, maxDelay);
    } else {
      var front, m := inputs[..|inputs| - 1], inputs[|inputs| - 1];
      var s := Shuffle(deck, prime, front);
      assert inputs == front + [m];
      DataOfAppend(front, m);
      assert Contiguous(DataOf(front)) by {
        assert DataOf(front) <= DataOf(inputs);
      }
      FlushShape(s, 0);
      FirstEarlier(first, s.out, Shuffle(deck, prime, inputs).out);
      var before := PairedRun(deck, prime, lookAhead, maxDelay, front, first);
      if m.IsData() {
        sent := PairedDeal(lookAhead, maxDelay, front, first, s, before, m);
      } else {
        FirstEarlier(first, FlushFrom(s, 0).out, Shuffle(deck, prime, inputs).out);
        PairedControl(lookAhead, maxDelay, front, first, s, before, m);
        sent := |Kept(inputs, first)|;
      }
    }
  }

  // What the shuffler has forwarded was received.
  lemma {:induction false} ForwardedWasReceived(deck: nat, prime: nat, ms: seq<Msg>)
    requires deck >= 1
    ensures forall m | m in Shuffle(deck, prime, ms).out :: m in ms
    ensures forall m | m in Shuffle(deck, prime, ms).deck :: m.IsEmpty() || m in ms
    decreases |ms|
  {
    if ms == [] {
    } else {
      var s := Shuffle(deck, prime, ms[..|ms| - 1]);
      ForwardedWasReceived(deck, prime, ms[..|ms| - 1]);
      assert ms == ms[..|ms| - 1] + [ms[|ms| - 1]];
      FlushMoves(s, 0);
      FlushShape(s, 0);
    }
  }

  lemma {:induction false} FlushMoves(s: Shuffler, k: nat)
    requires k <= |s.deck|
    ensures forall m | m in FlushFrom(s, k).out :: m in s.out || (m in s.deck && !m.IsEmpty())
    decreases |s.deck| - k
  {
    if k == |s.deck| {
    } else {
      FlushMoves(Eject(s, k), k + 1);
    }
  }

  // ---- the theorems ----

  // The number of the first data message of a run, or 0.
  function FirstNumber(out: seq<Msg>): nat {
    if DataOf(out) == [] then 0 else DataOf(out)[0].sequence
  }

  // A stream of data messages numbered one after the other, with heartbeats and shutdowns anywhere in it,
  // goes through a shuffler and then through a merge that looks at least as far ahead as the deck is deep.
  // No message is ever beyond the window and no gap is declared, whatever goes first. What is lost are the data
  // messages numbered below the first one forwarded, and no others: what comes out is at any moment a beginning of
  // the rest of the stream, and after every heartbeat or shutdown it is all of that, in the original order.
  lemma MergeKeepsTheRest(deck: nat, prime: nat, lookAhead: nat, maxDelay: nat, inputs: seq<Msg>)
    requires 1 <= deck <= lookAhead && Contiguous(DataOf(inputs))
    ensures var shuffled := Shuffle(deck, prime, inputs).out;
            && InWindow(lookAhead, maxDelay, shuffled)
            && var merged, kept := After(lookAhead, maxDelay, shuffled).out, Kept(inputs, FirstNumber(shuffled));
               && merged <= Echo(kept) && (forall e | e in merged :: e.Sent?)
               && (inputs != [] && !inputs[|inputs| - 1].IsData() ==> merged == Echo(kept))
  {
    var shuffled := Shuffle(deck, prime, inputs).out;
    var kept := Kept(inputs, FirstNumber(shuffled));
    var sent := PairedRun(deck, prime, lookAhead, maxDelay, inputs, FirstNumber(shuffled));
    EchoPart(kept, sent);
    EchoAll(kept);
  }

  // The first data message forwarded, if any, is the first received.
  predicate StartsRight(inputs: seq<Msg>, out: seq<Msg>) {
    DataOf(out) == [] || (DataOf(inputs) != [] && DataOf(out)[0] == DataOf(inputs)[0])
  }

  // So if the first data message forwarded is the first of the stream, all of it comes out.
  lemma MergeUndoesShuffle(deck: nat, prime: nat, lookAhead: nat, maxDelay: nat, inputs: seq<Msg>)
    requires 1 <= deck <= lookAhead && Contiguous(DataOf(inputs))
    requires StartsRight(inputs, Shuffle(deck, prime, inputs).out)
    ensures var shuffled := Shuffle(deck, prime, inputs).out;
            && InWindow(lookAhead, maxDelay, shuffled)
            && var merged := After(lookAhead, maxDelay, shuffled).out;
               && merged <= Echo(inputs)
               && (inputs != [] && !inputs[|inputs| - 1].IsData() ==> merged == Echo(inputs))
  {
    MergeKeepsTheRest(deck, prime, lookAhead, maxDelay, inputs);
    KeptAll(inputs, FirstNumber(Shuffle(deck, prime, inputs).out));
  }

  // What comes out is a beginning of what went in, with nothing beyond the window on the way, and all of it once the
  // stream has been flushed.
  ghost predicate Undone(lookAhead: nat, maxDelay: nat, inputs: seq<Msg>, shuffled: seq<Msg>)
    requires lookAhead >= 1
  {
    && InWindow(lookAhead, maxDelay, shuffled)
    && After(lookAhead, maxDelay, shuffled).out <= Echo(inputs)
    && (inputs != [] && !inputs[|inputs| - 1].IsData() ==> After(lookAhead, maxDelay, shuffled).out == Echo(inputs))
  }

  // The merge sends the first data message it gets as the first, so it cannot mend a stream that starts wrong.
  lemma UndoneStartsRight(lookAhead: nat, maxDelay: nat, inputs: seq<Msg>, shuffled: seq<Msg>)
    requires lookAhead >= 1 && InWindow(lookAhead, maxDelay, shuffled)
    requires After(lookAhead, maxDelay, shuffled).out <= Echo(inputs)
    ensures StartsRight(inputs, shuffled)
  {
    var out, data := After(lookAhead, maxDelay, shuffled).out, DataOf(shuffled);
    if data != [] {
      FirstDataOpens(lookAhead, maxDelay, shuffled);
      var i: nat :| i < |out| && out[i] == Sent(data[0]) && forall j: nat | j < i :: out[j].Sent? && !out[j].m.IsData();
      assert data[0] in data;
      DataIn(shuffled);
      forall j: nat | j <= i ensures out[j] == Sent(inputs[j]) {
        assert out[j] == Echo(inputs)[j];
      }
      FirstData(inputs, i);
    }
  }

  lemma FirstData(ms: seq<Msg>, i: nat)
    requires i < |ms| && ms[i].IsData() && forall j: nat | j < i :: !ms[j].IsData()
    ensures DataOf(ms) != [] && DataOf(ms)[0] == ms[i]
  {
    assert ms == ms[..i] + [ms[i]] + ms[i + 1..];
    DataOfJoin(ms[..i] + [ms[i]], ms[i + 1..]);
    DataOfAppend(ms[..i], ms[i]);
    NoData(ms[..i]);
  }

  // The merge undoes the shuffle exactly if the first data message forwarded is the first of the stream.
  lemma UndoneExactly(deck: nat, prime: nat, lookAhead: nat, maxDelay: nat, inputs: seq<Msg>)
    requires 1 <= deck <= lookAhead && Contiguous(DataOf(inputs))
    ensures var shuffled := Shuffle(deck, prime, inputs).out;
            Undone(lookAhead, maxDelay, inputs, shuffled) <==> StartsRight(inputs, shuffled)
  {
    var shuffled := Shuffle(deck, prime, inputs).out;
    if StartsRight(inputs, shuffled) {
      MergeUndoesShuffle(deck, prime, lookAhead, maxDelay, inputs);
    }
    if Undone(lookAhead, maxDelay, inputs, shuffled) {
      UndoneStartsRight(lookAhead, maxDelay, inputs, shuffled);
    }
  }

  lemma EchoPart(ms: seq<Msg>, k: nat)
    requires k <= |ms|
    ensures Echo(ms[..k]) <= Echo(ms)
  {
  }
}
