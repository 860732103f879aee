// Whole runs of the merge: what the log, the stash and the counters say after any inputs.
module MergeRuns {
  import opened Messages
  import opened MergeSpec
  import opened MergeWindow

  // Inside the window the gap loop always ends.
  lemma LoopEnds(s: Merge)
    requires Good(s)
    ensures GapLoopEnds(Counted(s)) && Reaches(s)
  {
    var _ := GapLoopAdvances(Counted(s));
    CountedEnds(s);
  }

  // handle(): dispatch on the type of the message.
  ghost function Step(s: Merge, m: Msg): Merge
    requires Good(s)
  {
    LoopEnds(s);
    HandleStep(s, m)
  }

  // Nothing that was sent or stashed is lost.
  ghost predicate Kept(s: Merge, r: Merge)
    requires s.Shape() && r.Shape()
  {
    forall n: nat :: SentNumber(s.out, n) || s.Holds(n) ==> SentNumber(r.out, n) || r.Holds(n)
  }

  // ---- one data message ----

  // The message is the first one or the one expected, so it is sent at once.
  predicate InOrder(s: Merge, m: Msg) {
    s.expected == 0 || m.sequence == s.expected
  }

  // The state with which publishing from the stash starts.
  function Arrived(s: Merge, m: Msg): Merge {
    s.(expected := m.sequence + 1, out := s.out + [Sent(m)],
       highest := if s.expected == 0 then m.sequence else s.highest)
  }

  lemma InOrderEffect(s: Merge, m: Msg) returns (news: seq<Event>)
    requires Good(s) && Fits(s, m) && m.IsData() && InOrder(s, m)
    ensures Advances(Arrived(s, m), DataStep(s, m), news) && (forall e | e in news :: e.Sent?)
    ensures Good(DataStep(s, m)) && m.sequence < DataStep(s, m).expected
  {
    var t := Arrived(s, m);
    assert s.expected == 0 ==> forall i: nat | i < s.lookAhead :: i !in Filled(s.pending);
    assert Windowed(t, t.expected);
    news := PublishAdvances(t);
    var r := PublishPending(t);
    assert r == DataStep(s, m);
    TilesPartition(news, t.expected, r.expected);
    assert s.highest < t.expected || t.Holds(t.highest);
    assert s.lastHighest < t.expected || t.Holds(t.lastHighest);
  }

  lemma StashEffect(s: Merge, m: Msg)
    requires Good(s) && Fits(s, m) && m.IsData() && !InOrder(s, m) && m.sequence > s.expected
    ensures var r := DataStep(s, m);
            && r.Holds(m.sequence)
            && (s.Holds(m.sequence) ==> r == s)
            && (!s.Holds(m.sequence) ==>
                  && s.Slot(m.sequence).IsEmpty()
                  && r == s.(pending := s.pending[m.sequence % s.lookAhead := m],
                             highest := if m.sequence > s.highest then m.sequence else s.highest))
    ensures Good(DataStep(s, m)) && Kept(s, DataStep(s, m))
  {
    OccupiedMeansHeld(s, m.sequence);
  }

  // ---- control messages ----

  // The state in which a control message is forwarded, before the counters of the heartbeat are written.
  ghost function Settled(s: Merge, m: Msg): Merge
    requires Good(s)
  {
    LoopEnds(s);
    if m.kind.Shutdown? then FlushGaps(s)
    else if m.kind.Heartbeat? && Fires(s) then GapLoop(Counted(s))
    else s
  }

  // The state from which the loops of a control message start.
  function Base(s: Merge, m: Msg): Merge {
    if m.kind.Heartbeat? && Fires(s) then Counted(s) else s
  }

  lemma SettledEffect(s: Merge, m: Msg) returns (news: seq<Event>)
    requires Good(s) && !m.IsData()
    ensures Advances(Base(s, m), Settled(s, m), news)
    ensures Windowed(Settled(s, m), Settled(s, m).expected + 1)
    ensures m.kind.Shutdown? ==> Filled(Settled(s, m).pending) == {}
    ensures m.kind.Heartbeat? && Fires(s) && s.expected < s.lastHighest ==> s.lastHighest < Settled(s, m).expected
    ensures m.kind.Heartbeat? && !(Fires(s) && s.expected < s.lastHighest) ==> news == [] && Settled(s, m) == Base(s, m)
  {
    if m.kind.Shutdown? {
      news := FlushAdvances(s);
    } else if Fires(s) && s.expected < s.lastHighest {
      news := GapLoopAdvances(Counted(s));
    } else {
      AdvancesRefl(Base(s, m));
      news := [];
      LoopEnds(s);
    }
  }

  lemma ControlEffect(s: Merge, m: Msg)
    requires Good(s) && !m.IsData()
    ensures Good(Step(s, m)) && Good(Settled(s, m))
    ensures Step(s, m).out == Settled(s, m).out + [Sent(m)]
    ensures Step(s, m).expected == Settled(s, m).expected && Step(s, m).pending == Settled(s, m).pending
    ensures s.expected == 0 ==> Settled(s, m).out == s.out && Step(s, m).expected == 0
  {
    var news := SettledEffect(s, m);
    var g := Settled(s, m);
    ControlGood(Base(s, m), g, news);
    ControlLeaves(s, m);
    if s.expected == 0 {
      assert forall i: nat | i < s.lookAhead :: i !in Filled(s.pending);
      NothingToAdvance(Base(s, m), g, news);
    }
  }

  // Besides what the loops do, a control message is forwarded, and a heartbeat writes its counters.
  lemma ControlLeaves(s: Merge, m: Msg)
    requires Good(s) && !m.IsData()
    ensures var g, r := Settled(s, m), Step(s, m);
      && r.out == g.out + [Sent(m)] && r.expected == g.expected && r.pending == g.pending
      && r.lookAhead == g.lookAhead && r.highest == g.highest
      && ((r.lastSequence == g.lastSequence && r.lastHighest == g.lastHighest)
          || (r.lastSequence == g.expected && r.lastHighest == g.highest))
  {
  }

  lemma NothingToAdvance(s: Merge, g: Merge, news: seq<Event>)
    requires s.Shape() && g.Shape() && Advances(s, g, news)
    requires forall i: nat | i < s.lookAhead :: s.pending[i].IsEmpty()
    ensures g.expected == s.expected && news == []
  {
    assert !StashReaches(s.pending, g.expected);
    if news != [] && news[|news| - 1].Gap? {
      TilesPartition(news[..|news| - 1], s.expected, news[|news| - 1].from);
    }
  }

  lemma ControlGood(s: Merge, g: Merge, news: seq<Event>)
    requires Good(s) && g.Shape() && Advances(s, g, news) && Windowed(g, g.expected + 1)
    ensures s.expected == 0 ==> g.expected == 0
    ensures Good(g.(lastSequence := g.expected, lastHighest := g.highest)) && Good(g)
  {
    TilesPartition(news, s.expected, g.expected);
    assert s.Holds(s.highest) ==> g.Holds(s.highest) || SentNumber(news, s.highest);
    assert s.Holds(s.lastHighest) ==> g.Holds(s.lastHighest) || SentNumber(news, s.lastHighest);
    if s.expected == 0 {
      assert forall i: nat | i < s.lookAhead :: i !in Filled(s.pending);
      NothingToAdvance(s, g, news);
    }
  }

  // ---- runs ----

  ghost predicate InWindow(lookAhead: nat, maxDelay: nat, ms: seq<Msg>)
    requires lookAhead >= 1
    decreases |ms|, 0
  {
    ms != [] ==>
      InWindow(lookAhead, maxDelay, ms[..|ms| - 1])
      && Fits(After(lookAhead, maxDelay, ms[..|ms| - 1]), ms[|ms| - 1])
  }

  // The state of a fresh merge after handling the messages in order.
  ghost function After(lookAhead: nat, maxDelay: nat, ms: seq<Msg>): (s: Merge)
    requires lookAhead >= 1 && InWindow(lookAhead, maxDelay, ms)
    ensures Good(s) && s.lookAhead == lookAhead && s.maxDelay == maxDelay
    decreases |ms|, 1
  {
    if ms == [] then
      FreshGood(lookAhead, maxDelay);
      Fresh(lookAhead, maxDelay)
    else
      var before := After(lookAhead, maxDelay, ms[..|ms| - 1]);
      StepGood(before, ms[|ms| - 1]);
      Step(before, ms[|ms| - 1])
  }

  lemma AfterAppend(lookAhead: nat, maxDelay: nat, ms: seq<Msg>, m: Msg)
    requires lookAhead >= 1 && InWindow(lookAhead, maxDelay, ms) && Fits(After(lookAhead, maxDelay, ms), m)
    ensures InWindow(lookAhead, maxDelay, ms + [m])
    ensures After(lookAhead, maxDelay, ms + [m]) == Step(After(lookAhead, maxDelay, ms), m)
  {
    assert (ms + [m])[..|ms|] == ms;
  }

  lemma FreshGood(lookAhead: nat, maxDelay: nat)
    requires lookAhead >= 1
    ensures Good(Fresh(lookAhead, maxDelay))
  {
    assert Filled(Fresh(lookAhead, maxDelay).pending) == {};
  }

  // Every handler keeps the window, loses nothing, and leaves the configuration alone.
  lemma StepGood(s: Merge, m: Msg)
    requires Good(s) && Fits(s, m)
    ensures Good(Step(s, m)) && Kept(s, Step(s, m))
    ensures Step(s, m).lookAhead == s.lookAhead && Step(s, m).maxDelay == s.maxDelay
    ensures s.expected <= Step(s, m).expected
  {
    var r := Step(s, m);
    if !m.IsData() {
      ControlEffect(s, m);
      var news := SettledEffect(s, m);
      TilesPartition(news, s.expected, r.expected);
      KeptByLog(s, Settled(s, m), news, []);
      KeptByLog(Settled(s, m), r, [], [Sent(m)]);
    } else if InOrder(s, m) {
      var news := InOrderEffect(s, m);
      assert s.expected == 0 ==> forall i: nat | i < s.lookAhead :: i !in Filled(s.pending);
      KeptByLog(s, r, news, [Sent(m)]);
    } else if m.sequence > s.expected {
      StashEffect(s, m);
    }
  }

  lemma KeptByLog(s: Merge, r: Merge, news: seq<Event>, extra: seq<Event>)
    requires s.Shape() && r.Shape()
    requires r.out == s.out + news + extra || r.out == s.out + extra + news
    requires forall n: nat | s.Holds(n) :: r.Holds(n) || SentNumber(news, n)
    ensures Kept(s, r)
  {
    forall n: nat | SentNumber(s.out, n) || s.Holds(n) ensures SentNumber(r.out, n) || r.Holds(n) {
      if SentNumber(s.out, n) || SentNumber(news, n) {
        if r.out == s.out + news + extra {
          SentStays(s.out, news, n);
          SentStays(s.out + news, extra, n);
        } else if SentNumber(s.out, n) {
          SentStays(s.out, extra, n);
          SentStays(s.out + extra, news, n);
        } else {
          SentStays(s.out + extra, news, n);
        }
      }
    }
  }

  // ---- accounting ----

  // The state accounts for the data messages received so far.
  ghost predicate Accounts(s: Merge, data: seq<Msg>) {
    && s.Shape()
    && (data == [] <==> s.expected == 0)
    && (if data == [] then Tiles(s.out, 0, 0) else Tiles(s.out, data[0].sequence, s.expected))
    && (forall m | m in data :: m.sequence < s.expected || s.Holds(m.sequence))
    && (forall i: nat | i < s.lookAhead && !s.pending[i].IsEmpty() :: s.pending[i] in data)
    && (forall e | e in s.out && e.Sent? && e.m.IsData() :: e.m in data)
    && (data != [] ==> exists m :: m in data && s.expected <= m.sequence + 1)
  }

  lemma StepAccounts(s: Merge, m: Msg, data: seq<Msg>)
    requires Good(s) && Fits(s, m) && Accounts(s, data)
    ensures Accounts(Step(s, m), if m.IsData() then data + [m] else data)
  {
    StepGood(s, m);
    if !m.IsData() {
      ControlAccounts(s, m, data);
    } else if InOrder(s, m) {
      InOrderAccounts(s, m, data);
    } else if m.sequence > s.expected {
      StashEffect(s, m);
    }
  }

  lemma TilesControl(out: seq<Event>, m: Msg, a: nat, b: nat)
    requires Tiles(out, a, b) && !m.IsData()
    ensures Tiles(out + [Sent(m)], a, b)
  {
    assert (out + [Sent(m)])[..|out|] == out;
  }

  // The oldest data message fixes where the numbering starts.
  function Start(s: Merge, data: seq<Msg>): nat {
    if data == [] then 0 else data[0].sequence
  }

  lemma AdvanceAccounts(s: Merge, g: Merge, data: seq<Msg>, news: seq<Event>)
    requires Accounts(s, data) && Advances(s, g, news) && (s.expected == 0 ==> g.expected == 0)
    ensures Accounts(g, data)
  {
    TilesJoin(s.out, news, Start(s, data), s.expected, g.expected);
    TilesPartition(news, s.expected, g.expected);
    if g.expected != s.expected {
      var i: nat :| i < |s.pending| && !s.pending[i].IsEmpty() && g.expected <= s.pending[i].sequence + 1;
      assert s.pending[i] in data;
    }
  }

  lemma ControlAccounts(s: Merge, m: Msg, data: seq<Msg>)
    requires Good(s) && !m.IsData() && Accounts(s, data)
    ensures Accounts(Step(s, m), data)
  {
    ControlEffect(s, m);
    var news := SettledEffect(s, m);
    AdvanceAccounts(Base(s, m), Settled(s, m), data, news);
    TilesControl(Settled(s, m).out, m, Start(s, data), Settled(s, m).expected);
    StepGood(s, m);
  }

  lemma InOrderAccounts(s: Merge, m: Msg, data: seq<Msg>)
    requires Good(s) && Fits(s, m) && m.IsData() && InOrder(s, m) && Accounts(s, data)
    ensures Accounts(DataStep(s, m), data + [m])
  {
    var news := InOrderEffect(s, m);
    var t := Arrived(s, m);
    assert (s.out + [Sent(m)])[..|s.out|] == s.out;
    if s.expected == 0 {
      assert forall i: nat | i < s.lookAhead :: i !in Filled(s.pending);
      RetileEmpty(s.out, 0, m.sequence, data);
    }
    assert m in data + [m];
    assert Accounts(t, data + [m]);
    AdvanceAccounts(t, DataStep(s, m), data + [m], news);
  }

  // A log without data and gaps covers an empty range anywhere.
  lemma {:induction false} RetileEmpty(out: seq<Event>, a: nat, b: nat, data: seq<Msg>)
    requires Tiles(out, a, a) && data == []
    requires forall e | e in out && e.Sent? && e.m.IsData() :: e.m in data
    ensures Tiles(out, b, b)
    decreases |out|
  {
    if out == [] {
    } else {
      var last := out[|out| - 1];
      if last.Gap? {
        TilesPartition(out[..|out| - 1], a, last.from);
      }
      assert last in out;
      RetileEmpty(out[..|out| - 1], a, b, data);
    }
  }

  lemma {:induction false} RunAccounts(lookAhead: nat, maxDelay: nat, ms: seq<Msg>)
    requires lookAhead >= 1 && InWindow(lookAhead, maxDelay, ms)
    ensures Accounts(After(lookAhead, maxDelay, ms), DataOf(ms))
    decreases |ms|
  {
    if ms == [] {
    } else {
      var front := ms[..|ms| - 1];
      RunAccounts(lookAhead, maxDelay, front);
      StepAccounts(After(lookAhead, maxDelay, front), ms[|ms| - 1], DataOf(front));
    }
  }

  // ---- the log ----

  // The log only grows.
  lemma StepOutGrows(s: Merge, m: Msg)
    requires Good(s) && Fits(s, m)
    ensures s.out <= Step(s, m).out
  {
    if m.IsData() {
      DataOutGrows(s, m);
    } else {
      var news := SettledEffect(s, m);
      ControlLeaves(s, m);
      assert Step(s, m).out == s.out + (news + [Sent(m)]);
    }
  }

  lemma DataOutGrows(s: Merge, m: Msg)
    requires Good(s) && Fits(s, m) && m.IsData()
    ensures s.out <= DataStep(s, m).out
  {
    if InOrder(s, m) {
      var news := InOrderEffect(s, m);
      assert DataStep(s, m).out == s.out + ([Sent(m)] + news);
    } else if m.sequence > s.expected {
      StashEffect(s, m);
    }
  }

  // The first data message, if there is one, is the first entry of the log that is not a control message.
  ghost predicate Opens(out: seq<Event>, data: seq<Msg>) {
    if data == [] then forall e | e in out :: e.Sent? && !e.m.IsData()
    else exists i: nat ::
        i < |out| && out[i] == Sent(data[0]) && forall j: nat | j < i :: out[j].Sent? && !out[j].m.IsData()
  }

  lemma OpensLonger(out: seq<Event>, more: seq<Event>, data: seq<Msg>)
    requires data != [] && Opens(out, data) && out <= more
    ensures Opens(more, data)
  {
    var i: nat :| i < |out| && out[i] == Sent(data[0]) && forall j: nat | j < i :: out[j].Sent? && !out[j].m.IsData();
    assert more[i] == Sent(data[0]);
  }

  lemma {:induction false} FirstDataOpens(lookAhead: nat, maxDelay: nat, ms: seq<Msg>)
    requires lookAhead >= 1 && InWindow(lookAhead, maxDelay, ms)
    ensures var s := After(lookAhead, maxDelay, ms);
            Opens(s.out, DataOf(ms)) && (DataOf(ms) == [] ==> s.expected == 0)
    decreases |ms|
  {
    if ms == [] {
    } else {
      var front, m := ms[..|ms| - 1], ms[|ms| - 1];
      var s := After(lookAhead, maxDelay, front);
      FirstDataOpens(lookAhead, maxDelay, front);
      if DataOf(front) != [] {
        StepOutGrows(s, m);
        OpensLonger(s.out, Step(s, m).out, DataOf(front));
        assert DataOf(front)[0] == DataOf(ms)[0];
      } else if m.IsData() {
        var news := InOrderEffect(s, m);
        assert Step(s, m).out[|s.out|] == Sent(m);
      } else {
        ControlEffect(s, m);
      }
    }
  }
}
