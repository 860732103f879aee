// What the merge promises: sorted output, duplicates dropped, gaps identified, nothing else lost.
module MergeTheorems {
  import opened Messages
  import opened MergeSpec
  import opened MergeWindow
  import opened MergeRuns
  import opened Residues

  // ---- accounting over every run inside the window ----

  // With first the number of the first data message, the numbers from first up to the expected one are
  // each either sent or in a declared gap, never both; the sends increase; and every message received is
  // older than the start, sent, in a gap, or stashed.
  lemma MergeAccounting(lookAhead: nat, maxDelay: nat, ms: seq<Msg>)
    requires lookAhead >= 1 && InWindow(lookAhead, maxDelay, ms)
    requires DataOf(ms) != []
    ensures var s := After(lookAhead, maxDelay, ms);
            var first := DataOf(ms)[0].sequence;
            && (forall n: nat :: first <= n < s.expected <==> SentNumber(s.out, n) || InGap(s.out, n))
            && (forall n: nat :: !(SentNumber(s.out, n) && InGap(s.out, n)))
            && (forall i: nat, j: nat | i < j < |s.out| && s.out[i].Sent? && s.out[j].Sent? && s.out[i].m.IsData()
              && s.out[j].m.IsData() ::
                  s.out[i].m.sequence < s.out[j].m.sequence)
            && (forall e | e in s.out && e.Sent? && e.m.IsData() :: e.m in DataOf(ms))
            && (forall m | m in DataOf(ms) :: m.sequence < first || SentNumber(s.out, m.sequence)
                                              || InGap(s.out, m.sequence) || s.Holds(m.sequence))
  {
    var s := After(lookAhead, maxDelay, ms);
    var first := DataOf(ms)[0].sequence;
    RunAccounts(lookAhead, maxDelay, ms);
    TilesPartition(s.out, first, s.expected);
    forall i: nat, j: nat | i < j < |s.out| && s.out[i].Sent? && s.out[j].Sent? && s.out[i].m.IsData()
      && s.out[j].m.IsData()
      ensures s.out[i].m.sequence < s.out[j].m.sequence
    {
      TilesIncrease(s.out, first, s.expected, i, j);
    }
  }

  // A number once sent or stashed stays so: later gaps never swallow it.
  lemma {:induction false} MergeNeverForgets(lookAhead: nat, maxDelay: nat, ms: seq<Msg>, k: nat)
    requires lookAhead >= 1 && InWindow(lookAhead, maxDelay, ms) && k <= |ms|
    ensures InWindow(lookAhead, maxDelay, ms[..k])
    ensures Kept(After(lookAhead, maxDelay, ms[..k]), After(lookAhead, maxDelay, ms))
    decreases |ms|
  {
    if k == |ms| {
      assert ms[..k] == ms;
    } else {
      var front := ms[..|ms| - 1];
      assert front[..k] == ms[..k];
      MergeNeverForgets(lookAhead, maxDelay, front, k);
      StepGood(After(lookAhead, maxDelay, front), ms[|ms| - 1]);
    }
  }

  // A data message leaves no trace only if its number is behind, or the stash holds that very number.
  lemma DroppedExactlyWhenKnown(s: Merge, m: Msg)
    requires Good(s) && Fits(s, m) && m.IsData()
    ensures DataStep(s, m) == s <==> s.expected > 0 && (m.sequence < s.expected || s.Holds(m.sequence))
  {
    if InOrder(s, m) {
      var _ := InOrderEffect(s, m);
    } else if m.sequence > s.expected {
      StashEffect(s, m);
    }
  }

  // ---- refinement of a set ----

  function Numbers(out: seq<Event>): seq<nat> {
    if out == [] then []
    else
      var rest, last := Numbers(out[..|out| - 1]), out[|out| - 1];
      if last.Sent? && last.m.IsData() then rest + [last.m.sequence] else rest
  }

  lemma {:induction false} GaplessTiles(out: seq<Event>, a: nat, b: nat)
    requires Tiles(out, a, b) && forall e | e in out :: e.Sent?
    ensures a <= b && |Numbers(out)| == b - a
    ensures forall k: nat :: k < b - a ==> Numbers(out)[k] == a + k
    decreases |out|
  {
    if out == [] {
    } else {
      var front, last := out[..|out| - 1], out[|out| - 1];
      assert last in out;
      GaplessTiles(front, a, if last.m.IsData() then last.m.sequence else b);
    }
  }

  ghost predicate Received(data: seq<Msg>, n: nat) {
    exists m :: m in data && m.sequence == n
  }

  // While no gap is declared the merge is a set of numbers: it has sent exactly first, first + 1, ...,
  // expected - 1 in order, expected is the least number from first on that was not received,
  // and the stash is what was received above it.
  lemma MergeRefinesSet(lookAhead: nat, maxDelay: nat, ms: seq<Msg>)
    requires lookAhead >= 1 && InWindow(lookAhead, maxDelay, ms)
    requires DataOf(ms) != [] && forall e | e in After(lookAhead, maxDelay, ms).out :: e.Sent?
    ensures var s, data := After(lookAhead, maxDelay, ms), DataOf(ms);
            var first := data[0].sequence;
            && first < s.expected
            && |Numbers(s.out)| == s.expected - first
            && (forall k: nat :: k < s.expected - first ==> Numbers(s.out)[k] == first + k)
            && !Received(data, s.expected)
            && (forall n: nat :: first <= n < s.expected ==> Received(data, n))
            && (forall n: nat :: s.Holds(n) <==> Received(data, n) && n > s.expected)
  {
    var s := After(lookAhead, maxDelay, ms);
    var data := DataOf(ms);
    var first := data[0].sequence;
    RunAccounts(lookAhead, maxDelay, ms);
    GaplessTiles(s.out, first, s.expected);
    TilesPartition(s.out, first, s.expected);
    SentIsReceived(s, data);
    StashIsReceived(s, data);
    assert data[0] in data;
  }

  lemma SentIsReceived(s: Merge, data: seq<Msg>)
    requires Accounts(s, data)
    ensures forall n: nat :: SentNumber(s.out, n) ==> Received(data, n)
  {
    forall n: nat | SentNumber(s.out, n) ensures Received(data, n) {
      var i: nat :| i < |s.out| && s.out[i].Sent? && s.out[i].m.IsData() && s.out[i].m.sequence == n;
      assert s.out[i].m in data;
    }
  }

  lemma StashIsReceived(s: Merge, data: seq<Msg>)
    requires Good(s) && Accounts(s, data)
    ensures forall n: nat :: s.Holds(n) <==> Received(data, n) && n >= s.expected
    ensures !s.Holds(s.expected)
  {
    forall n: nat | s.Holds(n) ensures Received(data, n) {
      assert s.Slot(n) in data;
    }
  }

  // ---- heartbeats ----

  // How many heartbeats at the end of the run have found and left the present expected number.
  ghost function Quiet(lookAhead: nat, maxDelay: nat, ms: seq<Msg>): nat
    requires lookAhead >= 1 && InWindow(lookAhead, maxDelay, ms)
    decreases |ms|
  {
    if ms == [] then 0
    else
      var front := ms[..|ms| - 1];
      if After(lookAhead, maxDelay, front).expected != After(lookAhead, maxDelay, ms).expected then 0
      else Quiet(lookAhead, maxDelay, front) + (if ms[|ms| - 1].kind.Heartbeat? then 1 else 0)
  }

  lemma {:induction false} DelaysCountQuiet(lookAhead: nat, maxDelay: nat, ms: seq<Msg>)
    requires lookAhead >= 1 && InWindow(lookAhead, maxDelay, ms)
    ensures var s := After(lookAhead, maxDelay, ms);
            s.expected == s.lastSequence ==> s.delays <= Quiet(lookAhead, maxDelay, ms)
    decreases |ms|
  {
    if ms == [] {
    } else {
      var front, m := ms[..|ms| - 1], ms[|ms| - 1];
      var s := After(lookAhead, maxDelay, front);
      DelaysCountQuiet(lookAhead, maxDelay, front);
      StepGood(s, m);
      if m.IsData() {
        DataLeavesCounters(s, m);
      } else {
        ControlLeavesCounters(s, m);
      }
    }
  }

  lemma DataLeavesCounters(s: Merge, m: Msg)
    requires Good(s) && Fits(s, m) && m.IsData()
    ensures DataStep(s, m).delays == s.delays && DataStep(s, m).lastSequence == s.lastSequence
    ensures DataStep(s, m).lastHighest == s.lastHighest
  {
    if InOrder(s, m) {
      var _ := InOrderEffect(s, m);
    }
  }

  lemma ControlLeavesCounters(s: Merge, m: Msg)
    requires Good(s) && !m.IsData()
    ensures var r := Step(s, m);
            || r.delays == 0
            || (r.delays == s.delays && r.lastSequence == s.lastSequence && r.expected >= s.expected)
            || (m.kind.Heartbeat? && r.delays == s.delays + 1
              && r.lastSequence == s.lastSequence == s.expected == r.expected)
  {
    var _ := SettledEffect(s, m);
    StepGood(s, m);
  }

  // A heartbeat declares a gap only if it is at least the maxDelay-th heartbeat in a row
  // to find the same expected number, and only below a number stashed when it was recorded.
  lemma HeartbeatPatience(lookAhead: nat, maxDelay: nat, ms: seq<Msg>, hb: Msg)
    requires lookAhead >= 1 && InWindow(lookAhead, maxDelay, ms) && hb.kind.Heartbeat?
    requires exists f: nat, u: nat ::
               Gap(f, u) in Step(After(lookAhead, maxDelay, ms), hb).out
                 && Gap(f, u) !in After(lookAhead, maxDelay, ms).out
    ensures Quiet(lookAhead, maxDelay, ms) + 1 >= maxDelay
    ensures After(lookAhead, maxDelay, ms).Holds(After(lookAhead, maxDelay, ms).lastHighest)
  {
    var s := After(lookAhead, maxDelay, ms);
    ControlEffect(s, hb);
    var news := SettledEffect(s, hb);
    assert Settled(s, hb).out == s.out + news;
    DelaysCountQuiet(lookAhead, maxDelay, ms);
  }

  // When the gap loop fires, everything stashed up to the recorded number has been sent when it ends.
  lemma HeartbeatDelivers(s: Merge, hb: Msg, n: nat)
    requires Good(s) && hb.kind.Heartbeat? && Fires(s)
    requires s.Holds(n) && n <= s.lastHighest
    ensures SentNumber(Step(s, hb).out, n) && n < Step(s, hb).expected
  {
    StepGood(s, hb);
    ControlEffect(s, hb);
    var news := SettledEffect(s, hb);
    FilledIsHeld(s, n % s.lookAhead);
  }

  // Everything in the stash when a heartbeat recorded it has been sent once the loop fires on that record.
  lemma RecordedIsDelivered(lookAhead: nat, maxDelay: nat, ms: seq<Msg>, k: nat, hb: Msg, n: nat)
    requires lookAhead >= 1 && InWindow(lookAhead, maxDelay, ms) && k <= |ms| && InWindow(lookAhead, maxDelay, ms[..k])
    requires var a, s := After(lookAhead, maxDelay, ms[..k]), After(lookAhead, maxDelay, ms);
             a.lastHighest == a.highest == s.lastHighest && a.Holds(n) && Fires(s)
    requires hb.kind.Heartbeat?
    ensures SentNumber(Step(After(lookAhead, maxDelay, ms), hb).out, n)
  {
    var s := After(lookAhead, maxDelay, ms);
    MergeNeverForgets(lookAhead, maxDelay, ms, k);
    if s.Holds(n) {
      HeartbeatDelivers(s, hb, n);
    } else {
      StepGood(s, hb);
      ControlEffect(s, hb);
      var news := SettledEffect(s, hb);
      SentStays(s.out, news, n);
      SentStays(s.out + news, [Sent(hb)], n);
    }
  }

  // ---- shutdown ----

  // Before a shutdown goes out everything stashed goes out, in increasing order, and the stash is empty.
  lemma ShutdownFlushes(s: Merge, m: Msg) returns (news: seq<Event>)
    requires Good(s) && m.kind.Shutdown?
    ensures Step(s, m).out == s.out + news + [Sent(m)]
    ensures forall n: nat :: s.Holds(n) <==> SentNumber(news, n)
    ensures forall i: nat, j: nat :: i < j < |news| && news[i].Sent? && news[j].Sent? ==>
      news[i].m.sequence < news[j].m.sequence
    ensures forall x | x in Step(s, m).pending :: x.IsEmpty()
  {
    ControlEffect(s, m);
    news := SettledEffect(s, m);
    var g := Settled(s, m);
    forall i: nat | i < s.lookAhead ensures g.pending[i].IsEmpty() {
      assert i !in Filled(g.pending);
    }
    forall i: nat, j: nat | i < j < |news| && news[i].Sent? && news[j].Sent?
      ensures news[i].m.sequence < news[j].m.sequence
    {
      assert news[i] in news && news[j] in news;
      TilesIncrease(news, s.expected, g.expected, i, j);
    }
    forall n: nat | SentNumber(news, n) ensures s.Holds(n) {
      var i: nat :| i < |news| && news[i].Sent? && news[i].m.IsData() && news[i].m.sequence == n;
      assert news[i] in news;
      var j: nat :| j < |s.pending| && s.pending[j] == news[i].m;
      FilledIsHeld(s, j);
    }
  }

  // findAndPublishGap answers false exactly when every cell is empty: lookAhead numbers in a row meet every cell.
  lemma NoGapMeansEmpty(s: Merge)
    requires s.Shape()
    ensures FindGap(s).0 <==> exists i: nat :: i < s.lookAhead && !s.pending[i].IsEmpty()
  {
    FindGapFinds(s);
    if FindGap(s).0 {
      var i: nat :| i in Filled(s.pending);
    } else {
      forall i: nat | i < s.lookAhead ensures s.pending[i].IsEmpty() {
        assert i !in Filled(s.pending);
      }
    }
  }

  // ---- the window ----

  // The window survives a data message exactly when the message is inside it.
  lemma WindowKeptIffFits(s: Merge, m: Msg)
    requires Good(s) && m.IsData() && !m.IsEmpty()
    ensures Good(DataStep(s, m)) <==> Fits(s, m)
  {
    if Fits(s, m) {
      StepGood(s, m);
    } else {
      var r := DataStep(s, m);
      assert r.pending[m.sequence % s.lookAhead] == m;
    }
  }

  // One message beyond the window is enough: with look-ahead 2, the numbers 1 and 9 and two heartbeats
  // send 9 in the place of 3, and leave the gap loop of the second passing over an empty stash forever.
  lemma BeyondWindowHangs()
    ensures var one, nine, hb := Msg(Other, 1, [1]), Msg(Other, 9, [1]), Msg(Heartbeat, 0, []);
            var s := HeartbeatStep(DataStep(DataStep(Fresh(2, 1), one), nine), hb);
            && s.Shape() && Fires(s) && !GapLoopEnds(Counted(s)) && !Reaches(s)
            && var p := GapPass(Counted(s));
               && p.Shape()
               && p.out == [Sent(one), Sent(hb), Gap(2, 3), Sent(nine)]
               && p.expected == 4 < p.lastHighest && GapPass(p) == p
  {
    var one, nine, hb := Msg(Other, 1, [1]), Msg(Other, 9, [1]), Msg(Heartbeat, 0, []);
    var s1 := DataStep(Fresh(2, 1), one);
    assert s1 == Fresh(2, 1).(expected := 2, highest := 1, out := [Sent(one)]);
    var s2 := DataStep(s1, nine);
    var s := HeartbeatStep(s2, hb);
    assert s == Merge(2, 1, 0, 2, 9, [BLANK, nine], 2, 9, [Sent(one), Sent(hb)]);
    var c := Counted(s);
    var (found, g) := FindGap(c);
    assert found && g == DeclareGap(c, 3);
    var p := GapPass(c);
    assert PublishPending(g) == PublishPending(SendPending(g)) == SendPending(g);
    assert p == Merge(2, 1, 1, 4, 9, [BLANK, nine.Emptied()], 2, 9, [Sent(one), Sent(hb), Gap(2, 3), Sent(nine)]);
    assert p.Slot(4) == BLANK && p.Slot(5) == nine.Emptied();
    assert ScanForGap(p, 5) == ScanForGap(p, 6) == (false, p);
    assert !GapLoopEnds(p);
    CountedEnds(s);
  }

  // ---- 32-bit sequence numbers ----

  // No counter of the merge leaves the range of the numbers it is given, so if these and the look-ahead
  // together stay below two to the 32nd no addition in the handlers wraps.
  lemma NoWrap(lookAhead: nat, maxDelay: nat, ms: seq<Msg>, limit: nat)
    requires lookAhead >= 1 && InWindow(lookAhead, maxDelay, ms)
    requires forall m | m in DataOf(ms) :: m.sequence < limit
    ensures var s := After(lookAhead, maxDelay, ms);
            && s.expected <= limit && s.lastSequence <= limit
            && (limit > 0 ==> s.highest < limit && s.lastHighest < limit)
  {
    RunAccounts(lookAhead, maxDelay, ms);
    HighestReceived(lookAhead, maxDelay, ms);
  }

  lemma {:induction false} HighestReceived(lookAhead: nat, maxDelay: nat, ms: seq<Msg>)
    requires lookAhead >= 1 && InWindow(lookAhead, maxDelay, ms)
    ensures var s := After(lookAhead, maxDelay, ms); s.highest == 0 || Received(DataOf(ms), s.highest)
    decreases |ms|
  {
    if ms == [] {
    } else {
      var front, m := ms[..|ms| - 1], ms[|ms| - 1];
      var s := After(lookAhead, maxDelay, front);
      HighestReceived(lookAhead, maxDelay, front);
      if Received(DataOf(front), s.highest) {
        var x :| x in DataOf(front) && x.sequence == s.highest;
        assert x in DataOf(ms);
      }
      if m.IsData() {
        assert DataOf(ms)[|DataOf(ms)| - 1] == m;
        assert m in DataOf(ms);
        if InOrder(s, m) { var _ := InOrderEffect(s, m); } else if m.sequence > s.expected { StashEffect(s, m); }
      } else {
        var _ := SettledEffect(s, m);
      }
    }
  }
}
