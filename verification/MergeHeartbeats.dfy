// When a heartbeat of the merge must declare gaps, and what it then sends. MergeTheorems bounds the patience
// of the merge from below; here it is exact.
module MergeHeartbeats {
  import opened Messages
  import opened MergeSpec
  import opened MergeWindow
  import opened MergeRuns
  import opened MergeTheorems

  // How many heartbeats follow the first k messages.
  function BeatsAfter(ms: seq<Msg>, k: nat): nat
    requires k <= |ms|
    decreases |ms|
  {
    if |ms| == k then 0
    else BeatsAfter(ms[..|ms| - 1], k) + if ms[|ms| - 1].kind.Heartbeat? then 1 else 0
  }

  lemma PrefixInWindow(lookAhead: nat, maxDelay: nat, ms: seq<Msg>, k: nat)
    requires lookAhead >= 1 && InWindow(lookAhead, maxDelay, ms) && k <= |ms|
    ensures InWindow(lookAhead, maxDelay, ms[..k])
    ensures After(lookAhead, maxDelay, ms[..k]).expected <= After(lookAhead, maxDelay, ms).expected
    decreases |ms|
  {
    if k == |ms| {
      assert ms[..k] == ms;
    } else {
      var front := ms[..|ms| - 1];
      assert front[..k] == ms[..k];
      PrefixInWindow(lookAhead, maxDelay, front, k);
      StepGood(After(lookAhead, maxDelay, front), ms[|ms| - 1]);
    }
  }

  // The heartbeat that comes in s takes the expected number down: it finds it moved since a, where it was
  // taken down last, or so many heartbeats have come since that the patience of the merge is over.
  predicate TakesDown(s: Merge, a: Merge, beats: nat) {
    s.expected != a.expected || beats + 1 >= s.maxDelay
  }

  // The first so many messages of the run end with the heartbeat that took down the expected number last.
  ghost function Noted(lookAhead: nat, maxDelay: nat, ms: seq<Msg>): (k: nat)
    requires lookAhead >= 1 && InWindow(lookAhead, maxDelay, ms)
    ensures k <= |ms| && InWindow(lookAhead, maxDelay, ms[..k])
    decreases |ms|
  {
    if ms == [] then 0
    else
      var front := ms[..|ms| - 1];
      var k := Noted(lookAhead, maxDelay, front);
      assert ms[..|ms|] == ms && front[..k] == ms[..k];
      if && ms[|ms| - 1].kind.Heartbeat?
         && TakesDown(After(lookAhead, maxDelay, front), After(lookAhead, maxDelay, front[..k]), BeatsAfter(front, k))
      then |ms|
      else k
  }

  // The counters of s are those of a run that was in a when the expected number was last taken down,
  // and has had so many heartbeats since.
  ghost predicate CountersAgree(s: Merge, a: Merge, beats: nat) {
    && s.lastSequence == a.expected
    && s.lastHighest == a.highest == a.lastHighest
    && s.delays == beats
    && (beats == 0 || beats < s.maxDelay)
  }

  // What the counters say: the number expected and the highest one stashed when they were last taken down,
  // and how many heartbeats have come since.
  lemma {:induction false} CountersSay(lookAhead: nat, maxDelay: nat, ms: seq<Msg>)
    requires lookAhead >= 1 && InWindow(lookAhead, maxDelay, ms)
    ensures CountersAgree(After(lookAhead, maxDelay, ms),
      After(lookAhead, maxDelay, ms[..Noted(lookAhead, maxDelay, ms)]),
                          Since(lookAhead, maxDelay, ms))
    decreases |ms|
  {
    if ms == [] {
    } else {
      CountersSay(lookAhead, maxDelay, ms[..|ms| - 1]);
      CountersOn(lookAhead, maxDelay, ms);
    }
  }

  // The heartbeats since that note.
  ghost function Since(lookAhead: nat, maxDelay: nat, ms: seq<Msg>): nat
    requires lookAhead >= 1 && InWindow(lookAhead, maxDelay, ms)
  {
    BeatsAfter(ms, Noted(lookAhead, maxDelay, ms))
  }

  // A heartbeat that came now would take the number down.
  ghost predicate Ending(lookAhead: nat, maxDelay: nat, ms: seq<Msg>)
    requires lookAhead >= 1 && InWindow(lookAhead, maxDelay, ms)
  {
    TakesDown(After(lookAhead, maxDelay, ms), After(lookAhead, maxDelay, ms[..Noted(lookAhead, maxDelay, ms)]),
              Since(lookAhead, maxDelay, ms))
  }

  // The last message of the run either takes the number down or leaves the earlier note standing.
  lemma NotedOn(lookAhead: nat, maxDelay: nat, ms: seq<Msg>)
    requires lookAhead >= 1 && ms != [] && InWindow(lookAhead, maxDelay, ms)
    ensures var front, beat := ms[..|ms| - 1], ms[|ms| - 1].kind.Heartbeat?;
      var k := Noted(lookAhead, maxDelay, front);
      && front[..k] == ms[..k]
      && if beat && Ending(lookAhead, maxDelay, front) then
           Noted(lookAhead, maxDelay, ms) == |ms| && Since(lookAhead, maxDelay, ms) == 0
         else
           && Noted(lookAhead, maxDelay, ms) == k
           && Since(lookAhead, maxDelay, ms) == Since(lookAhead, maxDelay, front) + if beat then 1 else 0
  {
    var front := ms[..|ms| - 1];
    var k := Noted(lookAhead, maxDelay, front);
    assert front[..k] == ms[..k];
  }

  lemma AgreeOn(s: Merge, a: Merge, beats: nat, m: Msg, r: Merge)
    requires CountersAgree(s, a, beats) && Counts(s, m, r) && r.maxDelay == s.maxDelay
    ensures if m.kind.Heartbeat? && TakesDown(s, a, beats) then CountersAgree(r, r, 0)
            else CountersAgree(r, a, beats + (if m.kind.Heartbeat? then 1 else 0))
  {
  }

  lemma CountersOn(lookAhead: nat, maxDelay: nat, ms: seq<Msg>)
    requires lookAhead >= 1 && ms != [] && InWindow(lookAhead, maxDelay, ms)
    requires var front := ms[..|ms| - 1];
      CountersAgree(After(lookAhead, maxDelay, front),
                    After(lookAhead, maxDelay, front[..Noted(lookAhead, maxDelay, front)]),
                    Since(lookAhead, maxDelay, front))
    ensures CountersAgree(After(lookAhead, maxDelay, ms),
      After(lookAhead, maxDelay, ms[..Noted(lookAhead, maxDelay, ms)]),
                          Since(lookAhead, maxDelay, ms))
  {
    var front := ms[..|ms| - 1];
    var a := After(lookAhead, maxDelay, front[..Noted(lookAhead, maxDelay, front)]);
    RunCounts(lookAhead, maxDelay, ms);
    NotedOn(lookAhead, maxDelay, ms);
    AgreeOn(After(lookAhead, maxDelay, front), a, Since(lookAhead, maxDelay, front), ms[|ms| - 1],
            After(lookAhead, maxDelay, ms));
    assert ms[..|ms|] == ms;
  }

  lemma RunCounts(lookAhead: nat, maxDelay: nat, ms: seq<Msg>)
    requires lookAhead >= 1 && ms != [] && InWindow(lookAhead, maxDelay, ms)
    ensures Counts(After(lookAhead, maxDelay, ms[..|ms| - 1]), ms[|ms| - 1], After(lookAhead, maxDelay, ms))
  {
    StepCounts(After(lookAhead, maxDelay, ms[..|ms| - 1]), ms[|ms| - 1]);
  }

  // A heartbeat that fires, or finds the expected number moved, takes it down; another is counted.
  ghost predicate Counts(s: Merge, m: Msg, r: Merge) {
    if !m.kind.Heartbeat? then
      r.delays == s.delays && r.lastSequence == s.lastSequence && r.lastHighest == s.lastHighest
    else if s.expected != s.lastSequence || s.delays + 1 >= s.maxDelay then
      r.delays == 0 && r.lastSequence == r.expected && r.lastHighest == r.highest
    else
      r.delays == s.delays + 1 && r.lastSequence == s.lastSequence && r.lastHighest == s.lastHighest
  }

  lemma StepCounts(s: Merge, m: Msg)
    requires Good(s) && Fits(s, m)
    ensures Counts(s, m, Step(s, m))
  {
    if m.IsData() {
      DataLeavesCounters(s, m);
    } else {
      var _ := SettledEffect(s, m);
    }
  }

  // ---- what the gap loop sends ----

  // A pass that gets beyond the recorded number, which is stashed, stops where the stash first has a hole after it.
  lemma PassStops(s: Merge)
    requires Windowed(s, s.expected) && s.expected < s.lastHighest && s.Holds(s.lastHighest)
    requires s.lastHighest < GapPass(s).expected
    ensures forall n: nat :: s.lastHighest <= n < GapPass(s).expected ==> s.Holds(n)
  {
    FindGapCells(s);
    var g := FindGap(s).1;
    assert g.Slot(s.lastHighest) == s.Slot(s.lastHighest);
    OccupiedMeansHeld(s, g.expected);
    PublishCells(g);
    PassCells(s);
    forall n: nat | s.lastHighest <= n < GapPass(s).expected ensures s.Holds(n) {
      assert g.Slot(n) == s.Slot(n);
      OccupiedMeansHeld(s, n);
    }
  }

  // A pass that does not get beyond the recorded number leaves its message in the stash.
  lemma PassOn(s: Merge)
    requires Windowed(s, s.expected) && s.expected < s.lastHighest && s.Holds(s.lastHighest)
    ensures var p := GapPass(s);
      && Windowed(p, p.expected + 1) && s.expected < p.expected && p.lastHighest == s.lastHighest
      && (p.lastHighest < p.expected || (p.expected < p.lastHighest && p.Holds(p.lastHighest)))
      && (forall n: nat :: p.Holds(n) ==> s.Holds(n))
  {
    assert s.lastHighest % s.lookAhead in Filled(s.pending);
    var news := PassAdvances(s);
    TilesPartition(news, s.expected, GapPass(s).expected);
    assert GapPass(s).Holds(s.lastHighest) || SentNumber(news, s.lastHighest);
  }

  lemma {:induction false} GapLoopStops(s: Merge)
    requires Windowed(s, s.expected + 1) && s.expected < s.lastHighest && s.Holds(s.lastHighest)
    requires GapLoopEnds(s)
    ensures forall n: nat :: s.lastHighest <= n < GapLoop(s).expected ==> s.Holds(n)
    decreases s.lastHighest - s.expected
  {
    PassOn(s);
    var p := GapPass(s);
    if p.expected < p.lastHighest {
      GapLoopStops(p);
      assert GapLoop(s) == GapLoop(p);
    } else {
      PassStops(s);
      assert GapLoop(s) == p;
    }
  }

  // A heartbeat that fires with something stashed at the record sends all that is stashed up to the first number
  // after the record that is not, and nothing else; any other sends only itself.
  lemma HeartbeatEffect(s: Merge, hb: Msg) returns (news: seq<Event>)
    requires Good(s) && hb.kind.Heartbeat?
    ensures Step(s, hb).out == s.out + news + [Sent(hb)]
    ensures !(Fires(s) && s.expected < s.lastHighest) ==>
      news == [] && Step(s, hb).expected == s.expected && Step(s, hb).pending == s.pending
    ensures Fires(s) && s.expected < s.lastHighest ==>
      s.lastHighest < Step(s, hb).expected && !s.Holds(Step(s, hb).expected)
      && (forall n: nat :: s.lastHighest <= n < Step(s, hb).expected ==> s.Holds(n))
      && (forall n: nat :: SentNumber(news, n) <==> s.Holds(n) && n < Step(s, hb).expected)
  {
    news := SettledEffect(s, hb);
    ControlEffect(s, hb);
    if Fires(s) && s.expected < s.lastHighest {
      LoopEnds(s);
      GapLoopStops(Counted(s));
      var r := Settled(s, hb);
      assert forall n: nat :: Counted(s).Holds(n) <==> s.Holds(n);
      TilesPartition(news, s.expected, r.expected);
      forall n: nat | SentNumber(news, n) ensures s.Holds(n) {
        var i: nat :| i < |news| && news[i].Sent? && news[i].m.IsData() && news[i].m.sequence == n;
        assert news[i] in news;
        var j: nat :| j < |s.pending| && s.pending[j] == news[i].m;
        FilledIsHeld(s, j);
      }
    }
  }

  // ---- over whole runs ----

  // The next heartbeat finds the expected number as it was taken down, is at least the maxDelay-th to do so,
  // and something was stashed at the note.
  ghost predicate Due(lookAhead: nat, maxDelay: nat, ms: seq<Msg>)
    requires lookAhead >= 1 && InWindow(lookAhead, maxDelay, ms)
  {
    var k := Noted(lookAhead, maxDelay, ms);
    var a := After(lookAhead, maxDelay, ms[..k]);
    && After(lookAhead, maxDelay, ms).expected == a.expected
    && Since(lookAhead, maxDelay, ms) + 1 >= maxDelay
    && exists i: nat :: i < lookAhead && !a.pending[i].IsEmpty()
  }

  // A stash that is not empty reaches the highest number ever stashed, and one that is empty does not.
  lemma HighestStashed(s: Merge)
    requires Good(s)
    ensures s.expected < s.highest <==> exists i: nat :: i < s.lookAhead && !s.pending[i].IsEmpty()
    ensures s.expected < s.highest ==> s.Holds(s.highest)
    ensures forall n: nat :: s.Holds(n) ==> n <= s.highest
  {
    if s.expected < s.highest {
      assert !s.pending[s.highest % s.lookAhead].IsEmpty();
    }
  }

  // In every run a heartbeat sends stashed messages exactly when it is due. It then sends those up to the first
  // number that is missing after the highest one stashed at the note, and no other: so everything stashed then.
  lemma HeartbeatSendsExactly(lookAhead: nat, maxDelay: nat, ms: seq<Msg>, hb: Msg) returns (news: seq<Event>)
    requires lookAhead >= 1 && InWindow(lookAhead, maxDelay, ms) && hb.kind.Heartbeat?
    ensures var s, k := After(lookAhead, maxDelay, ms), Noted(lookAhead, maxDelay, ms);
      var a, r := After(lookAhead, maxDelay, ms[..k]), Step(s, hb);
      && r.out == s.out + news + [Sent(hb)]
      && (!Due(lookAhead, maxDelay, ms) ==> news == [] && r.expected == s.expected && r.pending == s.pending)
      && (Due(lookAhead, maxDelay, ms) ==>
            && a.highest < r.expected && !s.Holds(r.expected)
            && (forall n: nat :: a.highest <= n < r.expected ==> s.Holds(n))
            && (forall n: nat :: SentNumber(news, n) <==> s.Holds(n) && n < r.expected)
            && (forall n: nat :: a.Holds(n) ==> SentNumber(r.out, n)))
  {
    var s, k := After(lookAhead, maxDelay, ms), Noted(lookAhead, maxDelay, ms);
    var a := After(lookAhead, maxDelay, ms[..k]);
    CountersSay(lookAhead, maxDelay, ms);
    HighestStashed(a);
    news := HeartbeatEffect(s, hb);
    if Due(lookAhead, maxDelay, ms) {
      forall n: nat | a.Holds(n) ensures SentNumber(Step(s, hb).out, n) {
        RecordedIsDelivered(lookAhead, maxDelay, ms, k, hb, n);
      }
    }
  }

  // A message stays stashed while the expected number stands still.
  lemma StillHeld(lookAhead: nat, maxDelay: nat, ms: seq<Msg>, j: nat, n: nat)
    requires lookAhead >= 1 && InWindow(lookAhead, maxDelay, ms) && j <= |ms|
    requires InWindow(lookAhead, maxDelay, ms[..j])
    requires After(lookAhead, maxDelay, ms[..j]).Holds(n)
    requires After(lookAhead, maxDelay, ms).expected == After(lookAhead, maxDelay, ms[..j]).expected
    ensures After(lookAhead, maxDelay, ms).Holds(n) && After(lookAhead, maxDelay, ms).expected < n
  {
    var s := After(lookAhead, maxDelay, ms);
    MergeNeverForgets(lookAhead, maxDelay, ms, j);
    RunAccounts(lookAhead, maxDelay, ms);
    TilesPartition(s.out, MergeRuns.Start(s, DataOf(ms)), s.expected);
  }

  // The expected number has stood still since the first j messages, when the message n was stashed.
  ghost predicate Stands(lookAhead: nat, maxDelay: nat, ms: seq<Msg>, j: nat, n: nat)
    requires lookAhead >= 1
  {
    && j <= |ms| && InWindow(lookAhead, maxDelay, ms) && InWindow(lookAhead, maxDelay, ms[..j])
    && After(lookAhead, maxDelay, ms[..j]).Holds(n)
    && After(lookAhead, maxDelay, ms).expected == After(lookAhead, maxDelay, ms[..j]).expected
  }

  lemma StandsBefore(lookAhead: nat, maxDelay: nat, ms: seq<Msg>, j: nat, i: nat, n: nat)
    requires lookAhead >= 1 && Stands(lookAhead, maxDelay, ms, j, n) && j <= i <= |ms|
    ensures Stands(lookAhead, maxDelay, ms[..i], j, n)
    ensures After(lookAhead, maxDelay, ms[..i]).expected == After(lookAhead, maxDelay, ms).expected
  {
    PrefixInWindow(lookAhead, maxDelay, ms, i);
    assert ms[..i][..j] == ms[..j];
    PrefixInWindow(lookAhead, maxDelay, ms[..i], j);
  }

  // Once a note is made while the message was stashed, the heartbeat that would end it is due.
  lemma NoteIsDue(lookAhead: nat, maxDelay: nat, ms: seq<Msg>, j: nat, n: nat)
    requires lookAhead >= 1 && Stands(lookAhead, maxDelay, ms, j, n)
    requires Noted(lookAhead, maxDelay, ms) > j && Ending(lookAhead, maxDelay, ms)
    ensures Due(lookAhead, maxDelay, ms)
    ensures n <= After(lookAhead, maxDelay, ms[..Noted(lookAhead, maxDelay, ms)]).highest
    ensures After(lookAhead, maxDelay, ms).expected < n
  {
    var k := Noted(lookAhead, maxDelay, ms);
    StandsBefore(lookAhead, maxDelay, ms, j, k, n);
    assert ms[..k][..j] == ms[..j];
    StillHeld(lookAhead, maxDelay, ms[..k], j, n);
    var a := After(lookAhead, maxDelay, ms[..k]);
    assert !a.pending[n % lookAhead].IsEmpty();
    HighestStashed(a);
  }

  // What the run was before its l-th message, and after it.
  lemma AfterNext(lookAhead: nat, maxDelay: nat, ms: seq<Msg>, l: nat)
    requires lookAhead >= 1 && 0 < l <= |ms| && InWindow(lookAhead, maxDelay, ms[..l])
    ensures InWindow(lookAhead, maxDelay, ms[..l - 1])
    ensures After(lookAhead, maxDelay, ms[..l]) == Step(After(lookAhead, maxDelay, ms[..l - 1]), ms[l - 1])
  {
    assert ms[..l][..l - 1] == ms[..l - 1];
  }

  // So the heartbeat that ends it moves the expected number.
  lemma DueMoves(lookAhead: nat, maxDelay: nat, ms: seq<Msg>, l: nat, j: nat, n: nat)
    requires lookAhead >= 1 && 0 < l <= |ms| && InWindow(lookAhead, maxDelay, ms[..l]) && ms[l - 1].kind.Heartbeat?
    requires var front := ms[..l - 1];
      Stands(lookAhead, maxDelay, front, j, n) && Noted(lookAhead, maxDelay, front) > j
      && Ending(lookAhead, maxDelay, front)
    ensures After(lookAhead, maxDelay, ms[..l - 1]).expected < After(lookAhead, maxDelay, ms[..l]).expected
  {
    AfterNext(lookAhead, maxDelay, ms, l);
    NoteIsDue(lookAhead, maxDelay, ms[..l - 1], j, n);
    var _ := HeartbeatSendsExactly(lookAhead, maxDelay, ms[..l - 1], ms[l - 1]);
  }

  // The l-th message does not end a note made after the first j.
  ghost predicate NoteStands(lookAhead: nat, maxDelay: nat, ms: seq<Msg>, l: nat, j: nat)
    requires lookAhead >= 1 && 0 < l <= |ms| && InWindow(lookAhead, maxDelay, ms[..l - 1])
  {
    var front := ms[..l - 1];
    Noted(lookAhead, maxDelay, front) > j && ms[l - 1].kind.Heartbeat? ==> !Ending(lookAhead, maxDelay, front)
  }

  // A note made while the message was stashed is the last as long as the expected number stands still.
  lemma NotTakenDown(lookAhead: nat, maxDelay: nat, ms: seq<Msg>, l: nat, j: nat, n: nat)
    requires lookAhead >= 1 && Stands(lookAhead, maxDelay, ms, j, n) && j < l <= |ms|
    ensures InWindow(lookAhead, maxDelay, ms[..l - 1]) && NoteStands(lookAhead, maxDelay, ms, l, j)
  {
    StandsBefore(lookAhead, maxDelay, ms, j, l, n);
    StandsBefore(lookAhead, maxDelay, ms, j, l - 1, n);
    if !NoteStands(lookAhead, maxDelay, ms, l, j) {
      DueMoves(lookAhead, maxDelay, ms, l, j, n);
      assert false;
    }
  }

  // The heartbeats after which a stashed message cannot have been left waiting: as many as end an older note,
  // and as many again after a new one.
  function Patience(maxDelay: nat): nat {
    if maxDelay == 0 then 2 else 2 * maxDelay
  }

  predicate InTime(maxDelay: nat, beats: nat) {
    beats == 0 || beats < maxDelay
  }

  // The heartbeats since the first j messages are at most those up to a note made meanwhile and those after that
  // note, and there are fewer of either than the patience with one note.
  ghost predicate Bounded(lookAhead: nat, maxDelay: nat, ms: seq<Msg>, j: nat)
    requires lookAhead >= 1 && j <= |ms| && InWindow(lookAhead, maxDelay, ms)
  {
    && InTime(maxDelay, Since(lookAhead, maxDelay, ms))
    && if Noted(lookAhead, maxDelay, ms) <= j then BeatsAfter(ms, j) <= Since(lookAhead, maxDelay, ms)
       else BeatsAfter(ms, j) <= Since(lookAhead, maxDelay, ms) + if maxDelay == 0 then 1 else maxDelay
  }

  lemma SinceBounded(lookAhead: nat, maxDelay: nat, ms: seq<Msg>)
    requires lookAhead >= 1 && InWindow(lookAhead, maxDelay, ms)
    ensures InTime(maxDelay, Since(lookAhead, maxDelay, ms))
  {
    CountersSay(lookAhead, maxDelay, ms);
  }

  lemma BoundedOn(lookAhead: nat, maxDelay: nat, ms: seq<Msg>, l: nat, j: nat)
    requires lookAhead >= 1 && j < l <= |ms| && InWindow(lookAhead, maxDelay, ms[..l])
    requires InWindow(lookAhead, maxDelay, ms[..l - 1]) && Bounded(lookAhead, maxDelay, ms[..l - 1], j)
    requires NoteStands(lookAhead, maxDelay, ms, l, j)
    ensures Bounded(lookAhead, maxDelay, ms[..l], j)
  {
    var run := ms[..l];
    assert run[..|run| - 1] == ms[..l - 1];
    NotedOn(lookAhead, maxDelay, run);
    SinceBounded(lookAhead, maxDelay, run);
  }

  lemma BoundedHere(lookAhead: nat, maxDelay: nat, ms: seq<Msg>, j: nat)
    requires lookAhead >= 1 && j <= |ms| && InWindow(lookAhead, maxDelay, ms[..j])
    ensures Bounded(lookAhead, maxDelay, ms[..j], j)
  {
    SinceBounded(lookAhead, maxDelay, ms[..j]);
  }

  lemma WaitsOn(lookAhead: nat, maxDelay: nat, ms: seq<Msg>, l: nat, j: nat, n: nat)
    requires lookAhead >= 1 && Stands(lookAhead, maxDelay, ms, j, n) && j < l <= |ms|
    requires InWindow(lookAhead, maxDelay, ms[..l - 1]) && Bounded(lookAhead, maxDelay, ms[..l - 1], j)
    ensures InWindow(lookAhead, maxDelay, ms[..l]) && Bounded(lookAhead, maxDelay, ms[..l], j)
  {
    PrefixInWindow(lookAhead, maxDelay, ms, l);
    NotTakenDown(lookAhead, maxDelay, ms, l, j, n);
    BoundedOn(lookAhead, maxDelay, ms, l, j);
  }

  lemma {:induction false} WaitsAtMost(lookAhead: nat, maxDelay: nat, ms: seq<Msg>, l: nat, j: nat, n: nat)
    requires lookAhead >= 1 && Stands(lookAhead, maxDelay, ms, j, n) && j <= l <= |ms|
    ensures InWindow(lookAhead, maxDelay, ms[..l]) && Bounded(lookAhead, maxDelay, ms[..l], j)
  {
    if l == j {
      BoundedHere(lookAhead, maxDelay, ms, j);
    } else {
      WaitsAtMost(lookAhead, maxDelay, ms, l - 1, j, n);
      WaitsOn(lookAhead, maxDelay, ms, l, j, n);
    }
  }

  // A message does not stay stashed for ever: once so many heartbeats have followed, whatever else came with
  // them, the expected number has moved on.
  lemma StashMovesOn(lookAhead: nat, maxDelay: nat, ms: seq<Msg>, j: nat, n: nat)
    requires lookAhead >= 1 && InWindow(lookAhead, maxDelay, ms) && j <= |ms| && InWindow(lookAhead, maxDelay, ms[..j])
    requires After(lookAhead, maxDelay, ms[..j]).Holds(n) && BeatsAfter(ms, j) >= Patience(maxDelay)
    ensures After(lookAhead, maxDelay, ms[..j]).expected < After(lookAhead, maxDelay, ms).expected
  {
    PrefixInWindow(lookAhead, maxDelay, ms, j);
    assert ms[..|ms|] == ms;
    if Stands(lookAhead, maxDelay, ms, j, n) {
      WaitsAtMost(lookAhead, maxDelay, ms, |ms|, j, n);
      assert false;
    }
  }
}
