// What each handler of the merge does to its state, as functions on values.
module MergeSpec {
  import opened Messages
  import opened Residues

  // What leaves the merge, in order. The gap message is filled in but never sent,
  // so a gap is an entry of the log and not a message.
  datatype Event = Sent(m: Msg) | Gap(from: nat, until: nat)

  datatype Merge = Merge(
    lookAhead: nat, maxDelay: nat,
    delays: nat, expected: nat, highest: nat,
    pending: seq<Msg>,
    lastSequence: nat, lastHighest: nat,
    out: seq<Event>)
  {
    predicate Shape() {
      lookAhead >= 1 && |pending| == lookAhead
    }

    function Slot(n: nat): Msg
      requires Shape()
    {
      pending[n % lookAhead]
    }

    // The stash holds the message numbered n.
    predicate Holds(n: nat)
      requires Shape()
    {
      !Slot(n).IsEmpty() && Slot(n).sequence == n
    }
  }

  function Fresh(lookAhead: nat, maxDelay: nat): Merge {
    Merge(lookAhead, maxDelay, 0, 0, 0, seq(lookAhead, _ => BLANK), 0, 0, [])
  }

  // ---- publishPendingMessages ----

  function SendPending(s: Merge): Merge
    requires s.Shape()
  {
    var index := s.expected % s.lookAhead;
    s.(pending := s.pending[index := s.pending[index].Emptied()],
       expected := s.expected + 1,
       out := s.out + [Sent(s.pending[index])])
  }

  ghost function PublishPending(s: Merge): Merge
    requires s.Shape()
    decreases |Filled(s.pending)|
  {
    if s.Slot(s.expected).IsEmpty() then s
    else
      EmptyingShrinks(s.pending, s.expected % s.lookAhead);
      PublishPending(SendPending(s))
  }

  // ---- findAndPublishGap ----

  function DeclareGap(s: Merge, until: nat): Merge {
    s.(expected := until, out := s.out + [Gap(s.expected, until)])
  }

  function ScanForGap(s: Merge, gapEnd: nat): (bool, Merge)
    requires s.Shape()
    decreases s.expected + s.lookAhead - gapEnd
  {
    if gapEnd >= s.expected + s.lookAhead then (false, s)
    else if !s.Slot(gapEnd).IsEmpty() then (true, DeclareGap(s, gapEnd))
    else ScanForGap(s, gapEnd + 1)
  }

  function FindGap(s: Merge): (bool, Merge)
    requires s.Shape()
  {
    if s.Slot(s.expected).IsEmpty() then ScanForGap(s, s.expected + 1) else (true, s)
  }

  // ---- handleShutdown ----

  ghost function FlushGaps(s: Merge): Merge
    requires s.Shape()
    decreases |Filled(s.pending)|
  {
    var (found, g) := FindGap(s);
    FindGapShape(s);
    if found then
      PublishPendingShape(g);
      FlushGaps(PublishPending(g))
    else g
  }

  function Forward(s: Merge, m: Msg): Merge {
    s.(out := s.out + [Sent(m)])
  }

  // ---- handleHeartbeat ----

  // One pass of the gap loop that a heartbeat runs.
  ghost function GapPass(s: Merge): Merge
    requires s.Shape()
  {
    var (found, g) := FindGap(s);
    FindGapShape(s);
    if found then PublishPending(g) else g
  }

  // Whether the loop ends. A pass that gets no further leaves the state as it is, so every pass has to.
  ghost predicate GapLoopEnds(s: Merge)
    requires s.Shape()
    decreases if s.expected < s.lastHighest then s.lastHighest - s.expected else 0
  {
    s.expected < s.lastHighest ==>
      GapPass(s).Shape() && GapPass(s).lastHighest == s.lastHighest
      && s.expected < GapPass(s).expected && GapLoopEnds(GapPass(s))
  }

  ghost function GapLoop(s: Merge): Merge
    requires s.Shape() && GapLoopEnds(s)
    decreases if s.expected < s.lastHighest then s.lastHighest - s.expected else 0
  {
    if s.expected < s.lastHighest then GapLoop(GapPass(s)) else s
  }

  // ---- when the gap loop ends ----

  // The recorded number is passed, or the window holds something that is the last before it or later.
  ghost predicate Reaches(s: Merge)
    requires s.Shape()
  {
    || s.lastHighest <= s.expected
    || exists k: nat :: s.expected <= k < s.expected + s.lookAhead && s.lastHighest <= k + 1 && !s.Slot(k).IsEmpty()
  }

  // g is where the search from s has found something.
  ghost predicate FoundFrom(s: Merge, g: Merge) {
    && s.Shape() && g.Shape() && g.pending == s.pending && g.lookAhead == s.lookAhead && g.lastHighest == s.lastHighest
    && s.expected <= g.expected < s.expected + s.lookAhead && !g.Slot(g.expected).IsEmpty()
    && forall k: nat :: s.expected <= k < g.expected ==> g.Slot(k).IsEmpty()
  }

  ghost predicate EmptyWindow(s: Merge)
    requires s.Shape()
  {
    forall k: nat :: s.expected <= k < s.expected + s.lookAhead ==> s.Slot(k).IsEmpty()
  }

  // The search finds the first number of the window that is stashed, whatever is in the stash.
  lemma FindGapCells(s: Merge)
    requires s.Shape()
    ensures FindGap(s).0 ==> FoundFrom(s, FindGap(s).1) && !EmptyWindow(s)
    ensures !FindGap(s).0 ==> FindGap(s).1 == s && EmptyWindow(s)
  {
    ScanShape(s, s.expected + 1);
    var g := FindGap(s).1;
    forall k: nat | s.expected <= k < g.expected ensures g.Slot(k) == s.Slot(k) {
    }
    assert g.Slot(g.expected) == s.Slot(g.expected);
  }

  // Sending one message empties its cell, which is also that of the number lookAhead further on, and no other.
  lemma SendCells(s: Merge)
    requires s.Shape()
    ensures var r := SendPending(s);
      && r.Shape() && r.lookAhead == s.lookAhead
      && r.Slot(s.expected).IsEmpty() && r.Slot(s.expected + s.lookAhead).IsEmpty()
      && forall k: nat :: s.expected < k < s.expected + s.lookAhead ==> r.Slot(k) == s.Slot(k)
  {
    ShiftCell(s.expected, 1, s.lookAhead);
    forall k: nat | s.expected < k < s.expected + s.lookAhead ensures SendPending(s).Slot(k) == s.Slot(k) {
      if k % s.lookAhead == s.expected % s.lookAhead {
        SameCell(s.expected, k, s.lookAhead);
      }
    }
  }

  // Publishing empties the cells of the numbers it passes, all of them occupied, and no other.
  lemma {:induction false} PublishCells(s: Merge)
    requires s.Shape()
    ensures var r := PublishPending(s);
      && r.Shape() && r.lookAhead == s.lookAhead && r.lastHighest == s.lastHighest
      && s.expected <= r.expected <= s.expected + s.lookAhead
      && (!s.Slot(s.expected).IsEmpty() ==> s.expected < r.expected)
      && (forall k: nat :: s.expected <= k < r.expected ==> !s.Slot(k).IsEmpty() && r.Slot(k).IsEmpty())
      && (forall k: nat :: r.expected <= k < s.expected + s.lookAhead ==> r.Slot(k) == s.Slot(k))
    decreases |Filled(s.pending)|
  {
    if s.Slot(s.expected).IsEmpty() {
    } else {
      EmptyingShrinks(s.pending, s.expected % s.lookAhead);
      SendCells(s);
      PublishCells(SendPending(s));
      if PublishPending(s).expected > s.expected + s.lookAhead { assert false; }
      ShiftCell(s.expected, 1, s.lookAhead);
      assert PublishPending(s).Slot(s.expected) == PublishPending(s).Slot(s.expected + s.lookAhead);
    }
  }

  // A pass over an empty window changes nothing. Any other moves past a number stashed, empties the cells it passes
  // and leaves the rest of the window as it was.
  lemma PassCells(s: Merge)
    requires s.Shape()
    ensures var r := GapPass(s);
      && r.Shape() && r.lookAhead == s.lookAhead && r.lastHighest == s.lastHighest
      && (r == s <==> EmptyWindow(s))
      && (r != s ==>
            && s.expected < r.expected <= s.expected + s.lookAhead && !s.Slot(r.expected - 1).IsEmpty()
            && (forall k: nat :: s.expected <= k < r.expected ==> r.Slot(k).IsEmpty())
            && (forall k: nat :: r.expected <= k < s.expected + s.lookAhead ==> r.Slot(k) == s.Slot(k)))
  {
    FindGapCells(s);
    var (found, g) := FindGap(s);
    if found {
      PublishCells(g);
      PassStopsInWindow(s, g);
      PassLeavesEmpty(s, g);
      PassLeavesRest(s, g);
    }
  }

  lemma NextRound(s: Merge, k: nat)
    requires s.Shape()
    ensures s.Slot(k + s.lookAhead) == s.Slot(k)
  {
    ShiftCell(k, 1, s.lookAhead);
  }

  lemma PassStopsInWindow(s: Merge, g: Merge)
    requires FoundFrom(s, g)
    ensures PublishPending(g).expected <= s.expected + s.lookAhead
  {
    PublishCells(g);
    if s.expected < g.expected {
      NextRound(g, s.expected);
    }
  }

  lemma PassLeavesEmpty(s: Merge, g: Merge)
    requires FoundFrom(s, g)
    ensures PublishPending(g).Shape()
    ensures forall k: nat :: s.expected <= k < PublishPending(g).expected ==> PublishPending(g).Slot(k).IsEmpty()
  {
    PublishCells(g);
    PassStopsInWindow(s, g);
    var r := PublishPending(g);
    forall k: nat | s.expected <= k < r.expected ensures r.Slot(k).IsEmpty() {
      if k < g.expected {
        NextRound(r, k);
        NextRound(g, k);
      }
    }
  }

  lemma PassLeavesRest(s: Merge, g: Merge)
    requires FoundFrom(s, g)
    ensures PublishPending(g).Shape() && s.expected < PublishPending(g).expected
    ensures !s.Slot(PublishPending(g).expected - 1).IsEmpty()
    ensures forall k: nat :: PublishPending(g).expected <= k < s.expected + s.lookAhead ==>
      PublishPending(g).Slot(k) == s.Slot(k)
  {
    PublishCells(g);
    var r := PublishPending(g);
    assert s.Slot(r.expected - 1) == g.Slot(r.expected - 1);
    forall k: nat | r.expected <= k < s.expected + s.lookAhead ensures r.Slot(k) == s.Slot(k) {
      assert r.Slot(k) == g.Slot(k);
    }
  }

  // The gap loop ends exactly if the stash, as it is when the loop starts, reaches the recorded number.
  lemma {:induction false} GapLoopEndsExactly(s: Merge)
    requires s.Shape()
    ensures GapLoopEnds(s) <==> Reaches(s)
    decreases if s.expected < s.lastHighest then s.lastHighest - s.expected else 0
  {
    if s.lastHighest <= s.expected {
    } else {
      PassCells(s);
      if GapPass(s) != s {
        GapLoopEndsExactly(GapPass(s));
        ReachesOn(s);
      }
    }
  }

  // A pass that gets further does not change whether the stash reaches.
  lemma ReachesOn(s: Merge)
    requires s.Shape() && s.expected < s.lastHighest && GapPass(s) != s
    ensures GapPass(s).Shape() && (Reaches(GapPass(s)) <==> Reaches(s))
  {
    PassCells(s);
    var r := GapPass(s);
    if Reaches(s) && r.expected < r.lastHighest {
      var k: nat :| s.expected <= k < s.expected + s.lookAhead && s.lastHighest <= k + 1 && !s.Slot(k).IsEmpty();
      assert r.Slot(k) == s.Slot(k);
    }
    if Reaches(r) {
      if r.lastHighest <= r.expected {
        assert !s.Slot(r.expected - 1).IsEmpty();
      } else {
        var k: nat :| r.expected <= k < r.expected + r.lookAhead && r.lastHighest <= k + 1 && !r.Slot(k).IsEmpty();
        if k >= s.expected + s.lookAhead {
          NextRound(r, k - s.lookAhead);
        }
        assert r.Slot(k) == s.Slot(k);
      }
    }
  }

  predicate Fires(s: Merge) {
    s.expected == s.lastSequence && s.delays + 1 >= s.maxDelay
  }

  function Record(s: Merge): Merge {
    s.(lastSequence := s.expected, lastHighest := s.highest, delays := 0)
  }

  function Counted(s: Merge): Merge {
    s.(delays := s.delays + 1)
  }

  ghost function HeartbeatStep(s: Merge, m: Msg): Merge
    requires s.Shape() && (Fires(s) ==> Reaches(s))
  {
    var r :=
      if Fires(s) then
        CountedEnds(s);
        Record(GapLoop(Counted(s)))
      else if s.expected == s.lastSequence then Counted(s)
      else Record(s);
    Forward(r, m)
  }

  lemma CountedEnds(s: Merge)
    requires s.Shape()
    ensures GapLoopEnds(Counted(s)) <==> Reaches(s)
  {
    GapLoopEndsExactly(Counted(s));
    forall k: nat ensures Counted(s).Slot(k) == s.Slot(k) {
    }
  }

  ghost function ShutdownStep(s: Merge, m: Msg): Merge
    requires s.Shape()
  {
    Forward(FlushGaps(s), m)
  }

  // ---- handleDataMessage ----

  ghost function DataStep(s: Merge, m: Msg): Merge
    requires s.Shape()
  {
    var s1 := if s.expected == 0 then s.(expected := m.sequence, highest := m.sequence) else s;
    var index := m.sequence % s1.lookAhead;
    if m.sequence == s1.expected then
      PublishPending(Forward(s1, m).(expected := s1.expected + 1))
    else if m.sequence < s1.expected then s1
    else if m.sequence - s1.expected < s1.lookAhead then
      if s1.pending[index].IsEmpty() then
        s1.(pending := s1.pending[index := m],
            highest := if m.sequence > s1.highest then m.sequence else s1.highest)
      else s1
    else
      // At or beyond the window: stashed over whatever the cell holds.
      s1.(pending := s1.pending[index := m], highest := m.sequence)
  }

  // ---- handle ----

  // The handler of the message comes to an end: only the gap loop of a heartbeat may not.
  ghost predicate Ends(s: Merge, m: Msg)
    requires s.Shape()
  {
    m.kind.Heartbeat? && Fires(s) ==> Reaches(s)
  }

  ghost function HandleStep(s: Merge, m: Msg): Merge
    requires s.Shape() && Ends(s, m)
  {
    match m.kind
    case Heartbeat => HeartbeatStep(s, m)
    case Shutdown => ShutdownStep(s, m)
    case Other => DataStep(s, m)
  }

  // ---- shape is kept ----

  lemma FindGapShape(s: Merge)
    requires s.Shape()
    ensures FindGap(s).1.Shape() && FindGap(s).1.pending == s.pending
    ensures FindGap(s).0 ==> !FindGap(s).1.Slot(FindGap(s).1.expected).IsEmpty()
    ensures !FindGap(s).0 ==> FindGap(s).1 == s
  {
    ScanShape(s, s.expected + 1);
  }

  lemma {:induction false} ScanShape(s: Merge, gapEnd: nat)
    requires s.Shape() && s.expected < gapEnd
    ensures var (found, g) := ScanForGap(s, gapEnd);
            && g.Shape() && g.pending == s.pending
            && (found ==>
                  && !g.Slot(g.expected).IsEmpty() && g == DeclareGap(s, g.expected)
                  && gapEnd <= g.expected < s.expected + s.lookAhead)
            && (!found ==> g == s)
            && (forall k: nat :: gapEnd <= k < (if found then g.expected else s.expected + s.lookAhead) ==>
                  s.Slot(k).IsEmpty())
    decreases s.expected + s.lookAhead - gapEnd
  {
    if gapEnd >= s.expected + s.lookAhead || !s.Slot(gapEnd).IsEmpty() {
    } else {
      ScanShape(s, gapEnd + 1);
    }
  }

  lemma {:induction false} PublishPendingShape(s: Merge)
    requires s.Shape()
    ensures PublishPending(s).Shape()
    ensures PublishPending(s).Slot(PublishPending(s).expected).IsEmpty()
    ensures s.expected <= PublishPending(s).expected
    ensures |Filled(PublishPending(s).pending)| <= |Filled(s.pending)|
    ensures !s.Slot(s.expected).IsEmpty() ==>
      s.expected < PublishPending(s).expected && |Filled(PublishPending(s).pending)| < |Filled(s.pending)|
    decreases |Filled(s.pending)|
  {
    if s.Slot(s.expected).IsEmpty() {
    } else {
      EmptyingShrinks(s.pending, s.expected % s.lookAhead);
      PublishPendingShape(SendPending(s));
    }
  }

  // One turn of the loop that a shutdown runs.
  lemma FlushUnfolds(s: Merge)
    requires s.Shape()
    ensures var (found, g) := FindGap(s);
            && g.Shape()
            && (!found ==> FlushGaps(s) == g)
            && (found ==> PublishPending(g).Shape() && FlushGaps(s) == FlushGaps(PublishPending(g))
                          && |Filled(PublishPending(g).pending)| < |Filled(s.pending)|)
  {
    FindGapShape(s);
    if FindGap(s).0 {
      PublishPendingShape(FindGap(s).1);
    }
  }
}
