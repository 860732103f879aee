// The window that the stash of the merge keeps, and what its loops do inside it.
module MergeWindow {
  import opened Messages
  import opened MergeSpec
  import opened Residues

  // Every stashed message sits in the cell of its own number, at least low and within the look-ahead.
  ghost predicate Windowed(s: Merge, low: nat) {
    && s.Shape()
    && forall i: nat | i < s.lookAhead && !s.pending[i].IsEmpty() ::
         && s.pending[i].IsData()
         && s.pending[i].sequence % s.lookAhead == i
         && low <= s.pending[i].sequence < s.expected + s.lookAhead
         && s.pending[i].sequence <= s.highest
  }

  // Nothing received yet, or the number is behind, or the stash holds the message with that number.
  ghost predicate Tracked(s: Merge, n: nat)
    requires s.Shape()
  {
    s.expected == 0 || n < s.expected || s.Holds(n)
  }

  // What holds between calls as long as no message arrives beyond the window.
  ghost predicate Good(s: Merge) {
    && Windowed(s, s.expected + 1)
    && (s.expected == 0 ==> Filled(s.pending) == {} && s.highest == s.lastHighest == s.lastSequence == 0)
    && Tracked(s, s.highest)
    && Tracked(s, s.lastHighest)
    && s.lastHighest <= s.highest
    && s.lastSequence <= s.expected
  }

  // The message does not arrive lookAhead or more ahead of the expected number.
  ghost predicate Fits(s: Merge, m: Msg) {
    m.IsData() ==> !m.IsEmpty() && (s.expected == 0 || m.sequence < s.expected + s.lookAhead)
  }

  // Occupancy alone tells what a cell in the window holds: exactly the number asked for.
  lemma OccupiedMeansHeld(s: Merge, n: nat)
    requires Windowed(s, s.expected) && s.expected <= n < s.expected + s.lookAhead
    ensures !s.Slot(n).IsEmpty() <==> s.Holds(n)
  {
    if !s.Slot(n).IsEmpty() {
      var k := s.Slot(n).sequence;
      if k <= n { SameCell(k, n, s.lookAhead); } else { SameCell(n, k, s.lookAhead); }
    }
  }

  lemma FilledIsHeld(s: Merge, i: nat)
    requires Windowed(s, s.expected) && i < s.lookAhead && !s.pending[i].IsEmpty()
    ensures s.Holds(s.pending[i].sequence)
  {
  }

  // ---- the log ----

  // The data messages and the gaps of the log, in order, cover the numbers from a up to b without overlap.
  ghost predicate Tiles(out: seq<Event>, a: nat, b: nat) {
    if out == [] then a == b
    else
      var front, last := out[..|out| - 1], out[|out| - 1];
      match last
      case Sent(m) => if m.IsData() then b == m.sequence + 1 && Tiles(front, a, m.sequence) else Tiles(front, a, b)
      case Gap(from, until) => from < until == b && Tiles(front, a, from)
  }

  ghost predicate SentNumber(out: seq<Event>, n: nat) {
    exists i: nat :: i < |out| && out[i].Sent? && out[i].m.IsData() && out[i].m.sequence == n
  }

  ghost predicate InGap(out: seq<Event>, n: nat) {
    exists i: nat :: i < |out| && out[i].Gap? && out[i].from <= n < out[i].until
  }

  lemma {:induction false} TilesJoin(x: seq<Event>, y: seq<Event>, a: nat, b: nat, c: nat)
    requires Tiles(x, a, b) && Tiles(y, b, c)
    ensures Tiles(x + y, a, c)
    decreases |y|
  {
    if y == [] {
      assert x + y == x;
    } else {
      var front := y[..|y| - 1];
      assert (x + y)[..|x + y| - 1] == x + front;
      match y[|y| - 1]
      case Sent(m) => TilesJoin(x, front, a, b, if m.IsData() then m.sequence else c);
      case Gap(from, _) => TilesJoin(x, front, a, b, from);
    }
  }

  // A tiling is a partition: every number of the range is sent or lies in a gap, never both, and nothing else is.
  lemma {:induction false} TilesPartition(out: seq<Event>, a: nat, b: nat)
    requires Tiles(out, a, b)
    ensures a <= b
    ensures forall n: nat :: a <= n < b <==> SentNumber(out, n) || InGap(out, n)
    ensures forall n: nat :: !(SentNumber(out, n) && InGap(out, n))
    decreases |out|
  {
    if out == [] {
    } else {
      var front, last := out[..|out| - 1], out[|out| - 1];
      var mid := match last case Sent(m) => if m.IsData() then m.sequence else b case Gap(from, _) => from;
      TilesPartition(front, a, mid);
      forall n: nat
        ensures SentNumber(out, n) <==> SentNumber(front, n) || (last.Sent? && last.m.IsData() && last.m.sequence == n)
        ensures InGap(out, n) <==> InGap(front, n) || (last.Gap? && last.from <= n < last.until)
      {
        LastOrBefore(out, n);
      }
    }
  }

  lemma LastOrBefore(out: seq<Event>, n: nat)
    requires out != []
    ensures var front, last := out[..|out| - 1], out[|out| - 1];
            && (SentNumber(out, n) <==> SentNumber(front, n) || (last.Sent? && last.m.IsData() && last.m.sequence == n))
            && (InGap(out, n) <==> InGap(front, n) || (last.Gap? && last.from <= n < last.until))
  {
    var front := out[..|out| - 1];
    if SentNumber(front, n) {
      var i: nat :| i < |front| && front[i].Sent? && front[i].m.IsData() && front[i].m.sequence == n;
      assert out[i] == front[i];
    }
    if InGap(front, n) {
      var i: nat :| i < |front| && front[i].Gap? && front[i].from <= n < front[i].until;
      assert out[i] == front[i];
    }
    if SentNumber(out, n) {
      var i: nat :| i < |out| && out[i].Sent? && out[i].m.IsData() && out[i].m.sequence == n;
      assert i < |front| ==> front[i] == out[i];
    }
    if InGap(out, n) {
      var i: nat :| i < |out| && out[i].Gap? && out[i].from <= n < out[i].until;
      assert i < |front| ==> front[i] == out[i];
    }
  }

  // The numbers sent are strictly increasing.
  lemma {:induction false} TilesIncrease(out: seq<Event>, a: nat, b: nat, i: nat, j: nat)
    requires Tiles(out, a, b) && i < j < |out|
    requires out[i].Sent? && out[i].m.IsData() && out[j].Sent? && out[j].m.IsData()
    ensures out[i].m.sequence < out[j].m.sequence
    decreases |out|
  {
    var front, last := out[..|out| - 1], out[|out| - 1];
    var mid := match last case Sent(m) => if m.IsData() then m.sequence else b case Gap(from, _) => from;
    if j < |out| - 1 {
      TilesIncrease(front, a, mid, i, j);
    } else {
      TilesPartition(front, a, mid);
      assert front[i] == out[i];
      assert SentNumber(front, out[i].m.sequence);
    }
  }

  lemma SentStays(x: seq<Event>, y: seq<Event>, n: nat)
    requires SentNumber(x, n) || SentNumber(y, n)
    ensures SentNumber(x + y, n)
  {
    if SentNumber(x, n) {
      var i: nat :| i < |x| && x[i].Sent? && x[i].m.IsData() && x[i].m.sequence == n;
      assert (x + y)[i] == x[i];
    } else {
      var i: nat :| i < |y| && y[i].Sent? && y[i].m.IsData() && y[i].m.sequence == n;
      assert (x + y)[|x| + i] == y[i];
    }
  }

  // ---- one relation for all the loops ----

  // r follows s by sending stashed messages and declaring gaps: the new part of the log covers the
  // numbers passed, every message sent came from the stash, and whatever was stashed is sent or still stashed.
  ghost predicate Advances(s: Merge, r: Merge, news: seq<Event>) {
    && s.Shape() && r.Shape()
    && r == s.(expected := r.expected, pending := r.pending, out := r.out)
    && r.out == s.out + news
    && Tiles(news, s.expected, r.expected)
    && (forall i: nat | i < s.lookAhead && !r.pending[i].IsEmpty() :: r.pending[i] == s.pending[i])
    && (forall n: nat | s.Holds(n) :: r.Holds(n) || SentNumber(news, n))
    && (forall e | e in news && e.Sent? :: e.m in s.pending && e.m.IsData() && !e.m.IsEmpty())
    && (r.expected == s.expected || StashReaches(s.pending, r.expected))
  }

  // Some stashed message has number n - 1 or a later one.
  ghost predicate StashReaches(ring: seq<Msg>, n: nat) {
    exists i: nat :: i < |ring| && !ring[i].IsEmpty() && n <= ring[i].sequence + 1
  }

  lemma AdvancesJoin(s: Merge, r: Merge, t: Merge, x: seq<Event>, y: seq<Event>)
    requires Advances(s, r, x) && Advances(r, t, y)
    ensures Advances(s, t, x + y)
  {
    TilesJoin(x, y, s.expected, r.expected, t.expected);
    forall n: nat | s.Holds(n) ensures t.Holds(n) || SentNumber(x + y, n) {
      if SentNumber(x, n) || SentNumber(y, n) {
        SentStays(x, y, n);
      }
    }
    forall e | e in x + y && e.Sent? ensures e.m in s.pending && e.m.IsData() && !e.m.IsEmpty() {
      if e in y {
        var i: nat :| i < |r.pending| && r.pending[i] == e.m;
        assert s.pending[i] == e.m;
      }
    }
  }

  lemma AdvancesRefl(s: Merge)
    requires s.Shape()
    ensures Advances(s, s, [])
  {
  }

  lemma SendAdvances(s: Merge)
    requires Windowed(s, s.expected) && !s.Slot(s.expected).IsEmpty()
    ensures Windowed(SendPending(s), s.expected + 1)
    ensures Advances(s, SendPending(s), [Sent(s.Slot(s.expected))])
  {
    var r := SendPending(s);
    var index := s.expected % s.lookAhead;
    var m := s.pending[index];
    OccupiedMeansHeld(s, s.expected);
    var news := [Sent(m)];
    assert news[..0] == [];
    assert SentNumber(news, s.expected) by { assert news[0].m.sequence == s.expected; }
    forall i: nat | i < s.lookAhead && !r.pending[i].IsEmpty()
      ensures r.pending[i] == s.pending[i] && s.expected + 1 <= r.pending[i].sequence
    {
      assert s.pending[i].sequence % s.lookAhead == i;
    }
    forall n: nat | s.Holds(n) ensures r.Holds(n) || SentNumber(news, n) {
    }
  }

  lemma NothingDue(s: Merge)
    requires Windowed(s, s.expected) && s.Slot(s.expected).IsEmpty()
    ensures Windowed(s, s.expected + 1) && Advances(s, s, [])
  {
    forall i: nat | i < s.lookAhead && !s.pending[i].IsEmpty() ensures s.expected + 1 <= s.pending[i].sequence {
      assert s.Slot(s.pending[i].sequence) == s.pending[i];
    }
  }

  lemma {:induction false} PublishAdvances(s: Merge) returns (news: seq<Event>)
    requires Windowed(s, s.expected)
    ensures PublishPending(s).Shape() && Windowed(PublishPending(s), PublishPending(s).expected + 1)
    ensures Advances(s, PublishPending(s), news)
    ensures forall e | e in news :: e.Sent?
    ensures !s.Slot(s.expected).IsEmpty() ==> s.expected < PublishPending(s).expected
    decreases |Filled(s.pending)|
  {
    if s.Slot(s.expected).IsEmpty() {
      news := [];
      NothingDue(s);
    } else {
      EmptyingShrinks(s.pending, s.expected % s.lookAhead);
      PublishPendingShape(s);
      SendAdvances(s);
      var rest := PublishAdvances(SendPending(s));
      news := [Sent(s.Slot(s.expected))] + rest;
      AdvancesJoin(s, SendPending(s), PublishPending(s), [Sent(s.Slot(s.expected))], rest);
    }
  }

  lemma FindGapAdvances(s: Merge) returns (news: seq<Event>)
    requires Windowed(s, s.expected)
    ensures var (found, g) := FindGap(s);
            && Windowed(g, g.expected)
            && Advances(s, g, news)
            && (found <==> Filled(s.pending) != {})
            && (found ==> !g.Slot(g.expected).IsEmpty())
            && (!found ==> g == s)
  {
    var (found, g) := FindGap(s);
    FindGapShape(s);
    FindGapFinds(s);
    if g == s {
      AdvancesRefl(s);
      news := [];
    } else {
      ScanShape(s, s.expected + 1);
      news := [Gap(s.expected, g.expected)];
      GapAdvances(s, g.expected);
    }
  }

  // Declaring a gap up to the first number that is stashed passes nothing that is.
  lemma GapAdvances(s: Merge, until: nat)
    requires Windowed(s, s.expected) && s.expected < until < s.expected + s.lookAhead && !s.Slot(until).IsEmpty()
    requires forall k: nat | s.expected <= k < until :: s.Slot(k).IsEmpty()
    ensures Windowed(DeclareGap(s, until), until)
    ensures Advances(s, DeclareGap(s, until), [Gap(s.expected, until)])
  {
    forall i: nat | i < s.lookAhead && !s.pending[i].IsEmpty() ensures until <= s.pending[i].sequence {
      assert s.Slot(s.pending[i].sequence) == s.pending[i];
    }
    assert [Gap(s.expected, until)][..0] == [];
    assert StashReaches(s.pending, until) by {
      assert !s.pending[until % s.lookAhead].IsEmpty();
    }
  }

  // A search that finds nothing has seen every cell empty: lookAhead consecutive numbers meet them all.
  lemma FindGapFinds(s: Merge)
    requires s.Shape()
    ensures FindGap(s).0 <==> Filled(s.pending) != {}
  {
    FindGapCells(s);
    if FindGap(s).0 {
      var g := FindGap(s).1;
      assert g.expected % s.lookAhead in Filled(s.pending);
    } else {
      forall i: nat | i < s.lookAhead ensures s.pending[i].IsEmpty() {
        var k := CellMet(s.expected, i, s.lookAhead);
        assert s.Slot(k) == s.pending[i];
      }
    }
  }

  lemma PassAdvances(s: Merge) returns (news: seq<Event>)
    requires Windowed(s, s.expected) && Filled(s.pending) != {}
    ensures Windowed(GapPass(s), GapPass(s).expected + 1)
    ensures Advances(s, GapPass(s), news) && s.expected < GapPass(s).expected
  {
    var (found, g) := FindGap(s);
    var x := FindGapAdvances(s);
    var y := PublishAdvances(g);
    news := x + y;
    AdvancesJoin(s, g, PublishPending(g), x, y);
    TilesPartition(x, s.expected, g.expected);
  }

  lemma {:induction false} FlushAdvances(s: Merge) returns (news: seq<Event>)
    requires Windowed(s, s.expected)
    ensures FlushGaps(s).Shape() && Windowed(FlushGaps(s), FlushGaps(s).expected + 1)
    ensures Advances(s, FlushGaps(s), news)
    ensures Filled(FlushGaps(s).pending) == {}
    decreases |Filled(s.pending)|
  {
    var (found, g) := FindGap(s);
    var x := FindGapAdvances(s);
    if found {
      FindGapShape(s);
      PublishPendingShape(g);
      var y := PublishAdvances(g);
      AdvancesJoin(s, g, PublishPending(g), x, y);
      var z := FlushAdvances(PublishPending(g));
      news := (x + y) + z;
      AdvancesJoin(s, PublishPending(g), FlushGaps(s), x + y, z);
    } else {
      news := x;
      forall i: nat | i < s.lookAhead ensures s.pending[i].IsEmpty() {
        assert i !in Filled(s.pending);
      }
    }
  }

  // Inside the window the gap loop of a heartbeat ends, and ends past the recorded number.
  lemma {:induction false} GapLoopAdvances(s: Merge) returns (news: seq<Event>)
    requires Windowed(s, s.expected + 1)
    requires s.expected < s.lastHighest ==> s.Holds(s.lastHighest)
    ensures GapLoopEnds(s) && GapLoop(s).Shape()
    ensures Windowed(GapLoop(s), GapLoop(s).expected + 1)
    ensures Advances(s, GapLoop(s), news)
    ensures s.lastHighest <= GapLoop(s).expected
    ensures s.expected < s.lastHighest ==> s.lastHighest < GapLoop(s).expected
    decreases if s.expected < s.lastHighest then s.lastHighest - s.expected else 0
  {
    if s.expected < s.lastHighest {
      assert s.lastHighest % s.lookAhead in Filled(s.pending);
      var x := PassAdvances(s);
      var p := GapPass(s);
      TilesPartition(x, s.expected, p.expected);
      assert p.Holds(s.lastHighest) || SentNumber(x, s.lastHighest);
      var y := GapLoopAdvances(p);
      news := x + y;
      AdvancesJoin(s, p, GapLoop(s), x, y);
    } else {
      AdvancesRefl(s);
      news := [];
    }
  }
}
