// The merge step itself: fields updated in place, the stash an array. Each handler is proved to do to the
// fields what MergeSpec says; MergeTheorems says what that amounts to.
module OrderedMergeStep {
  import opened Messages
  import opened MergeSpec
  import opened MergeWindow
  import opened MergeRuns

  class OrderedMerge {
    const lookAhead: nat
    const maxDelayHeartbeats: nat
    var heartbeatDelays: nat
    var expectedSequenceNumber: nat
    var highestStashed: nat
    const pendingMessages: array<Msg>
    var lastHeartbeatSequenceNumber: nat
    var lastHeartbeatHighestStashed: nat
    // What the destination has been handed, and the gaps that were found.
    ghost var out: seq<Event>

    ghost predicate Valid() {
      lookAhead >= 1 && pendingMessages.Length == lookAhead
    }

    ghost function State(): Merge
      reads this, pendingMessages
    {
      Merge(lookAhead, maxDelayHeartbeats, heartbeatDelays, expectedSequenceNumber, highestStashed,
            pendingMessages[..], lastHeartbeatSequenceNumber, lastHeartbeatHighestStashed, out)
    }

    constructor (lookAhead: nat, maxDelayHeartbeats: nat)
      requires lookAhead >= 1
      ensures Valid() && fresh(pendingMessages)
      ensures State() == Fresh(lookAhead, maxDelayHeartbeats)
    {
      this.lookAhead, this.maxDelayHeartbeats := lookAhead, maxDelayHeartbeats;
      heartbeatDelays, expectedSequenceNumber, highestStashed := 0, 0, 0;
      lastHeartbeatSequenceNumber, lastHeartbeatHighestStashed := 0, 0;
      pendingMessages := new Msg[lookAhead](_ => BLANK);
      out := [];
    }

    method PublishGapMessage(gapEnd: nat)
      requires Valid()
      modifies this
      ensures State() == DeclareGap(old(State()), gapEnd)
    {
      out := out + [Gap(expectedSequenceNumber, gapEnd)];
      expectedSequenceNumber := gapEnd;
    }

    method FindAndPublishGap() returns (found: bool)
      requires Valid()
      modifies this
      ensures (found, State()) == FindGap(old(State()))
    {
      ghost var s := State();
      var gapStart := expectedSequenceNumber;
      if pendingMessages[gapStart % lookAhead].IsEmpty() {
        var gapEnd := gapStart + 1;
        while gapEnd < gapStart + lookAhead
          invariant gapStart < gapEnd && State() == s
          invariant FindGap(s) == ScanForGap(s, gapEnd)
        {
          if !pendingMessages[gapEnd % lookAhead].IsEmpty() {
            PublishGapMessage(gapEnd);
            return true;
          }
          gapEnd := gapEnd + 1;
        }
        return false;
      }
      return true;
    }

    method PublishPendingMessages()
      requires Valid()
      modifies this, pendingMessages
      ensures State() == PublishPending(old(State()))
    {
      while !pendingMessages[expectedSequenceNumber % lookAhead].IsEmpty()
        invariant PublishPending(State()) == PublishPending(old(State()))
        decreases |Filled(State().pending)|
      {
        var index := expectedSequenceNumber % lookAhead;
        ghost var s := State();
        EmptyingShrinks(s.pending, index);
        out := out + [Sent(pendingMessages[index])];
        pendingMessages[index] := pendingMessages[index].Emptied();
        expectedSequenceNumber := expectedSequenceNumber + 1;
        assert State() == SendPending(s);
      }
    }

    // The gap loop runs on forever where the stash does not reach the recorded number (GapLoopEndsExactly).
    method HandleHeartbeat(message: Msg) returns (left: Msg)
      requires Valid() && (Fires(State()) ==> Reaches(State()))
      modifies this, pendingMessages
      ensures State() == HeartbeatStep(old(State()), message)
      ensures left == message.Emptied()
    {
      if expectedSequenceNumber == lastHeartbeatSequenceNumber {
        heartbeatDelays := heartbeatDelays + 1;
        if heartbeatDelays >= maxDelayHeartbeats {
          ghost var s := State();
          CountedEnds(old(State()));
          while expectedSequenceNumber < lastHeartbeatHighestStashed
            invariant lastHeartbeatHighestStashed == s.lastHighest
            invariant GapLoopEnds(State()) && GapLoop(State()) == GapLoop(s)
          {
            ghost var before := State();
            var found := FindAndPublishGap();
            if found {
              PublishPendingMessages();
            }
            assert State() == GapPass(before);
          }
          lastHeartbeatSequenceNumber := expectedSequenceNumber;
          lastHeartbeatHighestStashed := highestStashed;
          heartbeatDelays := 0;
        }
      } else {
        lastHeartbeatSequenceNumber := expectedSequenceNumber;
        lastHeartbeatHighestStashed := highestStashed;
        heartbeatDelays := 0;
      }
      out := out + [Sent(message)];
      left := message.Emptied();
    }

    method HandleShutdown(message: Msg) returns (left: Msg)
      requires Valid()
      modifies this, pendingMessages
      ensures State() == ShutdownStep(old(State()), message)
      ensures left == message.Emptied()
    {
      ghost var s := State();
      FlushUnfolds(s);
      var found := FindAndPublishGap();
      while found
        invariant s.Shape() && (found, State()) == FindGap(s)
        invariant FlushGaps(s) == FlushGaps(old(State()))
        decreases |Filled(s.pending)|, found
      {
        FlushUnfolds(s);
        PublishPendingMessages();
        s := State();
        FlushUnfolds(s);
        found := FindAndPublishGap();
      }
      FlushUnfolds(s);
      out := out + [Sent(message)];
      left := message.Emptied();
    }

    // What is left of the message: empty when it was sent or stashed, untouched when it was ignored.
    method HandleDataMessage(message: Msg) returns (left: Msg)
      requires Valid()
      modifies this, pendingMessages
      ensures State() == DataStep(old(State()), message)
      ensures left == message || left == message.Emptied()
      ensures left == message && !message.IsEmpty() <==>
        old(expectedSequenceNumber) > 0 && !message.IsEmpty()
        && (message.sequence < old(expectedSequenceNumber)
            || (old(expectedSequenceNumber) < message.sequence < old(expectedSequenceNumber) + lookAhead
                && !old(State()).Slot(message.sequence).IsEmpty()))
    {
      left := message;
      var sequence := message.sequence;
      if expectedSequenceNumber == 0 {
        expectedSequenceNumber := sequence;
        highestStashed := sequence;
      }
      if sequence == expectedSequenceNumber {
        out := out + [Sent(message)];
        left := message.Emptied();
        expectedSequenceNumber := expectedSequenceNumber + 1;
        PublishPendingMessages();
      } else if sequence < expectedSequenceNumber {
      } else if sequence - expectedSequenceNumber < lookAhead {
        var index := sequence % lookAhead;
        if pendingMessages[index].IsEmpty() {
          pendingMessages[index] := message;
          left := message.Emptied();
          if sequence > highestStashed {
            highestStashed := sequence;
          }
        }
      } else {
        // A loop declares gaps here while sequence - expectedSequenceNumber < lookAhead, which is false.
        var index := sequence % lookAhead;
        pendingMessages[index] := message;
        left := message.Emptied();
        highestStashed := sequence;
      }
    }

    method Handle(message: Msg) returns (left: Msg)
      requires Valid() && Ends(State(), message)
      modifies this, pendingMessages
      ensures State() == HandleStep(old(State()), message)
      ensures old(Good(State())) && Fits(old(State()), message) ==> Good(State())
      ensures left == message || left == message.Emptied()
    {
      if Good(State()) && Fits(State(), message) {
        StepGood(State(), message);
      }
      match message.kind
      case Heartbeat => left := HandleHeartbeat(message);
      case Shutdown => left := HandleShutdown(message);
      case Other => left := HandleDataMessage(message);
    }
  }
}
