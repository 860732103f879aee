// The shuffler step itself, proved to do to its fields what ShufflerSpec says.
module ShufflerStep {
  import opened Messages
  import S = ShufflerSpec

  class Shuffler {
    const lookAhead: nat
    const prime: nat
    var position: nat
    const pendingMessages: array<Msg>
    // What the destination has been handed.
    ghost var out: seq<Msg>

    ghost predicate Valid() {
      lookAhead >= 1 && pendingMessages.Length == lookAhead
    }

    ghost function State(): S.Shuffler
      reads this, pendingMessages
    {
      S.Shuffler(lookAhead, prime, position, pendingMessages[..], out)
    }

    constructor (lookAhead: nat, prime: nat)
      requires lookAhead >= 1
      ensures Valid() && fresh(pendingMessages)
      ensures State() == S.NewShuffler(lookAhead, prime)
    {
      this.lookAhead, this.prime, position := lookAhead, prime, 0;
      pendingMessages := new Msg[lookAhead](_ => BLANK);
      out := [];
    }

    method Send(index: nat)
      requires Valid() && index < lookAhead && !pendingMessages[index].IsEmpty()
      modifies this`out, pendingMessages
      ensures State() == S.Eject(old(State()), index)
    {
      out := out + [pendingMessages[index]];
      pendingMessages[index] := pendingMessages[index].Emptied();
    }

    method HandleDataMessage(message: Msg)
      requires Valid()
      modifies this, pendingMessages
      ensures State() == S.Deal(old(State()), message)
    {
      position := position + prime;
      var index := position % lookAhead;
      if !pendingMessages[index].IsEmpty() {
        Send(index);
      }
      pendingMessages[index] := message;
    }

    method PublishPendingMessages()
      requires Valid()
      modifies this`out, pendingMessages
      ensures State() == S.FlushFrom(old(State()), 0)
    {
      for index := 0 to lookAhead
        invariant S.FlushFrom(State(), index) == S.FlushFrom(old(State()), 0)
      {
        if !pendingMessages[index].IsEmpty() {
          Send(index);
        }
      }
    }

    method Handle(message: Msg)
      requires Valid()
      modifies this, pendingMessages
      ensures State() == S.Shuffle1(old(State()), message)
    {
      if message.IsData() {
        HandleDataMessage(message);
      } else {
        PublishPendingMessages();
        out := out + [message];
      }
    }
  }
}
