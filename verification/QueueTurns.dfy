// How long a wait strategy keeps a thread from the mutex, and in which order it uses its counts.
module QueueTurns {
  import opened QueueMachine

  // What is left after k turns, unless the strategy has come to the mutex before.
  function Turns(n: Count, k: nat): Option<Count> {
    if k == 0 then Some(n)
    else match Turns(n, k - 1)
         case Some(left) => Turn(left)
         case None => None
  }

  function Less(n: nat, used: int): nat {
    if used <= 0 then n else if used >= n then 0 else n - used
  }

  // Counts that run out are used up one turn at a time, the spins first, then the naps, then the sleeps;
  // the mutex comes after exactly so many turns as the three say together.
  lemma {:induction false} TurnsInOrder(w: WaitStrategy, k: nat)
    requires w.spinCount < 0xFFFF_FFFF && w.yieldCount < 0xFFFF_FFFF && w.sleepCount < 0xFFFF_FFFF
    ensures Turns(Fresh(w), k).Some? <==> k <= w.spinCount + w.yieldCount + w.sleepCount
    ensures Turns(Fresh(w), k).Some? ==>
      Turns(Fresh(w), k).value == Count(Less(w.spinCount, k), Less(w.yieldCount, k - w.spinCount),
                                        Less(w.sleepCount, k - w.spinCount - w.yieldCount))
  {
    if k == 0 {
    } else {
      TurnsInOrder(w, k - 1);
    }
  }

  // A count of FOREVER or more goes down to FOREVER and stays there.
  function Lasting(n: nat, used: int): nat {
    if used <= 0 then n else if n - used >= 0xFFFF_FFFF then n - used else 0xFFFF_FFFF
  }

  // With a count of FOREVER or more the mutex never comes, and the counts behind it are never used.
  lemma {:induction false} TurnsForever(w: WaitStrategy, k: nat)
    requires w.spinCount >= 0xFFFF_FFFF || w.yieldCount >= 0xFFFF_FFFF || w.sleepCount >= 0xFFFF_FFFF
    ensures Turns(Fresh(w), k).Some?
    ensures Turns(Fresh(w), k).value ==
      if w.spinCount >= 0xFFFF_FFFF then Count(Lasting(w.spinCount, k), w.yieldCount, w.sleepCount)
      else if w.yieldCount >= 0xFFFF_FFFF then
        Count(Less(w.spinCount, k), Lasting(w.yieldCount, k - w.spinCount), w.sleepCount)
      else
        Count(Less(w.spinCount, k), Less(w.yieldCount, k - w.spinCount),
              Lasting(w.sleepCount, k - w.spinCount - w.yieldCount))
  {
    if k == 0 {
    } else {
      TurnsForever(w, k - 1);
    }
  }
}
