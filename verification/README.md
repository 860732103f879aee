# A verified model of the High Queue

The High Queue passes messages between threads without copying them: a message is a handle on a block of memory, and
publishing or consuming swaps the blocks of two handles. Around the queue stand a pool that hands out the blocks, and
processing steps that are wired into pipelines; two of these steps, the ordered merge and the shuffler, are inverse to
each other. This project models all three and proves what they promise. `dafny verify dfyconfig.toml` checks it.

## How it is built

**The ring queue.** `QueueMachine` is the queue as interleaved small steps: any number of producers and one consumer,
each with a program counter, each step at most one access to what the threads share. An `Action` is a call, one step of
a thread, a wake-up (notified, timed out or spurious), a stop, or something done with a caller's message between calls:
it is written, moved to another caller, or replaced by one on another block, so each call may publish another message.
`QueueInvariants` says what holds of each thread, `QueueData` what holds of the entries and the blocks, `QueueSystem`
proves that every action keeps the whole invariant, and `QueueRuns` lifts this to runs. `QueueTheorems`,
`QueueOutcomes`, `QueueAnswers`, `QueueProgress`, `QueueSignals`, `QueueTurns`, `QueueDeadlock` and `QueueSleep` hold
the results. Every result is about every state that any interleaving of any length reaches, for any entry count, any
wait strategies and any number of producers. `QueueCalls` has the same calls as classes with fields updated in place,
for the case that nothing comes in between; there an entry may also be marked to be stepped over.

**The merge and the shuffler.** `OrderedMergeStep` and `ShufflerStep` are the two steps as classes whose methods are
proved to do to their fields what the functions of `MergeSpec` and `ShufflerSpec` say. `MergeWindow` and `MergeRuns`
carry the invariants of the merge, `MergeTheorems` its promises, `MergeHeartbeats` when a heartbeat declares gaps, and
`MergeUndoesShuffle` and `ShuffleStart` the two together.

**The pool and the life of a pipeline.** `BlockPool` has the pool, its messages and the memory pool as classes over an
array of bytes in which the links of the free list are stored as eight-byte words (`Words`); `BlockPoolSpec` says what
the operations do. `Custody` runs any mix of operations on any number of messages. `QueueOnPool` sets a queue up on
messages constructed from a pool. `QueueCustody` shows that queue and pool agree after each step of a thread and after
each operation on messages between calls, and `QueueLife` follows both from setting up to closing. `Layout` has the
allocator inside the queue's own block of memory, and `Resources` the phases in which steps are configured, attached and
started.

| source | model |
|---|---|
| Producer.cpp canPublish, waitToPublish, publish, notifyConsumer | `QueueMachine.CanPublish`, `RetryStep`, `BlockStep`, `PublishStep`, `ContendStep` |
| SpinLock.hpp Guard, Unguard | the field `owns` and the steps `Acquire`, `Drop`, `Rejoin`, `Finish` |
| Consumer.cpp tryGetNext, incrementReadPosition, getNext | `QueueMachine.TryStep`, `GetStep` |
| Producer.cpp stop, Consumer.cpp stop | the actions `StopProducer`, `NotifyStopped`, `StopConsumer` |
| OrderedMerge.cpp handlers | `MergeSpec.DataStep`, `HeartbeatStep`, `ShutdownStep`, `FindGap`, `PublishPending` |
| Shuffler.cpp handlers | `ShufflerSpec.Deal`, `FlushFrom`, `Shuffle1` |
| HQMemoryBlockPool.cpp, Message.hpp, Message.cpp | `BlockPoolSpec.TryAllocate`, `Release`, `MoveTo`, `SetUsed`, `Append` |

Where the code does not do what its comments or its interface promise, the code is modelled:

- `getNext` calls `tryGetNext` with the wait mutex held, which takes the mutex again when the producers' strategy uses it.
  `QueueDeadlock.StuckExactlyWhen` says exactly when a consumer can end up waiting for itself, `StuckForever` that nothing
  frees it, and `QueueSleep.HolderCanStep` that threads cannot wait for one another in any other way.
- A wait strategy counts as using the mutex when no count equals `FOREVER`, but a count above `FOREVER` is counted down to
  it and then lasts. The waits on condition variables are reached exactly if every count is below it
  (`QueueSleep.ProducerSleepsExactlyWhen`, `QueueSleep.ConsumerSleepsExactlyWhen`).
- The loop at src/StepLibrary/OrderedMerge.cpp:217 repeats a test that has just failed, so a message at or beyond the window
  is stashed over whatever its cell holds. The merge keeps its window exactly if no such message arrives
  (`MergeTheorems.WindowKeptIffFits`). Without it the gap loop of a heartbeat may run forever: it ends exactly if the
  recorded number has been passed or the window holds the number before it or a later one
  (`MergeSpec.GapLoopEndsExactly`). One message beyond the window is enough to send a number in the place of another and
  to hang the loop (`MergeTheorems.BeyondWindowHangs`).
- A heartbeat that flushes the shuffler too early turns the start of the stream round, and the merge then drops the first
  message (`ShuffleStart.EarlyHeartbeatLoses`). What is lost are exactly the messages numbered below the first one forwarded
  (`MergeUndoesShuffle.MergeKeepsTheRest`). The merge undoes the shuffle exactly if the first message goes first
  (`MergeUndoesShuffle.UndoneExactly`), and `ShuffleStart.UndoneExactlyWhen` says for every stream when that is, in terms
  of the deck, the prime and the length of the first run of data.
- An allocation into a message that is still on a block forgets that block (`Custody.EveryBlockHasOneHolder`).
- `allocate` does not add padding to its position; when that is harmless is `Layout.NextIsApart`. Offsets have 32 bits:
  the parts of a queue are apart exactly if the last of them ends within their range (`Layout.PartsApartExactly`).
- The parameters of a queue say that one extra message may be allocated; with the extra cache line of `MemoryPool` it can be
  two (`BlockPoolSpec.OneOrTwoMore`).

## Model

| member | source | states |
|---|---|---|
| `QueueTheorems.FirstInFirstOut` | src/HighQueue/Consumer.cpp:62-89 | in every reachable state the contents handed over, followed by what the entries from the read position up to the publish position say, are the contents published, in the order of the stores of the publish position; at most entryCount are waiting |
| `QueueTheorems.PublishedInCallOrder` | src/HighQueue/Producer.cpp:181-276 | every message published is that of a call of publish made in the run, and the messages of one producer are published in the order of its calls, none twice |
| `QueueOutcomes.PublishReports` | src/HighQueue/Producer.cpp:204-276 | when publish returns or throws, its local verdict is true exactly if the call is in the history; if not, the caller still has the message and it says what it said |
| `QueueOutcomes.UntroubledPublishes` | src/HighQueue/Producer.cpp:204-276 | a producer that is not stopped and has no wait time out never throws, and each of its calls that returns is in the history |
| `QueueProgress.PublishEnds` | src/HighQueue/Producer.cpp:86-276 | from every reachable state in which the locks are free or its own, a call of publish that has room, or a reason to give up, returns or throws within finitely many steps of its own, a wake-up included; if there is room its message is then in the history, unless the call had given up before, and if there is none it is not |
| `QueueProgress.TimedOutEnds` | src/HighQueue/Producer.cpp:128-146 | a producer whose wait has timed out comes to the end of its call by steps of its own, with its message in the history if and only if there is room and it is not a lone producer that is stopped |
| `QueueOutcomes.ReadsWhatWasWritten` | src/HighQueue/Consumer.cpp:78-84 | the n-th message taken says what the n-th publish was called with, and goes on saying it whatever the producers do, until the consumer writes it or takes the next |
| `QueueAnswers.CallAnswers` | src/HighQueue/Consumer.cpp:62-158 | a call that returns true has taken exactly one message, and the caller's message says it; one that does not has taken none: tryGetNext found the queue empty when it looked last, getNext was stopped or its wait timed out |
| `QueueAnswers.OneMessageAtMost` | src/HighQueue/Consumer.cpp:96-158 | in every reachable state no more than one message has been taken since the consumer's present or last call began |
| `QueueAnswers.UntroubledGets` | src/HighQueue/Consumer.cpp:96-158 | a consumer that is not stopped and has no wait time out gets a message from every getNext that returns |
| `QueueProgress.GetEnds` | src/HighQueue/Consumer.cpp:62-158 | from every reachable state in which the mutex is free or its own, a call of the consumer that can end does so by steps of its own, and its answer is decided by what is waiting, by the stop and by the timeout; the one call that cannot is about to take a message under a mutex that the producers use too |
| `QueueOutcomes.StepKeepsMemory` | src/HighQueue/Message.hpp:403-413 | no step of any thread changes the bytes of a block that another message holds; only the owner of a message with no call under way writes it |
| `QueueTheorems.CachesAreSafe` | src/HighQueue/Producer.cpp:62-83 | the read position never passes the publish position nor this the read position plus entryCount, no cached bound passes the truth, every waiting entry is OK, the entry being written is none of those waiting, and only one is written at a time |
| `QueueRuns.RunsGrow` | src/HighQueue/Consumer.cpp:47-60 | over any run both positions only grow and neither history is rewritten |
| `QueueTheorems.NoLostWakeUp` | src/HighQueue/Producer.cpp:165-179 | a consumer asleep and not notified while the queue is not empty has a producer that has stored the position and is about to signal; a producer asleep and not notified while there is room has a consumer about to signal; both asleep implies a producer about to signal |
| `QueueTheorems.SignalWakesConsumer` | src/HighQueue/Producer.cpp:173-178 | the signal step of a producer leaves no consumer asleep unnotified, whatever was flagged, and no flag |
| `QueueTheorems.SignalWakesProducers` | src/HighQueue/Consumer.cpp:51-59 | the signal step of the consumer leaves no producer asleep unnotified, whatever was flagged, and no flag |
| `QueueSignals.ReturnsAfterSignal` | src/HighQueue/Producer.cpp:165-202 | over every run, a call of publish that comes to its return with its message published, or that a lone producer comes to, stopped or not, has taken the step that signals the consumer, unless a count of the consumer's strategy equals FOREVER |
| `QueueTheorems.WaitsOnlyWithMutex` | src/HighQueue/WaitStrategy.hpp:23-41 | a thread reaches the waits on a condition variable only if every count of its strategy runs out |
| `QueueTheorems.SignalsOnlyWithoutForever` | src/HighQueue/WaitStrategy.hpp:40 | in every reachable state the consumer is about to signal, or a producer has the mutex to signal, only if no count of the other side's strategy equals FOREVER |
| `QueueTheorems.StopWakes` | src/HighQueue/Producer.cpp:278-283 | a stop sets the flag of its thread and leaves nobody it is meant for asleep unnotified, the producers once the mutex was free; it changes nothing else |
| `QueueTurns.TurnsInOrder` | src/HighQueue/Producer.cpp:98-125 | a strategy whose counts run out makes exactly as many turns as they say together before the mutex, the spins first, then the yields, then the sleeps |
| `QueueTurns.TurnsForever` | src/HighQueue/Producer.cpp:98-125 | with a count of FOREVER or more the mutex never comes, and the counts behind it are never used |
| `QueueSleep.ProducerSleepsExactlyWhen` | src/HighQueue/Producer.cpp:218-267 | from any start with a producer, some run puts a producer to sleep if and only if every count of the producers' strategy is below FOREVER |
| `QueueSleep.ConsumerSleepsExactlyWhen` | src/HighQueue/Consumer.cpp:105-146 | from any start with a producer, some run puts the consumer to sleep if and only if every count of its strategy is below FOREVER |
| `QueueTheorems.LockDiscipline` | src/Common/SpinLock.hpp:163-216 | a producer among several has the spin lock exactly while it is publishing and not waiting, has neither lock between calls, and does not have the mutex while it waits for the spin lock; a producer alone never takes it |
| `QueueTheorems.RingTouchedUnderLock` | src/HighQueue/Producer.cpp:204-216 | an action of a producer changes entries, publish position or history only if it is the only producer or has the spin lock |
| `QueueRuns.After` | src/HighQueue/Producer.cpp:151-163 | after any run the whole invariant holds, so no two messages of the queue are on one block, and unless a caller's message was replaced by another between calls the blocks held are those held before |
| `QueueDeadlock.StuckForever` | src/HighQueue/Consumer.cpp:51-53 | a consumer that waits for the mutex it holds stays there and the mutex stays taken, over every run |
| `QueueDeadlock.StuckExactlyWhen` | src/HighQueue/Consumer.cpp:137-143 | from any start with a producer, such a state can be reached if and only if no count of the producers' strategy equals FOREVER and every count of the consumer's is below it |
| `QueueSleep.HolderCanStep` | src/HighQueue/Producer.cpp:165-276 | in every reachable state in which a lock is taken and the consumer does not wait for itself, some thread that has a lock changes the state with its next step |
| `QueueInvariants.RunOk` | src/HighQueue/Producer.cpp:86-149 | every step of a producer keeps what holds of it, and does no more to the others than take what is free, give up what it has, or signal |
| `QueueInvariants.ConsumerActOk` | src/HighQueue/Consumer.cpp:96-158 | every step of the consumer keeps what holds of it, and frees a producer's room only where it then owes a signal |
| `QueueSystem.StepKeepsInv` | src/HighQueue/Producer.cpp:181-276 | every action of every thread keeps the invariant of the whole queue and the set of blocks held |
| `QueueSystem.WriterApart` | src/HighQueue/details/HQEntryAccessor.hpp:31-34 | the entry a producer works on has another index modulo entryCount than every entry waiting to be read |
| `QueueSystem.OneWriter` | src/HighQueue/Producer.cpp:207-216 | two producers never work on an entry at the same time |
| `QueueCalls.Producer.CanPublish` | src/HighQueue/Producer.cpp:62-83 | the cached bound gives the same answer as the read position itself |
| `QueueCalls.Producer.Publish` | src/HighQueue/Producer.cpp:181-202 | uninterrupted, the message becomes the last waiting one, saying what it said, if and only if an entry not to be stepped over is left before the queue is full; otherwise what waits and the message are untouched |
| `QueueCalls.Consumer.TryGetNext` | src/HighQueue/Consumer.cpp:62-89 | uninterrupted, the oldest waiting message is taken and the rest stay, entries to be stepped over are passed, and false means that nothing was waiting |
| `QueueCalls.WaitingApart` | src/HighQueue/details/HQEntryAccessor.hpp:31-34 | writing an entry whose position is outside the waiting ones, less than a round away, changes none of them |
| `OrderedMergeStep.OrderedMerge.HandleDataMessage` | src/StepLibrary/OrderedMerge.cpp:173-234 | the method leaves the state that the step function gives |
| `OrderedMergeStep.OrderedMerge.HandleHeartbeat` | src/StepLibrary/OrderedMerge.cpp:132-159 | wherever the gap loop does not run or the stash reaches the recorded number, which is exactly where the loop ends, the method leaves the state that the step function gives |
| `OrderedMergeStep.OrderedMerge.HandleShutdown` | src/StepLibrary/OrderedMerge.cpp:161-171 | the flush loop terminates and the method leaves the state that the step function gives |
| `OrderedMergeStep.OrderedMerge.FindAndPublishGap` | src/StepLibrary/OrderedMerge.cpp:236-261 | the search finds the first occupied cell of the window or changes nothing |
| `OrderedMergeStep.OrderedMerge.PublishPendingMessages` | src/StepLibrary/OrderedMerge.cpp:272-282 | the loop sends from the stash until the expected cell is empty |
| `OrderedMergeStep.OrderedMerge.Handle` | src/StepLibrary/OrderedMerge.cpp:111-130 | of any message, beyond the window or not, unless it is a heartbeat whose gap loop never ends: the step function of its type gives the state left, and the invariant of the window is kept where the message is inside it |
| `MergeTheorems.MergeAccounting` | src/StepLibrary/OrderedMerge.cpp:173-282 | over every run inside the window the numbers from the first up to the expected one are each sent or in a declared gap and never both, sends increase, only received messages are sent, and every message received is below the first, sent, in a gap or stashed |
| `MergeTheorems.MergeNeverForgets` | src/StepLibrary/OrderedMerge.cpp:195-213 | a number once sent or stashed is sent or stashed ever after |
| `MergeTheorems.DroppedExactlyWhenKnown` | src/StepLibrary/OrderedMerge.cpp:195-213 | a data message changes nothing if and only if its number is behind or the stash holds that very number |
| `MergeTheorems.MergeRefinesSet` | src/StepLibrary/OrderedMerge.cpp:173-213 | with no gap declared the numbers sent are first, first + 1, … up to the expected one, which is the least not received, and the stash is exactly what was received above it |
| `MergeTheorems.HeartbeatPatience` | src/StepLibrary/OrderedMerge.cpp:132-146 | a heartbeat declares a gap only as at least the maxDelayHeartbeats-th in a row to find the same expected number, and only with the recorded number still stashed |
| `MergeTheorems.DelaysCountQuiet` | src/StepLibrary/OrderedMerge.cpp:136-158 | the counter of delays never exceeds the heartbeats since the expected number last moved |
| `MergeTheorems.HeartbeatDelivers` | src/StepLibrary/OrderedMerge.cpp:139-146 | when the gap loop fires, everything stashed up to the recorded number has been sent when it ends |
| `MergeTheorems.RecordedIsDelivered` | src/StepLibrary/OrderedMerge.cpp:132-159 | everything stashed when a heartbeat recorded the stash has been sent once the loop fires on that record |
| `MergeHeartbeats.HeartbeatSendsExactly` | src/StepLibrary/OrderedMerge.cpp:132-159 | in every run inside the window a heartbeat sends stashed messages if and only if the expected number is the one last taken down, it is at least the maxDelayHeartbeats-th heartbeat since, and something was stashed then; it sends exactly what is stashed up to the first number missing after the highest one stashed then, so everything stashed then |
| `MergeHeartbeats.CountersSay` | src/StepLibrary/OrderedMerge.cpp:132-158 | in every run the counters say the expected number and the highest one stashed when a heartbeat last took them down, and exactly how many heartbeats have come since |
| `MergeHeartbeats.StashMovesOn` | src/StepLibrary/OrderedMerge.cpp:132-159 | once a message is stashed, twice maxDelayHeartbeats heartbeats, or two where it is 0, move the expected number, whatever else arrives with them |
| `MergeTheorems.ShutdownFlushes` | src/StepLibrary/OrderedMerge.cpp:161-171 | before a shutdown goes out exactly what was stashed goes out, in increasing order, and the stash is empty |
| `MergeTheorems.NoGapMeansEmpty` | src/StepLibrary/OrderedMerge.cpp:236-261 | whatever is stashed, the search for a gap answers false if and only if every cell is empty |
| `MergeTheorems.WindowKeptIffFits` | src/StepLibrary/OrderedMerge.cpp:214-233 | the invariant of the stash survives a data message if and only if the message is less than lookAhead ahead |
| `MergeTheorems.BeyondWindowHangs` | src/StepLibrary/OrderedMerge.cpp:214-233 | a run with one message beyond the window sends a message in the place of another and its gap loop passes over an empty stash forever |
| `MergeSpec.GapLoopEndsExactly` | src/StepLibrary/OrderedMerge.cpp:139-146 | for every state, in the window or not, the gap loop ends if and only if the recorded number has been passed or some number from the one before it on is stashed in the window |
| `MergeSpec.PassCells` | src/StepLibrary/OrderedMerge.cpp:139-146 | a pass changes nothing exactly if the window is empty; otherwise it moves past a stashed number, empties the cells it passes and leaves the rest of the window |
| `MergeTheorems.NoWrap` | src/StepLibrary/OrderedMerge.cpp:173-234 | no counter leaves the range of the numbers received, so that 32 bits suffice where these and lookAhead fit |
| `MergeWindow.OccupiedMeansHeld` | src/StepLibrary/OrderedMerge.cpp:195-213 | in the window an occupied cell holds exactly the number asked for, so occupancy is a correct test for duplicates |
| `MergeWindow.GapLoopAdvances` | src/StepLibrary/OrderedMerge.cpp:139-146 | inside the window the gap loop terminates, and what it sends and declares covers the numbers it passes |
| `MergeWindow.FlushAdvances` | src/StepLibrary/OrderedMerge.cpp:161-171 | the flush of a shutdown empties the stash, and what it sends and declares covers the numbers it passes |
| `MergeRuns.After` | src/StepLibrary/OrderedMerge.cpp:111-130 | over every run inside the window each occupied cell holds a number that belongs in it, ahead of the expected one by less than lookAhead, and the highest number is stashed or behind |
| `ShufflerStep.Shuffler.HandleDataMessage` | src/StepLibrary/Shuffler.cpp:133-143 | the method leaves the deck and the log that the step function gives |
| `ShufflerStep.Shuffler.PublishPendingMessages` | src/StepLibrary/Shuffler.cpp:145-155 | the loop leaves the deck and the log that the flush function gives |
| `ShufflerStep.Shuffler.Handle` | src/StepLibrary/Shuffler.cpp:102-131 | heartbeats and shutdowns flush the deck and go out, data goes into the deck |
| `ShufflerSpec.ShuffleConserves` | src/StepLibrary/Shuffler.cpp:119-155 | what was forwarded and what is in the deck are together what was received, each message as often; after a heartbeat or shutdown the forwarded is a permutation of the received |
| `ShufflerSpec.Displacement` | src/StepLibrary/Shuffler.cpp:133-143 | by the time lookAhead more have been received the first n data messages have been forwarded, each as often as it was received |
| `ShufflerSpec.OlderGoFirst` | src/StepLibrary/Shuffler.cpp:133-155 | when a message is sent from its cell, all those received lookAhead or more places before it have been sent, each as often as it was received |
| `ShufflerSpec.DeckRun` | src/StepLibrary/Shuffler.cpp:133-155 | over every run each cell holds a message received no more than lookAhead places ago whose cell it is, everything not in its cell has been forwarded, and forwarded and held together are what was received, each as often |
| `MergeUndoesShuffle.MergeUndoesShuffle` | src/StepLibrary/Shuffler.cpp:119-155 | a stream numbered without holes, heartbeats and shutdowns anywhere in it, through a shuffler and a merge that looks at least as far ahead as the deck is deep: if the first message goes first, nothing is beyond the window, no gap is declared, what comes out is always a beginning of what went in, and after each heartbeat or shutdown all of it |
| `MergeUndoesShuffle.UndoneExactly` | src/StepLibrary/OrderedMerge.cpp:173-186 | behind a deck no deeper than it looks ahead, the merge gives the stream back, with nothing beyond the window, if and only if the first data message forwarded is the first of the stream |
| `MergeUndoesShuffle.MergeKeepsTheRest` | src/StepLibrary/OrderedMerge.cpp:173-213 | for every numbered stream behind a deck no deeper than the merge looks ahead, whatever goes first: nothing is beyond the window, no gap is declared, and what is lost are exactly the messages numbered below the first one forwarded; the rest comes out in order, all of it after each heartbeat or shutdown |
| `MergeRuns.FirstDataOpens` | src/StepLibrary/OrderedMerge.cpp:173-186 | the first data message of a run is the first entry of the log that is not a control message |
| `MergeUndoesShuffle.EjectedFits` | src/StepLibrary/OrderedMerge.cpp:200-203 | what the shuffler forwards of a numbered stream is always inside the window of the merge behind it, whatever was forwarded first |
| `ShuffleStart.StartsRightExactly` | src/StepLibrary/Shuffler.cpp:119-155 | the first message of a stream is forwarded first if and only if nothing flushes the deck after its first run of data, or two messages of that run share a cell, or its cell is the least |
| `ShuffleStart.UndoneExactlyWhen` | src/StepLibrary/Shuffler.cpp:119-155 | the merge undoes the shuffle if and only if nothing flushes the deck after the first run of data, or two messages of that run share a cell, or the cell of its first message is the least |
| `ShuffleStart.EveryStreamSplits` | src/StepLibrary/Shuffler.cpp:102-117 | every numbered stream with data in it is control messages, a run of data and a rest, as that condition needs |
| `ShuffleStart.EarlyHeartbeatLoses` | src/StepLibrary/OrderedMerge.cpp:173-186 | with deck 3 and prime 2 a heartbeat after two messages turns them round and the merge drops the first |
| `BlockPool.HQMemoryBlockPool.PreAllocate` | src/HighQueue/details/HQMemoryBlockPool.cpp:30-60 | it fails exactly if the first aligned block does not fit; otherwise the loop ends with every block that fits, and no other, on the free list in the order of addresses |
| `BlockPool.HQMemoryBlockPool.TryAllocate` | src/HighQueue/details/HQMemoryBlockPool.cpp:62-74 | the first block of the free list, read from the links in memory, goes to the message, and false means the list is empty |
| `BlockPool.HQMemoryBlockPool.Allocate` | src/HighQueue/details/HQMemoryBlockPool.cpp:76-82 | allocation throws exactly if no block is free |
| `BlockPool.HQMemoryBlockPool.Release` | src/HighQueue/details/HQMemoryBlockPool.cpp:84-96 | the block becomes the first of the free list and the message is on none; a message from elsewhere is refused and nothing changes |
| `BlockPool.HQMemoryBlockPool.IsEmpty` | src/HighQueue/details/HQMemoryBlockPool.cpp:98-101 | true exactly if the free list is empty |
| `BlockPool.HQMemoryBlockPool.Append` | src/HighQueue/Message.hpp:514-522 | the data goes behind what the message says, if it fits, and the free list is undisturbed; otherwise nothing is written |
| `BlockPool.Message.MoveTo` | src/HighQueue/Message.hpp:403-413 | the blocks are swapped and the contents go with theirs, and the source is left empty; a message moved to itself only loses its contents |
| `BlockPool.Message.Release` | src/HighQueue/Message.cpp:40-47 | a message on a block gives it back and is empty, with capacity 0, on none; one on none changes nothing |
| `BlockPool.Message.SetUsed` | src/HighQueue/Message.hpp:281-290 | it succeeds exactly if the size is within the capacity, and the used size never passes it |
| `BlockPool.Message.SetRead` | src/HighQueue/Message.hpp:311-320 | it succeeds exactly if the position is within the used size, and a read position within it stays there |
| `BlockPool.MemoryPool.constructor` | src/HighQueue/MemoryPool.cpp:8-14 | wherever its memory lies, the pool starts with at least the blocks asked for and at most two more, all free; it throws exactly if none are asked for and none fits in the spare room |
| `BlockPool.MemoryPool.Allocate` | src/HighQueue/MemoryPool.cpp:30-34 | allocations are counted exactly when they succeed |
| `BlockPoolSpec.AllocateTakesFirst` | src/HighQueue/details/HQMemoryBlockPool.cpp:62-74 | the links left in memory spell out the rest of the list, and the block allocated is not on it; the message is empty on it, its read position and the rest as they were |
| `BlockPoolSpec.ReleasePutsFirst` | src/HighQueue/details/HQMemoryBlockPool.cpp:84-96 | writing the link into the released block makes the memory spell out the list with it in front; the message is empty, with capacity 0, on no pool |
| `BlockPoolSpec.WritingLeavesList` | src/HighQueue/details/HQMemoryBlockPool.cpp:62-96 | whatever is written inside a block that is not free, the links spell out the same list |
| `BlockPoolSpec.BlocksApart` | src/HighQueue/details/HQMemoryBlockPool.cpp:30-60 | two blocks of a pool do not overlap |
| `BlockPoolSpec.BlockInside` | src/HighQueue/details/HQMemoryBlockPool.cpp:30-60 | every block lies on a cache line, behind the pool object and inside the pool |
| `BlockPoolSpec.OneList` | src/HighQueue/details/HQMemoryBlockPool.cpp:62-96 | the links in memory decide the list |
| `BlockPoolSpec.AppendStaysInside` | src/HighQueue/Message.hpp:514-522 | appending changes no byte outside the message's block, and what was in it stays in front |
| `BlockPoolSpec.SpaceIsEnough` | src/HighQueue/details/HQMemoryBlockPool.cpp:104-112 | the exact number of blocks in a pool of the size that spaceNeeded gives, for every address |
| `BlockPoolSpec.OneOrTwoMore` | src/HighQueue/MemoryPool.cpp:8-11 | never fewer blocks than asked for; one more, or two with the extra cache line, exactly for blocks of one line in a pool whose object ends on a line |
| `Words.RoundTrip` | src/HighQueue/details/HQMemoryBlockPool.cpp:92-93 | a link written as bytes is read back as it was |
| `Custody.EveryBlockHasOneHolder` | src/HighQueue/details/HQMemoryBlockPool.cpp:62-96 | through any mix of allocating, moving, writing and releasing, the free list stays a list of distinct blocks, no block is free and held or held twice, and all are accounted for if and only if no allocation was made into a message still on one |
| `Custody.WrittenIsRead` | src/HighQueue/Message.hpp:403-413 | what was written into a message is read from the message it has been moved to, however often and whatever else happens |
| `Custody.StepOrderly` | src/HighQueue/Message.cpp:40-55 | every operation, on any message, keeps the free list and the messages apart |
| `Custody.StepComplete` | src/HighQueue/details/HQMemoryBlockPool.cpp:62-96 | an operation keeps every block accounted for exactly if it overwrites no message on a block, and a lost block never comes back |
| `Custody.OverwritingLoses` | src/HighQueue/Message.cpp:22-28 | allocating into a message on a block leaves that block neither free nor held |
| `Custody.ReleaseTwice` | src/HighQueue/Message.cpp:40-55 | releasing twice is releasing once |
| `Custody.ConstructAll` | src/HighQueue/details/HQHeader.cpp:75-85 | constructing messages takes one block each, all different, as long as there are so many |
| `QueueOnPool.MoveAgrees` | src/HighQueue/Message.hpp:403-413 | the move of the queue is the move of the pool's messages |
| `QueueOnPool.SaysAgrees` | src/HighQueue/Message.hpp:410-413 | what a message says in the pool's memory is what it says in the queue |
| `QueueOnPool.PoolToQueue` | src/HighQueue/details/HQHeader.cpp:49-85 | constructing the messages of a queue, its producers and its consumer from a new pool with enough blocks gives a queue that can start: every message on a block of its own |
| `QueueCustody.ThreadShows` | src/HighQueue/Message.hpp:403-413 | every step of a thread is nothing or one move for the messages of the pool, and queue and pool agree after it |
| `QueueCustody.UserShows` | src/StepLibrary/InputQueue.cpp:181-189 | any allocation, move, write or release of messages, those of callers at rest included, is nothing, a move or a replacement for the queue, and queue and pool agree after it |
| `QueueLife.SetUp` | src/HighQueue/details/HQHeader.cpp:75-85 | a queue set up on messages constructed from a new pool with enough blocks agrees with it, and every block is accounted for |
| `QueueLife.EveryBlockInOnePlace` | src/HighQueue/details/HQMemoryBlockPool.cpp:62-96 | over every run in which producers and consumer interleave and their messages, between calls, and all others are allocated, moved, written and released, queue and pool agree, and every block is free, under one message of the queue or under one other message, and only one of these, exactly as long as no such allocation is made into a message still on a block |
| `QueueLife.EveryBlockComesBack` | src/HighQueue/details/HQHeader.cpp:87-98 | when after any such run all messages are released, those of the entries included, every block is on the free list, exactly if no such allocation was made into a message still on a block |
| `QueueLife.HalvesAreRuns` | src/StepLibrary/SendToQueue.cpp:86-94 | the queue's half of such a run is one of its runs and the pool's half one of its own, so that order and contents are kept in both |
| `Layout.NextIsApart` | src/HighQueue/details/HQAllocator.hpp:30-35 | two allocations in a row do not overlap if and only if the position was aligned, the size is a multiple of the alignment, or their remainders together pass it |
| `Layout.HeaderFits` | src/HighQueue/Connection.cpp:54-63 | wherever the block of memory lies, if the last part ends within the range of an offset, header, entries and the three positions lie on cache lines, one behind the other, inside the space asked for |
| `Layout.PartsApartExactly` | src/HighQueue/details/HQHeader.cpp:49-60 | for every entry count, header, entries and the three positions are pairwise apart if and only if aligned header, entries and three cache lines together fit the range of a 32-bit offset |
| `Layout.PlacesWrap` | src/HighQueue/details/HQAllocator.hpp:30-48 | for every entry count the places are those of the parts one behind the other, truncated to 32 bits |
| `Layout.EntriesApart` | src/HighQueue/details/HQEntryAccessor.hpp:31-34 | each entry has its own cache lines inside the array |
| `Layout.HQHeader.constructor` | src/HighQueue/details/HQHeader.cpp:49-60 | unless offsets wrap, the entries come behind the header and the three positions right behind the entries, a cache line each |
| `Layout.AlignPads` | src/HighQueue/details/HQAllocator.hpp:44-48 | the result is a multiple of the alignment less than one alignment further on |
| `Layout.WideQueueOverlaps` | src/HighQueue/details/HQAllocator.hpp:30-35 | an example: behind entries of the whole range of an offset the read position falls on the first of them |
| `Layout.SmallObjectsCollide` | src/HighQueue/details/HQAllocator.hpp:30-35 | two small objects can be given the same place |
| `Resources.SharedResources.Configure` | src/Steps/SharedResources.cpp:40-58 | blocks, largest size and queues asked for so far are those of the steps so far |
| `Resources.SharedResources.Attach` | src/StepLibrary/InputQueue.cpp:173-179 | attaching a step takes exactly the blocks it asked for, each message on a block of its own, and fails only if there are fewer |
| `Resources.SharedResources.MakeMessages` | src/StepLibrary/OrderedMerge.cpp:87-98 | the loop makes as many messages as asked for exactly if so many blocks are free |
| `Resources.SharedResources.FindQueue` | src/StepLibrary/SendToQueue.cpp:45-51 | a sender counts itself at the connection of its queue's name, and nowhere else |
| `Resources.SharedResources.CreateResources` | src/Steps/SharedResources.cpp:71-107 | for every list of steps it fails only for want of a request, of a size or of a queue, never of a block; otherwise there are as many messages as the steps asked for, each on a block of its own with room for the size that any of them asked for |
| `Resources.SharedResources.Start` | src/StepLibrary/SendToQueue.cpp:80-84 | the steps are started from the last to the first, and a producer is alone if and only if exactly one step sends to its queue, in whatever order the steps come |
| `ResourcesSpec.OneName` | src/HighQueue/Connection.cpp:24-32 | the producers a connection expects are the steps that send to its name |
| `ResourcesSpec.AloneExactly` | src/HighQueue/Connection.cpp:29-32 | the count is one if and only if no other step sends to the queue |
| `ResourcesSpec.QueuesAreNamed` | src/Steps/SharedResources.cpp:54-69 | every name finds the last input queue of that name |
| `ResourcesSpec.LargestBounds` | src/Steps/SharedResources.cpp:45-52 | the size of the blocks is enough for every step, and is that of one of them |

## Left out

- `QueueTheorems.NoLostWakeUp`: says who will signal, not that the signal is given in bounded time; the scheduler is not modelled. `QueueProgress` says that a call can end by steps of its own once the locks are free.
- `MergeTheorems.MergeAccounting`: holds of runs in which no data message is lookAhead or more ahead; `WindowKeptIffFits` says that the window is lost otherwise.
- `Layout.HeaderFits`: holds where the parts fit the 32 bits of an offset; `PartsApartExactly` says that they overlap otherwise.
- `QueueCalls.Producer.CanPublish`: without the branch that discards what waits when no consumer is attached.
- `QueueCalls.Producer.Publish`: returns where publish would go on to wait on a full queue; waiting and notifying are steps of `QueueMachine`.
- `QueueSystem.StepKeepsInv`: the threads of the queue are values that one step function changes, so that their steps can interleave; updates in place are in `QueueCalls`, for uninterrupted calls.
- `Custody.EveryBlockHasOneHolder`: pool and messages are values there too; the same operations in place are in `BlockPool`.
- Memory orders, `volatile`, fences and cache effects: steps are sequentially consistent and locks are abstract.
- Real time: sleep periods and timeouts are steps that may happen at any moment.
- That `stop` takes effect promptly: it does not hold, as flags are set and notifications given outside the mutex.
- Discarding messages when there is no consumer.
- 64-bit positions and sizes are unbounded numbers; 32-bit sequence numbers too, with `MergeTheorems.NoWrap` saying when that is the same.
- Producers constructed without a step, and two queues side by side: a message handed from one to another is, for each, moved or replaced between calls.
- The reserve position, which only `unreserve` writes and nothing reads.
- The spin lock's own implementation and the moving of its guards; the pool's operations are atomic under its lock.
- The gap message that is filled in and never sent: gaps are recorded in the log.
- In the merge and the shuffler a message is its type, number and bytes; timestamp and read position travel with it unexamined.
- `BlockPool.HQMemoryBlockPool.PreAllocate`: with the stored sizes, as the constructor calls it; a pool filled by hand after the constructor without arguments, whose size check still sees the old block size, is not modelled.
- Memory running out when the pool's own memory is allocated.
- `Resources.SharedResources.CreateResources`: without the checks of `validate` on destinations, which can also make it throw.
- `QueueLife.EveryBlockInOnePlace`: a message may be on no block of the pool, but what it then says elsewhere is not followed.
- Statistics, logging, the multiple queue consumer, round robin, fan-out, leaker, pass-through and mock steps.
- Asio, multicast, heartbeat timers, console, configuration files, the builder and the step factory.
- Queues in shared memory, which are not implemented.
