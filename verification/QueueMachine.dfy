// The ring queue as interleaved small steps. Each thread has a program counter; a step makes at most one access
// to what the threads share (a lock operation, a read or a write of a position, a flag or an entry).
// A step that has to wait for a lock leaves the state as it is.
module QueueMachine {
  import Messages
  import Words

  datatype Option<T> = None | Some(value: T)

  // ---- configuration ----

  const FOREVER: nat := 0xFFFF_FFFF

  datatype WaitStrategy = WaitStrategy(spinCount: nat, yieldCount: nat, sleepCount: nat) {
    predicate MutexUsed() {
      spinCount != FOREVER && yieldCount != FOREVER && sleepCount != FOREVER
    }

    // Every count runs out: one above FOREVER is counted down to it and then lasts.
    predicate RunsOut() {
      spinCount < FOREVER && yieldCount < FOREVER && sleepCount < FOREVER
    }
  }

  datatype Config = Config(entryCount: nat, solo: bool, producerWait: WaitStrategy, consumerWait: WaitStrategy)

  // ---- messages ----

  type Byte = Words.Byte

  type Meta = Messages.Meta

  // A message is a handle on a block of the pool.
  datatype Handle = Handle(block: nat, used: nat, read: nat, meta: Meta)

  // What a message says: the bytes of its block and the fields of its handle.
  datatype Content = Content(bytes: seq<Byte>, used: nat, read: nat, meta: Meta)

  // moveTo: the blocks are swapped, so the target takes the data and the source is left empty on another block.
  function MoveTo(source: Handle, target: Handle): (r: (Handle, Handle)) {
    (source.(block := target.block, used := 0, read := 0),
     target.(block := source.block, used := source.used, read := source.read, meta := source.meta))
  }

  datatype Status = OK | EMPTY | SKIP

  datatype Entry = Entry(message: Handle, status: Status)

  // One call of publish: who made it, how many calls that producer had made, and what the message said.
  datatype Item = Item(producer: nat, call: nat, content: Content)

  // ---- what the threads share ----

  datatype Owner = Free | ByProducer(p: nat) | ByConsumer

  datatype Locks = Locks(spinLock: Option<nat>, waitMutex: Owner)

  // producersAsleep and consumerAsleep are the waiters on the two condition variables not yet notified.
  datatype Sleep = Sleep(producerWaiting: bool, consumerWaiting: bool, producersAsleep: set<nat>, consumerAsleep: bool)

  // published and consumed are the history: what was made visible, and what was handed to the consumer.
  datatype Data = Data(entries: seq<Entry>, memory: seq<seq<Byte>>, published: seq<Item>, consumed: seq<Content>)

  datatype Shared = Shared(readPosition: nat, publishPosition: nat, locks: Locks, sleep: Sleep, data: Data) {
    function Spin(owner: Option<nat>): Shared {
      this.(locks := locks.(spinLock := owner))
    }

    function Mutex(owner: Owner): Shared {
      this.(locks := locks.(waitMutex := owner))
    }
  }

  function ContentOf(d: Data, h: Handle): Content
    requires h.block < |d.memory|
  {
    Content(d.memory[h.block], h.used, h.read, h.meta)
  }

  // ---- a producer ----

  // publish and notifyConsumer: with several producers, the part between taking and letting go of the spin lock.
  datatype PublishPc = Top | Can | Fill | Mark | Store | Notify | Signal | Unlock | Finish | Drop

  // Several producers, spin lock not held: about to take it, or the queue was full.
  datatype ContendPc = Acquire | Backoff | Rejoin

  // A solo producer in waitToPublish.
  datatype RetryPc = Test | Backing | Unreserve | Refresh

  // The branch of either that waits on the condition variable.
  datatype BlockPc = Lock | Peek | CanNow | Check | Flag | Sleeping | Asleep | Woken(timeout: bool) | Release | Throw

  datatype PPc = Idle | Publishing(at: PublishPc) | Contending(to: ContendPc) | Retrying(how: RetryPc)
    | Blocking(on: BlockPc)

  // What a wait strategy has left to count down.
  datatype Count = Count(spins: nat, naps: nat, sleeps: nat)

  // The message handed to publish, and the record of the call.
  datatype Cargo = Cargo(message: Handle, calls: nat, item: Item)

  datatype Producer = Producer(
    pc: PPc, cargo: Cargo, position: nat, publishable: nat, left: Count,
    timedOut: bool, published: bool, owns: bool, stopping: bool)
  {
    function Go(at: PublishPc): Producer {
      this.(pc := Publishing(at))
    }

    function Block(on: BlockPc): Producer {
      this.(pc := Blocking(on))
    }
  }

  function Down(n: nat): nat {
    if n == FOREVER || n == 0 then n else n - 1
  }

  function Fresh(w: WaitStrategy): Count {
    Count(w.spinCount, w.yieldCount, w.sleepCount)
  }

  // One turn of a wait strategy: count down, or None when it is time to use the mutex.
  function Turn(n: Count): Option<Count> {
    if n.spins > 0 then Some(n.(spins := Down(n.spins)))
    else if n.naps > 0 then Some(n.(naps := Down(n.naps)))
    else if n.sleeps > 0 then Some(n.(sleeps := Down(n.sleeps)))
    else None
  }

  // canPublish: a cached bound first, then one look at the read position.
  function CanPublish(c: Config, sh: Shared, pr: Producer): (r: (bool, Producer)) {
    if pr.publishable > pr.position then (true, pr)
    else
      var q := pr.(publishable := sh.readPosition + c.entryCount);
      (q.publishable > q.position, q)
  }

  // publish(position, message): the message and the entry swap blocks, unless the entry is to be skipped.
  function FillEntry(d: Data, index: nat, cargo: Cargo): (Data, Cargo, bool)
    requires index < |d.entries|
  {
    if d.entries[index].status == SKIP then (d, cargo, false)
    else
      var (source, target) := MoveTo(cargo.message, d.entries[index].message);
      (d.(entries := d.entries[index := d.entries[index].(message := target)]), cargo.(message := source), true)
  }

  function MarkEntry(d: Data, index: nat): Data
    requires index < |d.entries|
  {
    d.(entries := d.entries[index := d.entries[index].(status := OK)])
  }

  function Record(d: Data, item: Item): Data {
    d.(published := d.published + [item])
  }

  function PublishStep(c: Config, sh: Shared, p: nat, pr: Producer): (Shared, Producer)
    requires pr.pc.Publishing? && c.entryCount > 0 && |sh.data.entries| == c.entryCount
  {
    match pr.pc.at
    case Top => (sh, if c.solo && pr.stopping then pr.Go(Notify) else pr.(position := sh.publishPosition).Go(Can))
    case Can =>
      var (ok, q) := CanPublish(c, sh, pr);
      (sh, if ok then q.Go(Fill)
           else if c.solo then q.(left := Fresh(c.producerWait), pc := Retrying(Test))
           else q.Go(Drop))
    case Fill =>
      var (data, cargo, ok) := FillEntry(sh.data, pr.position % c.entryCount, pr.cargo);
      (sh.(data := data), if ok then pr.(cargo := cargo).Go(Mark) else pr.(published := false).Go(Store))
    case Mark => (sh.(data := MarkEntry(sh.data, pr.position % c.entryCount)), pr.(published := true).Go(Store))
    case Store =>
      (sh.(publishPosition := pr.position + 1,
           data := if pr.published then Record(sh.data, pr.cargo.item) else sh.data),
       pr.Go(if pr.published then Notify else Top))
    case Notify =>
      if !c.consumerWait.MutexUsed() then (sh, pr.Go(Finish))
      else if sh.locks.waitMutex.Free? then (sh.Mutex(ByProducer(p)), pr.Go(Signal))
      else (sh, pr)
    case Signal =>
      (if sh.sleep.consumerWaiting then sh.(sleep := sh.sleep.(consumerWaiting := false, consumerAsleep := false))
       else sh,
       pr.Go(Unlock))
    case Unlock => (sh.Mutex(Free), pr.Go(Finish))
    case Finish => (if pr.owns then sh.Spin(None) else sh, pr.(owns := false, pc := Idle))
    case Drop => (if pr.owns then sh.Spin(None) else sh, pr.(owns := false, pc := Contending(Backoff)))
  }

  function ContendStep(sh: Shared, p: nat, pr: Producer): (Shared, Producer)
    requires pr.pc.Contending?
  {
    match pr.pc.to
    case Acquire => if sh.locks.spinLock.None? then (sh.Spin(Some(p)), pr.(owns := true).Go(Top)) else (sh, pr)
    case Backoff =>
      (sh, if pr.stopping then pr.(pc := Contending(Rejoin))
           else match Turn(pr.left)
                case Some(n) => pr.(left := n, pc := Contending(Acquire))
                case None => pr.(pc := if pr.timedOut then Contending(Rejoin) else Blocking(Lock)))
    case Rejoin => if sh.locks.spinLock.None? then (sh.Spin(Some(p)), pr.(owns := true).Go(Finish)) else (sh, pr)
  }

  function RetryStep(c: Config, sh: Shared, pr: Producer): (Shared, Producer)
    requires pr.pc.Retrying?
  {
    match pr.pc.how
    case Test =>
      var (ok, q) := CanPublish(c, sh, pr);
      (sh, if ok then q.Go(Top) else q.(pc := Retrying(Backing)))
    case Backing =>
      (sh, if pr.stopping then pr.(pc := Retrying(Unreserve))
           else match Turn(pr.left)
                case Some(n) => pr.(left := n, pc := Retrying(Refresh))
                case None => pr.(pc := Blocking(Lock)))
    case Unreserve => (sh.(publishPosition := pr.position), pr.Go(Top))
    case Refresh => (sh, pr.(publishable := sh.readPosition + c.entryCount, pc := Retrying(Test)))
  }

  function BlockStep(c: Config, sh: Shared, p: nat, pr: Producer): (Shared, Producer)
    requires pr.pc.Blocking?
  {
    match pr.pc.on
    case Lock =>
      if sh.locks.waitMutex.Free? then (sh.Mutex(ByProducer(p)), pr.Block(if c.solo then Check else Peek)) else (sh, pr)
    case Peek => (sh, pr.(position := sh.publishPosition).Block(CanNow))
    case CanNow =>
      var (ok, q) := CanPublish(c, sh, pr);
      (sh, q.Block(if ok then Release else Flag))
    case Check =>
      var q := pr.(publishable := sh.readPosition + c.entryCount);
      (sh, q.Block(if q.publishable <= q.position then Flag else Release))
    case Flag => (sh.(sleep := sh.sleep.(producerWaiting := true)), pr.Block(Sleeping))
    case Sleeping =>
      (sh.Mutex(Free).(sleep := sh.sleep.(producersAsleep := sh.sleep.producersAsleep + {p})), pr.Block(Asleep))
    case Asleep => (sh, pr)
    case Woken(timeout) =>
      if !c.solo then (sh, pr.(timedOut := timeout).Block(Release))
      else if !timeout then (sh, pr.Block(Release))
      else
        var q := pr.(publishable := sh.readPosition + c.entryCount);
        (sh, q.Block(if q.publishable <= q.position then Throw else Release))
    case Release => (sh.Mutex(Free), pr.(pc := if c.solo then Retrying(Refresh) else Contending(Acquire)))
    case Throw => (sh.Mutex(Free), pr.(pc := Idle))
  }

  function ProducerStep(c: Config, sh: Shared, p: nat, pr: Producer): (Shared, Producer)
    requires c.entryCount > 0 && |sh.data.entries| == c.entryCount
  {
    match pr.pc
    case Idle => (sh, pr)
    case Publishing(_) => PublishStep(c, sh, p, pr)
    case Contending(_) => ContendStep(sh, p, pr)
    case Retrying(_) => RetryStep(c, sh, pr)
    case Blocking(_) => BlockStep(c, sh, p, pr)
  }

  // ---- the consumer ----

  // Where tryGetNext was called: by the user, in the loop of getNext, under the mutex, or after a timeout.
  datatype Caller = User | Loop | Locked | Late

  // tryGetNext and incrementReadPosition; got tells whether an entry was consumed or stepped over.
  datatype TryPc = Compare | Load | Take | Bump(got: bool) | NotifyLock(got: bool) | NotifySignal(got: bool)
    | NotifyUnlock(got: bool)

  // The rest of getNext.
  datatype GetPc = Again | BackOff | WaitLock | WaitFlag | WaitSleep | WaitAsleep | WaitWoken(timeout: bool)
    | UnlockAgain | UnlockDone

  datatype CPc = Resting | Trying(via: Caller, at: TryPc) | Getting(to: GetPc)

  // How the last call ended: with a message; tryGetNext found none; getNext was stopped;
  // its wait timed out, and it threw.
  datatype Answer = Got | Empty | Stopped | TimedOut

  // start is how many messages had been handed over when the present call, or the last one, began.
  datatype Consumer = Consumer(
    pc: CPc, message: Handle, cachedPublish: nat, left: Count, stopping: bool, start: nat, answer: Answer)
  {
    function Go(to: GetPc): Consumer {
      this.(pc := Getting(to))
    }
  }

  // Where tryGetNext goes on once the read position has moved.
  function Returned(via: Caller, got: bool): CPc {
    if !got then Trying(via, Compare)
    else match via
         case User => Resting
         case Loop => Resting
         case Locked => Getting(UnlockDone)
         case Late => Getting(UnlockDone)
  }

  // The answer of the call once the read position has moved.
  function Answered(answer: Answer, got: bool): Answer {
    if got then Got else answer
  }

  // Where it goes when there is nothing to get.
  function Nothing(via: Caller): CPc {
    match via
    case User => Resting
    case Loop => Getting(BackOff)
    case Locked => Getting(WaitFlag)
    case Late => Getting(UnlockDone)
  }

  // And the answer then: tryGetNext is over, and getNext too if it has already waited too long.
  function Unanswered(via: Caller, answer: Answer): Answer {
    match via
    case User => Empty
    case Loop => answer
    case Locked => answer
    case Late => TimedOut
  }

  // The entry and the message of the caller swap blocks, unless the entry is not OK.
  function TakeEntry(d: Data, index: nat, message: Handle): (Data, Handle, bool)
    requires index < |d.entries| && d.entries[index].message.block < |d.memory|
  {
    var entry := d.entries[index];
    if !entry.status.OK? then (d, message, false)
    else
      var (source, target) := MoveTo(entry.message, message);
      (d.(entries := d.entries[index := entry.(message := source)],
          consumed := d.consumed + [ContentOf(d, entry.message)]),
       target, true)
  }

  function TryStep(c: Config, sh: Shared, co: Consumer): (Shared, Consumer)
    requires co.pc.Trying? && c.entryCount > 0 && |sh.data.entries| == c.entryCount
    requires co.pc.at.Take? ==> sh.data.entries[sh.readPosition % c.entryCount].message.block < |sh.data.memory|
  {
    var via := co.pc.via;
    match co.pc.at
    case Compare => (sh, co.(pc := Trying(via, if sh.readPosition >= co.cachedPublish then Load else Take)))
    case Load =>
      (sh, co.(cachedPublish := sh.publishPosition,
               pc := if sh.readPosition >= sh.publishPosition then Nothing(via) else Trying(via, Take),
               answer := if sh.readPosition >= sh.publishPosition then Unanswered(via, co.answer) else co.answer))
    case Take =>
      var (data, message, got) := TakeEntry(sh.data, sh.readPosition % c.entryCount, co.message);
      (sh.(data := data), co.(message := message, pc := Trying(via, Bump(got))))
    case Bump(got) =>
      (sh.(readPosition := sh.readPosition + 1),
       if c.producerWait.MutexUsed() then co.(pc := Trying(via, NotifyLock(got)))
       else co.(pc := Returned(via, got), answer := Answered(co.answer, got)))
    case NotifyLock(got) =>
      if sh.locks.waitMutex.Free? then (sh.Mutex(ByConsumer), co.(pc := Trying(via, NotifySignal(got)))) else (sh, co)
    case NotifySignal(got) =>
      (if sh.sleep.producerWaiting then sh.(sleep := sh.sleep.(producerWaiting := false, producersAsleep := {}))
       else sh,
       co.(pc := Trying(via, NotifyUnlock(got))))
    case NotifyUnlock(got) => (sh.Mutex(Free), co.(pc := Returned(via, got), answer := Answered(co.answer, got)))
  }

  function GetStep(c: Config, sh: Shared, co: Consumer): (Shared, Consumer)
    requires co.pc.Getting?
  {
    match co.pc.to
    case Again => (sh, if co.stopping then co.(pc := Resting, answer := Stopped) else co.(pc := Trying(Loop, Compare)))
    case BackOff =>
      (sh, match Turn(co.left)
           case Some(n) => co.(left := n).Go(Again)
           case None => co.Go(WaitLock))
    case WaitLock =>
      if sh.locks.waitMutex.Free? then (sh.Mutex(ByConsumer), co.(pc := Trying(Locked, Compare))) else (sh, co)
    case WaitFlag => (sh.(sleep := sh.sleep.(consumerWaiting := true)), co.Go(WaitSleep))
    case WaitSleep => (sh.Mutex(Free).(sleep := sh.sleep.(consumerAsleep := true)), co.Go(WaitAsleep))
    case WaitAsleep => (sh, co)
    case WaitWoken(timeout) => (sh, co.(pc := if timeout then Trying(Late, Compare) else Getting(UnlockAgain)))
    case UnlockAgain => (sh.Mutex(Free), co.Go(Again))
    case UnlockDone => (sh.Mutex(Free), co.(pc := Resting))
  }

  // ---- the whole system ----

  datatype State = State(sh: Shared, producers: seq<Producer>, consumer: Consumer)

  // The threads that call the queue with a message of theirs.
  datatype Holder = OfProducer(p: nat) | OfConsumer

  // What can happen next. Waking covers a notification, a timeout and a spurious wake-up alike. Replace stands for all
  // that is done with messages outside the queue between two calls: the caller's next message may be on another block.
  // Pass is a move between the messages of two callers.
  datatype Action =
    | Write(p: nat, bytes: seq<Byte>, used: nat, read: nat, meta: Meta)
    | Call(p: nat)
    | Run(p: nat)
    | Wake(p: nat, timeout: bool)
    | StopProducer(p: nat)
    | NotifyStopped
    | Scribble(bytes: seq<Byte>, used: nat, read: nat, meta: Meta)
    | CallTry
    | CallGet
    | RunConsumer
    | WakeConsumer(timeout: bool)
    | StopConsumer
    | Replace(who: Holder, message: Handle, bytes: seq<Byte>)
    | Pass(from: Holder, to: Holder)

  predicate Shape(c: Config, s: State) {
    && DataShape(c, s.sh.data)
    && (c.solo ==> |s.producers| <= 1)
    && (forall p: nat | p < |s.producers| :: s.producers[p].cargo.message.block < |s.sh.data.memory|)
    && s.consumer.message.block < |s.sh.data.memory|
  }

  predicate DataShape(c: Config, d: Data) {
    && c.entryCount > 0 && |d.entries| == c.entryCount
    && forall i: nat | i < |d.entries| :: d.entries[i].message.block < |d.memory|
  }

  function Put(s: State, p: nat, r: (Shared, Producer)): State
    requires p < |s.producers|
  {
    State(r.0, s.producers[p := r.1], s.consumer)
  }

  // The owner of a message that is not being published or consumed may write it as it likes.
  function Written(d: Data, h: Handle, bytes: seq<Byte>, used: nat, read: nat, meta: Meta): (Data, Handle)
    requires h.block < |d.memory|
  {
    (d.(memory := d.memory[h.block := bytes]), Handle(h.block, used, read, meta))
  }

  // publish is entered; the item records what it is asked to publish.
  function Called(c: Config, d: Data, p: nat, pr: Producer): Producer
    requires pr.cargo.message.block < |d.memory|
  {
    var item := Item(p, pr.cargo.calls + 1, ContentOf(d, pr.cargo.message));
    pr.(cargo := Cargo(pr.cargo.message, pr.cargo.calls + 1, item), left := Fresh(c.producerWait),
        timedOut := false, published := false, pc := if c.solo then Publishing(Top) else Contending(Acquire))
  }

  // What an action that names producer p does to it and to what is shared.
  function ProducerAct(c: Config, sh: Shared, p: nat, pr: Producer, a: Action): (Shared, Producer)
    requires c.entryCount > 0 && |sh.data.entries| == c.entryCount && pr.cargo.message.block < |sh.data.memory|
  {
    match a
    case Write(_, bytes, used, read, meta) =>
      if pr.pc.Idle? then
        var (data, message) := Written(sh.data, pr.cargo.message, bytes, used, read, meta);
        (sh.(data := data), pr.(cargo := pr.cargo.(message := message)))
      else (sh, pr)
    case Call(_) => (sh, if pr.pc.Idle? then Called(c, sh.data, p, pr) else pr)
    case Run(_) => ProducerStep(c, sh, p, pr)
    case Wake(_, timeout) =>
      if pr.pc == Blocking(Asleep) && sh.locks.waitMutex.Free? then
        (sh.Mutex(ByProducer(p)).(sleep := sh.sleep.(producersAsleep := sh.sleep.producersAsleep - {p})),
         pr.Block(Woken(timeout)))
      else (sh, pr)
    case StopProducer(_) => (sh, pr.(stopping := true))
    case _ => (sh, pr)
  }

  // What the consumer does, or the thread that calls it or stops it.
  function ConsumerAct(c: Config, sh: Shared, co: Consumer, a: Action): (Shared, Consumer)
    requires DataShape(c, sh.data) && co.message.block < |sh.data.memory|
  {
    match a
    case Scribble(bytes, used, read, meta) =>
      if co.pc.Resting? then
        var (data, message) := Written(sh.data, co.message, bytes, used, read, meta);
        (sh.(data := data), co.(message := message))
      else (sh, co)
    case CallTry => (sh, if co.pc.Resting? then co.(start := |sh.data.consumed|, pc := Trying(User, Compare)) else co)
    case CallGet =>
      (sh, if co.pc.Resting? then co.(start := |sh.data.consumed|, left := Fresh(c.consumerWait)).Go(Again) else co)
    case RunConsumer =>
      (match co.pc
       case Resting => (sh, co)
       case Trying(_, _) => TryStep(c, sh, co)
       case Getting(_) => GetStep(c, sh, co))
    case WakeConsumer(timeout) =>
      if co.pc == Getting(WaitAsleep) && sh.locks.waitMutex.Free? then
        (sh.Mutex(ByConsumer).(sleep := sh.sleep.(consumerAsleep := false)), co.Go(WaitWoken(timeout)))
      else (sh, co)
    case StopConsumer => (sh.(sleep := sh.sleep.(consumerAsleep := false)), co.(stopping := true))
    case _ => (sh, co)
  }

  predicate NamesProducer(a: Action) {
    a.Write? || a.Call? || a.Run? || a.Wake? || a.StopProducer?
  }

  predicate NamesConsumer(a: Action) {
    a.Scribble? || a.CallTry? || a.CallGet? || a.RunConsumer? || a.WakeConsumer? || a.StopConsumer?
  }

  // ---- between calls ----

  // The holder has no call under way.
  predicate AtRest(s: State, who: Holder) {
    match who
    case OfProducer(p) => p < |s.producers| && s.producers[p].pc.Idle?
    case OfConsumer => s.consumer.pc.Resting?
  }

  function MessageOf(s: State, who: Holder): Handle
    requires AtRest(s, who)
  {
    match who
    case OfProducer(p) => s.producers[p].cargo.message
    case OfConsumer => s.consumer.message
  }

  function WithMessage(s: State, who: Holder, message: Handle): State
    requires AtRest(s, who)
  {
    match who
    case OfProducer(p) =>
      var pr := s.producers[p];
      s.(producers := s.producers[p := pr.(cargo := pr.cargo.(message := message))])
    case OfConsumer => s.(consumer := s.consumer.(message := message))
  }

  // No entry and no other caller has a message on the block.
  predicate Vacant(s: State, who: Holder, block: nat) {
    && block < |s.sh.data.memory|
    && (forall i: nat | i < |s.sh.data.entries| :: s.sh.data.entries[i].message.block != block)
    && (forall q: nat | q < |s.producers| && who != OfProducer(q) :: s.producers[q].cargo.message.block != block)
    && (who != OfConsumer ==> s.consumer.message.block != block)
  }

  function Replaced(s: State, who: Holder, message: Handle, bytes: seq<Byte>): State
    requires AtRest(s, who) && Vacant(s, who, message.block)
  {
    var t := WithMessage(s, who, message);
    t.(sh := t.sh.(data := t.sh.data.(memory := t.sh.data.memory[message.block := bytes])))
  }

  function Passed(s: State, from: Holder, to: Holder): State
    requires AtRest(s, from) && AtRest(s, to)
  {
    var (source, target) := MoveTo(MessageOf(s, from), MessageOf(s, to));
    WithMessage(WithMessage(s, from, source), to, target)
  }

  // ---- one action ----

  function Step(c: Config, s: State, a: Action): State
    requires Shape(c, s)
  {
    if NamesProducer(a) then
      if a.p < |s.producers| then Put(s, a.p, ProducerAct(c, s.sh, a.p, s.producers[a.p], a)) else s
    else if a.NotifyStopped? then
      if s.sh.locks.waitMutex.Free? then s.(sh := s.sh.(sleep := s.sh.sleep.(producersAsleep := {}))) else s
    else if a.Replace? then
      if AtRest(s, a.who) && Vacant(s, a.who, a.message.block) then Replaced(s, a.who, a.message, a.bytes) else s
    else if a.Pass? then
      if AtRest(s, a.from) && AtRest(s, a.to) && a.from != a.to then Passed(s, a.from, a.to) else s
    else
      var (sh, co) := ConsumerAct(c, s.sh, s.consumer, a);
      State(sh, s.producers, co)
  }
}
