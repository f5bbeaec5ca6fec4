/** The request and buffer life cycle as a transition system: user threads push and cancel, one
    loop thread prepares batches and reaps completions, and the kernel takes entries, posts
    completions and fills provided buffers at any moment. */
module Protocol {
  import opened Bits
  import opened CircularQueue
  import opened Requests
  import opened Batches
  import opened BufferRings

  /** Queue capacities, and `2^k` provided buffers of `bufferSize` bytes. */
  datatype Config = Config(sqCapacity: nat, cqCapacity: nat, k: nat, bufferSize: nat) {
    predicate IsValid() { sqCapacity >= 1 && k <= 15 }
    function Buffers(): nat { Pow2(k) }
  }

  /** A live pool block: which allocation it is, the type it was allocated as, and its content. */
  datatype Block = Block(birth: Ptr, kind: Kind, content: Request)

  /** One call of `push`: where the pool placed the request, its static type, and its value. */
  datatype Push = Push(addr: nat, kind: Kind, request: Request)

  /** Where the loop thread is. `Handling` covers the subscriber's callback, `Handled` the moment
      between returning the buffer and releasing the request. */
  datatype Phase =
    | Idle
    | Preparing(done: nat)
    | Reaping(at: nat)
    | Handling(at: nat, giveBack: bool)
    | Handled(at: nat)
    | Advancing(at: nat)

  /** The fields after `faulted` are histories, read by specifications only; a pointer `p` has the
      address `pushes[p].addr`, and addresses are reused once freed. */
  datatype State = State(
    heap: map<nat, Block>,
    pending: Vectors<Ptr>,
    sq: seq<Sqe>,
    flying: seq<Sqe>,            // single-shot entries and cancels the kernel is working on
    armed: seq<Sqe>,             // multi-shot entries the kernel has received
    cq: seq<Cqe>,                // posted, head not advanced past them yet
    phase: Phase,
    ring: Ring<nat>,
    store: seq<Buffer>,
    faulted: bool,               // memory was accessed through a null, dangling or mistyped pointer
    pushes: seq<Push>,
    received: seq<Sqe>,          // every entry the kernel has taken, in order
    dropped: seq<Ptr>,
    freed: seq<Ptr>,
    posted: seq<Cqe>,
    wire: seq<seq<Byte>>,        // the bytes the kernel wrote for each posted completion
    outcomes: seq<Outcome>)

  ghost predicate Init(c: Config, s: State) {
    && s.heap == map[] && s.pending == Empty() && s.sq == [] && s.flying == [] && s.armed == []
    && s.cq == [] && s.phase == Idle && !s.faulted
    && s.ring == Ring(Iota(c.Buffers()), 0, c.Buffers())
    && |s.store| == c.Buffers() && (forall b :: b in s.store ==> |b| == c.bufferSize)
    && s.pushes == [] && s.received == [] && s.dropped == [] && s.freed == []
    && s.posted == [] && s.wire == [] && s.outcomes == []
  }

  datatype Step =
    // user threads, and handlers running on the loop thread
    | PushRequest(addr: nat, kind: Kind, fd: int, length: nat, subscriber: nat)
    | Cancel(fd: int, room: nat)
    // the loop thread: prepare a batch
    | BeginPrepare
    | PrepareOne(room: nat)
    | EndPrepare
    // the loop thread: one pass over the completions
    | BeginReap
    | Dispatch
    | GiveBack
    | Release
    | EndVisit
    | AdvanceHead
    // the kernel
    | KernelTake
    | KernelComplete(i: nat, res: int, flags: nat)
    | KernelShot(i: nat, res: int, flags: nat)
    | KernelFill(i: nat, res: int, bytes: seq<Byte>, low: nat)

  // ----- what the code does -----

  /** The machine address of a pointer. */
  function AddressIn(pushes: seq<Push>, p: Ptr): nat {
    if p < |pushes| then pushes[p].addr else 0
  }

  /** `BufferRing::release`. */
  function ReturnBuffer(c: Config, ring: Ring<nat>, id: nat): Ring<nat> {
    if |ring.slots| == c.Buffers() then PushBack(ring, c.k, COUNTER_BITS, id) else ring
  }

  /** The vector, hence the `prepare` overload, of the `i`-th visited request. */
  function KindAt(v: Vectors<Ptr>, i: nat): Kind {
    if i < |v.accepts| then Accept
    else if i < |v.accepts + v.connects| then Connect
    else if i < |v.accepts + v.connects + v.readers| then Read
    else if i < |v.accepts + v.connects + v.readers + v.multiReaders| then MultiRead
    else Write
  }

  /** The kernel takes the oldest submission entry. */
  function TakeOne(s: State): State
    requires s.sq != []
  {
    var e := s.sq[0];
    var t := s.(sq := s.sq[1..], received := s.received + [e]);
    if Recurs(e) then t.(armed := s.armed + [e]) else t.(flying := s.flying + [e])
  }

  function TakeMany(s: State, m: nat): State
    requires m <= |s.sq|
    decreases m
  {
    if m == 0 then s else TakeMany(TakeOne(s), m - 1)
  }

  /** Every entry ever queued, in order: those the kernel has taken, then those it has not. */
  function Sent(s: State): seq<Sqe> {
    s.received + s.sq
  }

  /** The user data left in the slot that the next entry gets, by the entry one lap of the queue
      before; obtaining and filling an entry do not clear it. */
  function LeftInSlot(c: Config, sent: seq<Sqe>): Option<Ptr> {
    if 0 < c.sqCapacity <= |sent| then sent[|sent| - c.sqCapacity].data else None
  }

  /** Fill a new entry. When the queue is full, submit once (the kernel takes `room` entries) and
      retry; if there is still no room the request is dropped, unreported. */
  function Admit(c: Config, s: State, e: Sqe, room: nat): State
    requires room <= |s.sq|
  {
    if |s.sq| < c.sqCapacity then s.(sq := s.sq + [e])
    else
      var t := TakeMany(s, room);
      if |t.sq| < c.sqCapacity then t.(sq := t.sq + [e])
      else if e.op.Op? && e.data.Some? then t.(dropped := t.dropped + [e.data.value])
      else t
  }

  /** Visit the next pending request: fill an entry from the memory its pointer refers to. */
  function PrepareRequest(c: Config, s: State, room: nat): State
    requires s.phase.Preparing? && s.phase.done < |InOrder(s.pending)| && room <= |s.sq|
  {
    var i := s.phase.done;
    var p := InOrder(s.pending)[i];
    var addr := AddressIn(s.pushes, p);
    if addr !in s.heap then s.(faulted := true)
    else
      var e := EntryFor(KindAt(s.pending, i), s.heap[addr].content, p);
      Admit(c, s, e, room).(phase := Preparing(i + 1))
  }

  function Prefix(b: Buffer, n: int): seq<Byte> {
    if 0 <= n <= |b| then b[..n] else b
  }

  /** The body of the dispatch closure once the header is read: the outcome, and whether the arm
      taken ends by releasing the provided buffer. */
  function DispatchRequest(r: Request, x: Cqe, store: seq<Buffer>): (Outcome, bool) {
    var sub := r.header.subscriber;
    if !r.header.IsValid() then (LoopError(InvalidHeader), false)
    else if sub == 0 then (LoopError(NoSubscriber), false)
    else if x.res < 0 then (Notified(sub, ErrorEvent(-x.res)), false)
    else
      match KindOfTag(r.header.op)
      case None => (LoopError(MalformedEntry), false)
      case Some(Accept) => (Notified(sub, AcceptEvent(x.res)), false)
      case Some(Read) => (Notified(sub, ReadEvent(r.fd, FromCaller(x.res))), false)
      case Some(MultiRead) =>
        (match Get(x, |store|)
         case None => (LoopError(InvalidBufferId), false)
         case Some(id) => (Notified(sub, ReadEvent(r.fd, FromRing(Prefix(store[id], x.res)))), true))
      case Some(Write) => (Notified(sub, WriteEvent(x.res, r.length)), false)
      case Some(Connect) => (Notified(sub, ConnectEvent), false)
  }

  /** `SubmissionQueue::release`: the tag found in memory chooses the type to deallocate as. */
  function ReleaseBlock(s: State, addr: nat): State {
    if addr !in s.heap then s.(faulted := true)
    else
      var b := s.heap[addr];
      var kind := KindOfTag(b.content.header.op);
      if !b.content.header.IsValid() || kind.None? || IsMultiShot(kind.value) then s
      else if kind.value != b.kind then s.(faulted := true)
      else s.(heap := s.heap - {addr}, freed := s.freed + [b.birth])
  }

  function Overwrite(b: Buffer, bytes: seq<Byte>): Buffer {
    if |bytes| <= |b| then bytes + b[|bytes|..] else b
  }

  function Post(s: State, x: Cqe, bytes: seq<Byte>): State {
    s.(cq := s.cq + [x], posted := s.posted + [x], wire := s.wire + [bytes])
  }

  // ----- steps -----

  const FLAG_VALUES: nat := 0x1_0000_0000

  predicate Enabled(c: Config, s: State, step: Step) {
    && !s.faulted
    && match step
       // a pushing thread needs the lock that `Preparing` holds; the pool never returns null
       // nor the address of a live block
       case PushRequest(addr, _, _, _, _) => !s.phase.Preparing? && addr != 0 && addr !in s.heap
       case Cancel(_, room) => room <= |s.sq|
       case BeginPrepare => s.phase.Idle?
       case PrepareOne(room) =>
         s.phase.Preparing? && s.phase.done < |InOrder(s.pending)| && room <= |s.sq|
       case EndPrepare => s.phase.Preparing? && s.phase.done == |InOrder(s.pending)|
       case BeginReap => s.phase.Idle?
       case Dispatch => s.phase.Reaping? && s.phase.at < |s.cq|
       case GiveBack => s.phase.Handling? && s.phase.at < |s.cq|
       case Release => s.phase.Handled? && s.phase.at < |s.cq|
       case EndVisit => s.phase.Reaping? && s.phase.at == |s.cq|
       case AdvanceHead => s.phase.Advancing? && s.phase.at <= |s.cq|
       case KernelTake => s.sq != []
       // one completion per single-shot entry, within the caller's span, without a buffer
       case KernelComplete(i, res, flags) =>
         && i < |s.flying| && |s.cq| < c.cqCapacity && flags < FLAG_VALUES && And(flags, F_BUFFER) == 0
         && (s.flying[i].op == Op(Read) || s.flying[i].op == Op(Write) ==> res <= s.flying[i].length)
       // any number of completions per multi-shot entry; a read without a buffer carries no data
       case KernelShot(i, res, flags) =>
         && i < |s.armed| && |s.cq| < c.cqCapacity && flags < FLAG_VALUES && And(flags, F_BUFFER) == 0
         && (s.armed[i].op == Op(MultiRead) ==> res <= 0)
       // the buffer at the ring head, the id above bit 16 and the buffer flag set
       case KernelFill(i, res, bytes, low) =>
         && i < |s.armed| && |s.cq| < c.cqCapacity
         && s.armed[i].op == Op(MultiRead) && s.armed[i].group == BUFFER_GROUP_ID
         && |s.ring.slots| == c.Buffers() && Size(s.ring, COUNTER_BITS) > 0
         && low < BUFFER_SHIFT && And(low, F_BUFFER) != 0
         && |bytes| <= c.bufferSize && (if res < 0 then bytes == [] else res == |bytes|)
  }

  function Next(c: Config, s: State, step: Step): State
    requires Enabled(c, s, step)
  {
    match step
    case PushRequest(addr, kind, fd, length, subscriber) =>
      var r := AsAdded(kind, fd, length, subscriber);
      var p := |s.pushes|;
      s.(heap := s.heap[addr := Block(p, kind, r)],
         pending := Append(s.pending, kind, p),
         pushes := s.pushes + [Push(addr, kind, r)])
    case Cancel(fd, room) => Admit(c, s, CancelEntry(fd, LeftInSlot(c, Sent(s))), room)
    case BeginPrepare => s.(phase := Preparing(0))
    case PrepareOne(room) => PrepareRequest(c, s, room)
    case EndPrepare => s.(pending := Empty(), phase := Idle)
    case BeginReap => s.(phase := Reaping(0))
    case Dispatch =>
      var x := s.cq[s.phase.at];
      (match x.entry.data
       case None =>
         s.(outcomes := s.outcomes + [LoopError(MalformedEntry)], phase := Handling(s.phase.at, false))
       case Some(p) =>
         var addr := AddressIn(s.pushes, p);
         if addr !in s.heap then s.(faulted := true)
         else
           var (o, g) := DispatchRequest(s.heap[addr].content, x, s.store);
           s.(outcomes := s.outcomes + [o], phase := Handling(s.phase.at, g)))
    case GiveBack =>
      var t := s.(phase := Handled(s.phase.at));
      if s.phase.giveBack
      then t.(ring := ReturnBuffer(c, s.ring, BufferId(s.cq[s.phase.at])))
      else t
    case Release =>
      (match s.cq[s.phase.at].entry.data
       case None => s.(faulted := true)
       case Some(p) =>
         var t := ReleaseBlock(s, AddressIn(s.pushes, p));
         if t.faulted then t else t.(phase := Reaping(s.phase.at + 1)))
    case EndVisit => s.(phase := Advancing(s.phase.at))
    case AdvanceHead => s.(cq := s.cq[s.phase.at..], phase := Idle)
    case KernelTake => TakeOne(s)
    case KernelComplete(i, res, flags) =>
      Post(s.(flying := s.flying[..i] + s.flying[i + 1..]), Cqe(s.flying[i], res, flags), [])
    case KernelShot(i, res, flags) => Post(s, Cqe(s.armed[i], res, flags), [])
    case KernelFill(i, res, bytes, low) =>
      var id := s.ring.slots[Slot(s.ring.head, c.k)];
      var t := s.(ring := PopFront(s.ring, COUNTER_BITS, 1),
                  store := if id < |s.store|
                           then s.store[id := Overwrite(s.store[id], bytes)] else s.store);
      Post(t, Cqe(s.armed[i], res, id * BUFFER_SHIFT + low), bytes)
  }

  ghost predicate StepAt(c: Config, states: seq<State>, steps: seq<Step>, i: nat)
    requires |states| == |steps| + 1 && i < |steps|
  {
    Enabled(c, states[i], steps[i]) && states[i + 1] == Next(c, states[i], steps[i])
  }

  /** A run: its states, and the steps between them. */
  ghost predicate IsRun(c: Config, states: seq<State>, steps: seq<Step>) {
    && c.IsValid()
    && |states| == |steps| + 1 && Init(c, states[0])
    && forall i: nat :: i < |steps| ==> StepAt(c, states, steps, i)
  }

  ghost predicate KeptAt(keep: State -> bool, states: seq<State>, i: nat)
    requires i + 1 < |states|
  {
    keep(states[i]) ==> keep(states[i + 1])
  }

  /** What holds initially and is kept by every step holds throughout. */
  lemma {:induction false} KeptThroughout(keep: State -> bool, states: seq<State>, i: nat)
    requires i < |states| && keep(states[0])
    requires forall j: nat :: j + 1 < |states| ==> KeptAt(keep, states, j)
    ensures keep(states[i])
  {
    if i > 0 {
      KeptThroughout(keep, states, i - 1);
      assert KeptAt(keep, states, i - 1);
    }
  }

  /** A run without its beginning. */
  ghost predicate Path(c: Config, states: seq<State>, steps: seq<Step>, s: State, t: State) {
    && |states| == |steps| + 1 && states[0] == s && states[|steps|] == t
    && forall i: nat :: i < |steps| ==> StepAt(c, states, steps, i)
  }

  /** The steps can be taken from `s`, one after the other, and lead to `t`. */
  ghost predicate Leads(c: Config, s: State, steps: seq<Step>, t: State) {
    exists states :: Path(c, states, steps, s, t)
  }

  lemma LeadsOne(c: Config, s: State, step: Step, t: State)
    requires Enabled(c, s, step) && t == Next(c, s, step)
    ensures Leads(c, s, [step], t)
  {
    assert Path(c, [s, t], [step], s, t);
  }

  lemma PathsJoin(c: Config, xs: seq<State>, a: seq<Step>, ys: seq<State>, b: seq<Step>, s: State, m: State, t: State)
    requires Path(c, xs, a, s, m) && Path(c, ys, b, m, t)
    ensures Path(c, xs + ys[1..], a + b, s, t)
  {
    var states, steps := xs + ys[1..], a + b;
    forall i: nat | i < |steps| ensures StepAt(c, states, steps, i) {
      if i < |a| {
        assert StepAt(c, xs, a, i);
      } else {
        assert StepAt(c, ys, b, i - |a|);
        assert states[i] == ys[i - |a|] && states[i + 1] == ys[i - |a| + 1];
      }
    }
  }

  lemma LeadsOn(c: Config, s: State, a: seq<Step>, m: State, b: seq<Step>, t: State)
    requires Leads(c, s, a, m) && Leads(c, m, b, t)
    ensures Leads(c, s, a + b, t)
  {
    var xs :| Path(c, xs, a, s, m);
    var ys :| Path(c, ys, b, m, t);
    PathsJoin(c, xs, a, ys, b, s, m, t);
  }

  // ----- preparing a whole batch -----

  /** Prepare the next request; when the queue is full, the kernel takes up to `room` entries. */
  function PrepareNext(c: Config, s: State, room: nat): State {
    if s.phase.Preparing? && s.phase.done < |InOrder(s.pending)|
    then PrepareRequest(c, s, if room <= |s.sq| then room else |s.sq|)
    else s
  }

  /** Prepare the next `n` requests, `rooms(i)` being the kernel's room at the `i`-th. */
  function PrepareMany(c: Config, s: State, rooms: nat -> nat, n: nat): State {
    if n == 0 then s else PrepareNext(c, PrepareMany(c, s, rooms, n - 1), rooms(n - 1))
  }

  // ----- what the outcome should be -----

  /** The outcome owed to the request `p` as it was pushed, given the kernel's answer `x` and the
      bytes `w` it wrote. Memory plays no part here. */
  function Expected(c: Config, pushes: seq<Push>, p: Ptr, x: Cqe, w: seq<Byte>): Outcome
    requires p < |pushes|
  {
    var r := pushes[p].request;
    var sub := r.header.subscriber;
    if sub == 0 then LoopError(NoSubscriber)
    else if x.res < 0 then Notified(sub, ErrorEvent(-x.res))
    else
      match pushes[p].kind
      case Accept => Notified(sub, AcceptEvent(x.res))
      case Connect => Notified(sub, ConnectEvent)
      case Read => Notified(sub, ReadEvent(r.fd, FromCaller(x.res)))
      case MultiRead =>
        if BufferId(x) < c.Buffers() then Notified(sub, ReadEvent(r.fd, FromRing(w)))
        else LoopError(InvalidBufferId)
      case Write => Notified(sub, WriteEvent(x.res, r.length))
  }

  /** The outcome with the received bytes erased. */
  function Erase(o: Outcome): Outcome {
    if FromTheRing(o) then o.(event := o.event.(data := FromRing([]))) else o
  }
}
