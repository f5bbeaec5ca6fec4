/** The submission queue as the program sees it, with machine addresses only. Each method is proved
    to take the protocol state to the next one. */
module SubmissionQueues {
  import opened Bits
  import opened CircularQueue
  import opened Requests
  import opened Batches
  import opened Protocol
  import opened Lifecycle
  import opened Soundness
  import opened Runs
  import opened Sending
  import opened Submission

  /** A submission entry in shared memory: its user data is an address, 0 when not set. */
  datatype RawSqe = RawSqe(op: Opcode, fd: int, length: nat, group: nat, userData: nat)

  /** User data as memory shows it. */
  ghost function UserData(pushes: seq<Push>, data: Option<Ptr>): nat {
    if data.Some? then AddressIn(pushes, data.value) else 0
  }

  ghost function Raw(pushes: seq<Push>, e: Sqe): RawSqe {
    RawSqe(e.op, e.fd, e.length, e.group, UserData(pushes, e.data))
  }

  /** The addresses `xs` are those of the pointers `ps`. */
  ghost predicate Points(pushes: seq<Push>, xs: seq<nat>, ps: seq<Ptr>) {
    |xs| == |ps| && forall i :: 0 <= i < |xs| ==> ps[i] < |pushes| && xs[i] == pushes[ps[i]].addr
  }

  ghost predicate VectorsPoint(pushes: seq<Push>, v: Vectors<nat>, w: Vectors<Ptr>) {
    forall k: Kind :: Points(pushes, Of(v, k), Of(w, k))
  }

  ghost predicate EntriesPoint(pushes: seq<Push>, entries: seq<RawSqe>, sq: seq<Sqe>) {
    |entries| == |sq| && forall i :: 0 <= i < |sq| ==> Pointing(pushes, sq[i]) && entries[i] == Raw(pushes, sq[i])
  }

  /** Slot `k % |slots|` holds the user data of the `k`-th entry, unless a later one has taken it; a slot not
      used yet holds none. */
  ghost predicate SlotHolds(pushes: seq<Push>, slots: seq<nat>, sent: seq<Sqe>, k: nat) {
    && |slots| > 0
    && (k < |sent| <= k + |slots| ==>
          Pointing(pushes, sent[k]) && slots[k % |slots|] == UserData(pushes, sent[k].data))
    && (|sent| <= k < |slots| ==> slots[k] == 0)
  }

  ghost predicate SlotsHold(pushes: seq<Push>, slots: seq<nat>, sent: seq<Sqe>) {
    forall k: nat :: SlotHolds(pushes, slots, sent, k)
  }

  ghost predicate MemoryHolds(types: map<nat, Kind>, memory: map<nat, Request>, heap: map<nat, Block>) {
    && types.Keys == heap.Keys == memory.Keys
    && forall a :: a in heap ==> types[a] == heap[a].kind && memory[a] == heap[a].content
  }

  /** The memory resource: a block must be given back as the type it was allocated as. */
  class RequestPool {
    var types: map<nat, Kind>

    constructor ()
      ensures types == map[]
    {
      types := map[];
    }

    method Allocate(kind: Kind, addr: nat)
      requires addr !in types
      modifies this
      ensures types == old(types)[addr := kind]
    {
      types := types[addr := kind];
    }

    method Deallocate(kind: Kind, addr: nat)
      requires addr in types && types[addr] == kind
      modifies this
      ensures types == old(types) - {addr}
    {
      types := types - {addr};
    }
  }

  /** One vector of addresses per request type. */
  class PendingRequests {
    var accepts: seq<nat>
    var connects: seq<nat>
    var readers: seq<nat>
    var multiReaders: seq<nat>
    var writers: seq<nat>

    function Model(): Vectors<nat>
      reads this
    {
      Vectors(accepts, connects, readers, multiReaders, writers)
    }

    constructor ()
      ensures Model() == Empty()
    {
      accepts, connects, readers, multiReaders, writers := [], [], [], [], [];
    }

    method Push(kind: Kind, addr: nat)
      modifies this
      ensures Model() == Append(old(Model()), kind, addr)
    {
      match kind {
        case Accept => accepts := accepts + [addr];
        case Connect => connects := connects + [addr];
        case Read => readers := readers + [addr];
        case MultiRead => multiReaders := multiReaders + [addr];
        case Write => writers := writers + [addr];
      }
    }

    method Clear()
      modifies this
      ensures Model() == Empty()
    {
      accepts, connects, readers, multiReaders, writers := [], [], [], [], [];
    }
  }

  // ----- lemmas -----

  lemma PointsGrow(pushes: seq<Push>, xs: seq<nat>, ps: seq<Ptr>, x: Push)
    requires Points(pushes, xs, ps)
    ensures Points(pushes + [x], xs, ps) && Points(pushes + [x], xs + [x.addr], ps + [|pushes|])
  {
  }

  lemma PushPoints(pushes: seq<Push>, v: Vectors<nat>, w: Vectors<Ptr>, x: Push)
    requires VectorsPoint(pushes, v, w)
    ensures VectorsPoint(pushes + [x], Append(v, x.kind, x.addr), Append(w, x.kind, |pushes|))
  {
    forall k: Kind ensures Points(pushes + [x], Of(Append(v, x.kind, x.addr), k), Of(Append(w, x.kind, |pushes|), k)) {
      PointsGrow(pushes, Of(v, k), Of(w, k), x);
      OfAppend(v, x.kind, x.addr, k);
      OfAppend(w, x.kind, |pushes|, k);
    }
  }

  lemma PushKeepsEntries(pushes: seq<Push>, entries: seq<RawSqe>, sq: seq<Sqe>, x: Push)
    requires EntriesPoint(pushes, entries, sq)
    ensures EntriesPoint(pushes + [x], entries, sq)
  {
  }

  lemma PushKeepsSlots(pushes: seq<Push>, slots: seq<nat>, sent: seq<Sqe>, x: Push)
    requires SlotsHold(pushes, slots, sent)
    ensures SlotsHold(pushes + [x], slots, sent)
  {
    forall k: nat ensures SlotHolds(pushes + [x], slots, sent, k) {
      assert SlotHolds(pushes, slots, sent, k);
    }
  }

  /** The next slot holds the user data left there. */
  lemma NextSlotHolds(c: Config, pushes: seq<Push>, slots: seq<nat>, sent: seq<Sqe>)
    requires SlotsHold(pushes, slots, sent) && |slots| == c.sqCapacity >= 1
    ensures slots[|sent| % |slots|] == UserData(pushes, LeftInSlot(c, sent))
  {
    var n, cap := |sent|, |slots|;
    if n >= cap {
      assert SlotHolds(pushes, slots, sent, n - cap);
      FullTurn(n - cap, cap);
    } else {
      assert SlotHolds(pushes, slots, sent, n);
      DivisionIsUnique(n, cap, 0, n);
    }
  }

  lemma FillSlot(pushes: seq<Push>, slots: seq<nat>, sent: seq<Sqe>, e: Sqe)
    requires SlotsHold(pushes, slots, sent) && |slots| > 0 && Pointing(pushes, e)
    ensures SlotsHold(pushes, slots[|sent| % |slots| := UserData(pushes, e.data)], sent + [e])
  {
    var n := |sent|;
    var slots' := slots[n % |slots| := UserData(pushes, e.data)];
    forall k: nat ensures SlotHolds(pushes, slots', sent + [e], k) {
      assert SlotHolds(pushes, slots, sent, k);
      if k < n < k + |slots| { SlotsDiffer(k, n, |slots|); }
      if n < k < |slots| { DivisionIsUnique(n, |slots|, 0, n); }
    }
  }

  lemma PushHolds(types: map<nat, Kind>, memory: map<nat, Request>, heap: map<nat, Block>, addr: nat, b: Block)
    requires MemoryHolds(types, memory, heap)
    ensures MemoryHolds(types[addr := b.kind], memory[addr := b.content], heap[addr := b])
  {
  }

  lemma FreeHolds(types: map<nat, Kind>, memory: map<nat, Request>, heap: map<nat, Block>, addr: nat)
    requires MemoryHolds(types, memory, heap)
    ensures MemoryHolds(types - {addr}, memory - {addr}, heap - {addr})
  {
  }

  /** What preparing the next request needs and does. */
  lemma PrepareCases(c: Config, s: State, room: nat)
    requires Reachable(c, s) && Enabled(c, s, PrepareOne(room))
    ensures Reachable(c, Next(c, s, PrepareOne(room)))
    ensures var (p, k) := (InOrder(s.pending)[s.phase.done], KindAt(s.pending, s.phase.done));
            var (a, t) := (AddressIn(s.pushes, p), Next(c, s, PrepareOne(room)));
            && PushedAs(s.pushes, p, k)
            && if a !in s.heap then t == s.(faulted := true)
               else t == Admit(c, s, EntryFor(k, s.heap[a].content, p), room).(phase := Preparing(s.phase.done + 1))
  {
    StepReaches(c, s, PrepareOne(room));
    assert PushedAs(s.pushes, InOrder(s.pending)[s.phase.done], KindAt(s.pending, s.phase.done)) by {
      ReachableIsSound(c, s);
      VisitedWasPushed(s);
    }
  }

  /** The completion released next has user data, at address `addr`. */
  ghost predicate NextRelease(s: State, addr: nat) {
    && s.phase.Handled? && s.phase.at < |s.cq| && s.cq[s.phase.at].entry.data.Some?
    && addr == AddressIn(s.pushes, s.cq[s.phase.at].entry.data.value)
  }

  lemma BlockIsTagged(s: State, addr: nat)
    requires Typed(s) && addr in s.heap
    ensures s.heap[addr].content.header.IsValid()
    ensures KindOfTag(s.heap[addr].content.header.op) == Some(s.heap[addr].kind)
  {
    assert BlockSound(s.heap, s.pushes, addr);
    assert WellTagged(s.pushes[s.heap[addr].birth]);
    assert KindOfTag(Tag(s.heap[addr].kind)) == Some(s.heap[addr].kind);
  }

  /** What releasing the current completion needs and does. */
  lemma ReleaseCases(c: Config, s: State, addr: nat)
    requires Reachable(c, s) && !s.faulted && NextRelease(s, addr)
    ensures var t := Next(c, s, Step.Release);
            && addr in s.heap && s.heap[addr].content.header.IsValid()
            && KindOfTag(s.heap[addr].content.header.op) == Some(s.heap[addr].kind)
            && Reachable(c, t) && !t.faulted
            && t == s.(phase := Reaping(s.phase.at + 1), heap := t.heap, freed := t.freed)
            && t.heap == match s.heap[addr].kind
                         case Read => s.heap - {addr}
                         case Write => s.heap - {addr}
                         case Connect => s.heap - {addr}
                         case Accept => s.heap
                         case MultiRead => s.heap
  {
    ReachableIsSound(c, s);
    ReleaseFrees(c, s, s.cq[s.phase.at].entry.data.value);
    BlockIsTagged(s, addr);
    StepReaches(c, s, Step.Release);
  }

  /** A batch has just begun. */
  ghost predicate Begun(c: Config, s: State) {
    Reachable(c, s) && !s.faulted && s.phase == Preparing(0)
  }

  ghost predicate InSegment(s: State, kind: Kind, addr: nat, i: nat) {
    && i < |InOrder(s.pending)|
    && KindAt(s.pending, i) == kind && addr == AddressIn(s.pushes, InOrder(s.pending)[i])
  }

  /** The vector `xs` is visited from position `start` on. */
  ghost predicate Segment(s: State, kind: Kind, xs: seq<nat>, start: nat) {
    && start + |xs| <= |InOrder(s.pending)|
    && forall i: nat :: i < |xs| ==> InSegment(s, kind, xs[i], start + i)
  }

  lemma PositionAt(s: State, kind: Kind, xs: seq<nat>, start: nat, i: nat)
    requires Segment(s, kind, xs, start) && i < |xs|
    ensures start + i < |InOrder(s.pending)| && InSegment(s, kind, xs[i], start + i)
  {
  }

  lemma VectorIsSegment(s: State, v: Vectors<nat>, k: Kind, start: nat)
    requires VectorsPoint(s.pushes, v, s.pending)
    requires start == match k
      case Accept => 0
      case Connect => |s.pending.accepts|
      case Read => |s.pending.accepts + s.pending.connects|
      case MultiRead => |s.pending.accepts + s.pending.connects + s.pending.readers|
      case Write => |s.pending.accepts + s.pending.connects + s.pending.readers + s.pending.multiReaders|
    ensures Segment(s, k, Of(v, k), start) && |Of(v, k)| == |Of(s.pending, k)|
  {
    assert Points(s.pushes, Of(v, k), Of(s.pending, k));
    forall i: nat | i < |Of(v, k)| ensures InSegment(s, k, Of(v, k)[i], start + i) {
      assert InOrder(s.pending)[start + i] == Of(s.pending, k)[i];
    }
  }

  lemma Segments(s: State, v: Vectors<nat>)
    requires VectorsPoint(s.pushes, v, s.pending)
    ensures Segment(s, Accept, v.accepts, 0)
    ensures Segment(s, Connect, v.connects, |v.accepts|)
    ensures Segment(s, Read, v.readers, |v.accepts| + |v.connects|)
    ensures Segment(s, MultiRead, v.multiReaders, |v.accepts| + |v.connects| + |v.readers|)
    ensures Segment(s, Write, v.writers, |v.accepts| + |v.connects| + |v.readers| + |v.multiReaders|)
    ensures |v.accepts| + |v.connects| + |v.readers| + |v.multiReaders| + |v.writers| == |InOrder(s.pending)|
  {
    var w := s.pending;
    VectorIsSegment(s, v, Accept, 0);
    VectorIsSegment(s, v, Connect, |w.accepts|);
    VectorIsSegment(s, v, Read, |w.accepts + w.connects|);
    VectorIsSegment(s, v, MultiRead, |w.accepts + w.connects + w.readers|);
    VectorIsSegment(s, v, Write, |w.accepts + w.connects + w.readers + w.multiReaders|);
  }

  ghost predicate OnCourse(c: Config, rooms: nat -> nat, course: seq<State>, i: nat)
    requires i < |course|
  {
    course[i] == PrepareMany(c, course[0], rooms, i)
  }

  /** The states of a batch: after 0, 1, ... requests have been prepared. */
  ghost predicate IsCourse(c: Config, rooms: nat -> nat, course: seq<State>) {
    && course != [] && Begun(c, course[0]) && |course| == |InOrder(course[0].pending)| + 1
    && forall i: nat :: i < |course| ==> OnCourse(c, rooms, course, i)
  }

  ghost function Course(c: Config, begun: State, rooms: nat -> nat): (course: seq<State>)
    requires Begun(c, begun)
    ensures IsCourse(c, rooms, course) && course[0] == begun
  {
    var course := seq(|InOrder(begun.pending)| + 1, i requires 0 <= i => PrepareMany(c, begun, rooms, i));
    assert forall i: nat :: i < |course| ==> OnCourse(c, rooms, course, i);
    course
  }

  /** From one state to the next is one step of the protocol, until memory is read through a dangling
      pointer. */
  lemma CourseStep(c: Config, rooms: nat -> nat, course: seq<State>, n: nat)
    requires IsCourse(c, rooms, course) && n < |course| - 1 && !course[n].faulted
    ensures var s := course[n];
            var step := PrepareOne(if rooms(n) <= |s.sq| then rooms(n) else |s.sq|);
            && Reachable(c, s) && Prepared(c, course[0], s, n)
            && Enabled(c, s, step) && course[n + 1] == Next(c, s, step)
  {
    assert OnCourse(c, rooms, course, n) && OnCourse(c, rooms, course, n + 1);
    PrepareManyReaches(c, course[0], rooms, n);
  }

  /** Then nothing follows. */
  lemma {:induction false} CourseStops(c: Config, rooms: nat -> nat, course: seq<State>, n: nat, m: nat)
    requires IsCourse(c, rooms, course) && n <= m < |course| && course[n].faulted
    ensures course[m] == course[n]
  {
    if n < m {
      CourseStops(c, rooms, course, n, m - 1);
      assert OnCourse(c, rooms, course, m - 1) && OnCourse(c, rooms, course, m);
      PrepareManyReaches(c, course[0], rooms, m - 1);
    }
  }

  lemma EndOfCourse(c: Config, rooms: nat -> nat, course: seq<State>)
    requires IsCourse(c, rooms, course)
    ensures var t := course[|course| - 1];
            && t == PrepareMany(c, course[0], rooms, |course| - 1) && Reachable(c, t)
            && (!t.faulted ==> Reachable(c, t.(pending := Empty(), phase := Idle)))
  {
    var n := |course| - 1;
    assert OnCourse(c, rooms, course, n);
    PrepareManyReaches(c, course[0], rooms, n);
    if !course[n].faulted { StepReaches(c, course[n], EndPrepare); }
  }

  /** As long as no cancel's completion has freed a block, the whole batch is read from live blocks. */
  lemma BatchDoesNotFault(c: Config, rooms: nat -> nat, course: seq<State>)
    requires IsCourse(c, rooms, course) && Inv(c, course[0])
    ensures !course[|course| - 1].faulted
  {
    PrepareManyKeeps(c, course[0], rooms, |course| - 1);
    EndOfCourse(c, rooms, course);
  }

  lemma CancelReaches(c: Config, s: State, fd: int, room: nat)
    requires Reachable(c, s) && !s.faulted && room <= |s.sq|
    ensures var e := CancelEntry(fd, LeftInSlot(c, Sent(s)));
            && Pointing(s.pushes, e) && Next(c, s, Step.Cancel(fd, room)) == Admit(c, s, e, room)
            && Reachable(c, Admit(c, s, e, room)) && !Admit(c, s, e, room).faulted
  {
    ReachableIsSound(c, s);
    LeftIsPushed(c, s, fd);
    StepReaches(c, s, Step.Cancel(fd, room));
    TakeManyFrame(s, room);
  }

  lemma NoneLeft(pushes: seq<Push>)
    ensures VectorsPoint(pushes, Empty(), Empty())
  {
    forall k: Kind ensures Points(pushes, Of(Empty(), k), Of(Empty(), k)) {}
  }

  class SubmissionQueue {
    const c: Config
    const pool: RequestPool
    const pending: PendingRequests
    var memory: map<nat, Request>
    var entries: seq<RawSqe>
    var slots: seq<nat>        // the user data in each slot of the queue, also after its entry has gone
    var tail: nat
    ghost var world: State     // the protocol state that the fields are part of

    ghost predicate QueueHolds()
      reads this
    {
      && EntriesPoint(world.pushes, entries, world.sq)
      && |slots| == c.sqCapacity >= 1 && tail == |Sent(world)|
      && SlotsHold(world.pushes, slots, Sent(world))
    }

    ghost predicate Represents()
      reads this, pool, pending
    {
      && MemoryHolds(pool.types, memory, world.heap)
      && VectorsPoint(world.pushes, pending.Model(), world.pending)
      && QueueHolds()
    }

    ghost predicate Valid()
      reads this, pool, pending
    {
      Represents() && Reachable(c, world) && !world.faulted
    }

    constructor (config: Config, ghost initial: State)
      requires config.IsValid() && Init(config, initial)
      ensures Valid() && c == config && world == initial && fresh(pool) && fresh(pending)
    {
      c := config;
      pool := new RequestPool();
      pending := new PendingRequests();
      memory := map[];
      entries := [];
      slots := seq(config.sqCapacity, i => 0);
      tail := 0;
      world := initial;
      new;
      StartIsReachable(config, initial);
      NothingSentYet(config, initial);
      forall k: Kind ensures Points([], Of(pending.Model(), k), Of(initial.pending, k)) {}
    }

    /** The rest of the system moves on: memory, pending requests and entries stay as they are. */
    ghost method MoveOn(t: State)
      requires Valid() && Reachable(c, t) && !t.faulted
      requires t.heap == world.heap && t.pushes == world.pushes && t.pending == world.pending
      requires t.sq == world.sq && t.received == world.received
      modifies `world
      ensures Valid() && world == t
    {
      world := t;
    }

    /** Memory is accessed through a null or dangling pointer: nothing is known of what follows. */
    ghost method Fault()
      modifies `world
      ensures world == old(world).(faulted := true)
    {
      world := world.(faulted := true);
    }

    /** `push`, at the address the pool returns. */
    method Push(kind: Kind, request: Request, addr: nat)
      requires Valid() && !world.phase.Preparing? && addr != 0 && addr !in pool.types
      requires request == AsAdded(kind, request.fd, request.length, request.header.subscriber)
      modifies this, pool, pending
      ensures Valid()
      ensures world == Next(c, old(world),
                            PushRequest(addr, kind, request.fd, request.length, request.header.subscriber))
    {
      ghost var step := PushRequest(addr, kind, request.fd, request.length, request.header.subscriber);
      ghost var x := Protocol.Push(addr, kind, request);
      StepReaches(c, world, step);
      PushPoints(world.pushes, pending.Model(), world.pending, x);
      PushKeepsEntries(world.pushes, entries, world.sq, x);
      PushKeepsSlots(world.pushes, slots, Sent(world), x);
      PushHolds(pool.types, memory, world.heap, addr, Block(|world.pushes|, kind, request));
      pool.Allocate(kind, addr);
      memory := memory[addr := request];
      pending.Push(kind, addr);
      world := Next(c, world, step);
    }

    /** Fill the entry in the next slot. Without user data of its own, it keeps what the slot held. */
    method Fill(op: Opcode, fd: int, length: nat, group: nat, userData: Option<nat>, ghost e: Sqe)
      requires QueueHolds() && Pointing(world.pushes, e)
      requires e == Sqe(op, fd, length, group, e.data)
      requires match userData
               case None => e.data == LeftInSlot(c, Sent(world))
               case Some(a) => a == UserData(world.pushes, e.data)
      modifies `entries, `slots, `tail, `world
      ensures QueueHolds() && world == old(world).(sq := old(world).sq + [e])
    {
      NextSlotHolds(c, world.pushes, slots, Sent(world));
      FillSlot(world.pushes, slots, Sent(world), e);
      assert world.received + (world.sq + [e]) == Sent(world) + [e];
      var slot := tail % c.sqCapacity;
      ghost var filled := slots[slot := UserData(world.pushes, e.data)];
      if userData.Some? {
        slots := slots[slot := userData.value];
      }
      assert slots == filled;
      entries := entries + [RawSqe(op, fd, length, group, slots[slot])];
      tail := tail + 1;
      world := world.(sq := world.sq + [e]);
    }

    /** The kernel takes `room` entries. */
    method Submit(room: nat)
      requires QueueHolds() && room <= |entries|
      modifies `entries, `world
      ensures QueueHolds() && world == TakeMany(old(world), room)
      ensures Sent(world) == Sent(old(world)) && |entries| == |old(entries)| - room
    {
      TakeManyFrame(world, room);
      assert world.received + world.sq[..room] + world.sq[room..] == Sent(world);
      entries := entries[room..];
      world := TakeMany(world, room);
    }

    /** Obtain an entry, submitting once if the queue is full, and fill it. */
    method Queue(op: Opcode, fd: int, length: nat, group: nat, userData: Option<nat>, room: nat, ghost e: Sqe)
      returns (ok: bool)
      requires QueueHolds() && Pointing(world.pushes, e)
      requires e == Sqe(op, fd, length, group, e.data)
      requires match userData
               case None => op.CancelFd? && e.data == LeftInSlot(c, Sent(world))
               case Some(a) => op.Op? && a == UserData(world.pushes, e.data)
      requires room <= |entries|
      modifies `entries, `slots, `tail, `world
      ensures QueueHolds() && world == Admit(c, old(world), e, room)
      ensures ok <==> old(RoomFor(c, world, room))
    {
      ghost var s := world;
      TakeManyFrame(s, room);
      if |entries| >= c.sqCapacity {
        Submit(room);
      }
      ok := |entries| < c.sqCapacity;
      if ok {
        Fill(op, fd, length, group, userData, e);
      } else {
        world := Admit(c, s, e, room);
      }
    }

    /** `cancel`. */
    method Cancel(fd: int, room: nat)
      requires Valid() && room <= |entries|
      modifies `entries, `slots, `tail, `world
      ensures Valid() && world == Next(c, old(world), Step.Cancel(fd, room))
    {
      CancelReaches(c, world, fd, room);
      AdmitFrame(c, world, CancelEntry(fd, LeftInSlot(c, Sent(world))), room);
      var ok := Queue(CancelFd, fd, 0, NO_GROUP, None, room, CancelEntry(fd, LeftInSlot(c, Sent(world))));
    }

    /** Fill an entry from the request at `addr`. */
    method QueueRequest(kind: Kind, request: Request, addr: nat, room: nat, ghost p: Ptr) returns (ok: bool)
      requires Represents() && PushedAs(world.pushes, p, kind) && addr == AddressIn(world.pushes, p)
      requires room <= |entries|
      modifies `entries, `slots, `tail, `world
      ensures Represents() && world == Admit(c, old(world), EntryFor(kind, request, p), room)
      ensures world.faulted == old(world).faulted && world.phase == old(world).phase
      ensures ok <==> old(RoomFor(c, world, room))
    {
      AdmitFrame(c, world, EntryFor(kind, request, p), room);
      ok := Queue(Op(kind), request.fd, request.length, request.group, Some(addr), room, EntryFor(kind, request, p));
    }

    /** `prepare`, for the request type whose vector holds the pointer. The pointer dangles if a cancel's
        completion has freed the block: then `faulted`. */
    method Prepare(kind: Kind, addr: nat, room: nat) returns (ok: bool, faulted: bool)
      requires Valid() && world.phase.Preparing? && world.phase.done < |InOrder(world.pending)|
      requires addr == AddressIn(world.pushes, InOrder(world.pending)[world.phase.done])
      requires kind == KindAt(world.pending, world.phase.done) && room <= |entries|
      modifies `entries, `slots, `tail, `world
      ensures Represents() && world == Next(c, old(world), PrepareOne(room))
      ensures Reachable(c, world) && (faulted <==> world.faulted)
      ensures faulted <==> addr !in old(memory)
      ensures !faulted ==> (ok <==> old(RoomFor(c, world, room)))
    {
      ghost var s := world;
      ghost var p := InOrder(s.pending)[s.phase.done];
      PrepareCases(c, s, room);
      ok, faulted := false, addr !in memory;
      if faulted {
        world := world.(faulted := true);
      } else {
        ok := QueueRequest(kind, memory[addr], addr, room, p);
        world := world.(phase := Preparing(s.phase.done + 1));
      }
    }

    /** The first `n` requests of the batch have been prepared. */
    ghost predicate Underway(course: seq<State>, n: nat)
      reads this, pool, pending
    {
      Represents() && n < |course| && world == course[n]
    }

    /** Prepare the request at position `count` of the batch. */
    method PrepareAt(kind: Kind, addr: nat, rooms: nat -> nat, count: nat, ghost course: seq<State>)
      returns (faulted: bool)
      requires IsCourse(c, rooms, course) && Underway(course, count) && InSegment(course[0], kind, addr, count)
      requires !world.faulted
      modifies `entries, `slots, `tail, `world
      ensures Underway(course, count + 1) && (faulted <==> world.faulted)
    {
      CourseStep(c, rooms, course, count);
      var room := rooms(count);
      var ok;
      ok, faulted := Prepare(kind, addr, if room <= |entries| then room else |entries|);
    }

    /** Visit one vector, whose requests come at positions `start` and following of the batch. */
    method PrepareVector(kind: Kind, xs: seq<nat>, rooms: nat -> nat, start: nat, ghost course: seq<State>)
      returns (count: nat, faulted: bool)
      requires IsCourse(c, rooms, course) && Segment(course[0], kind, xs, start) && Underway(course, start)
      requires !world.faulted
      modifies `entries, `slots, `tail, `world
      ensures count <= start + |xs| && Underway(course, count) && (faulted <==> world.faulted)
      ensures !faulted ==> count == start + |xs|
    {
      count, faulted := start, false;
      for i := 0 to |xs|
        invariant count == start + i && Underway(course, count) && !faulted && !world.faulted
      {
        PositionAt(course[0], kind, xs, start, i);
        faulted := PrepareAt(kind, xs[i], rooms, count, course);
        count := count + 1;
        if faulted {
          return;
        }
      }
    }

    /** Visit the next vector, unless a request was read through a dangling pointer. */
    method PrepareNextVector(kind: Kind, xs: seq<nat>, rooms: nat -> nat, start: nat, derailed: bool,
                             ghost course: seq<State>)
      returns (count: nat, faulted: bool)
      requires IsCourse(c, rooms, course) && Underway(course, start) && (derailed <==> world.faulted)
      requires !derailed ==> Segment(course[0], kind, xs, start)
      modifies `entries, `slots, `tail, `world
      ensures Underway(course, count) && (faulted <==> world.faulted)
      ensures !faulted ==> !derailed && count == start + |xs|
    {
      count, faulted := start, derailed;
      if !derailed {
        count, faulted := PrepareVector(kind, xs, rooms, start, course);
      }
    }

    /** Visit the vectors in turn. */
    method PrepareVectors(rooms: nat -> nat, ghost course: seq<State>) returns (count: nat, faulted: bool)
      requires IsCourse(c, rooms, course) && Underway(course, 0) && !world.faulted
      modifies `entries, `slots, `tail, `world
      ensures Underway(course, count) && (faulted <==> world.faulted)
      ensures !faulted ==> count == |course| - 1
    {
      Segments(course[0], pending.Model());
      count, faulted := PrepareVector(Accept, pending.accepts, rooms, 0, course);
      count, faulted := PrepareNextVector(Connect, pending.connects, rooms, count, faulted, course);
      count, faulted := PrepareNextVector(Read, pending.readers, rooms, count, faulted, course);
      count, faulted := PrepareNextVector(MultiRead, pending.multiReaders, rooms, count, faulted, course);
      count, faulted := PrepareNextVector(Write, pending.writers, rooms, count, faulted, course);
    }

    /** All requests have been visited: clear the vectors. */
    method EndBatch(rooms: nat -> nat, ghost course: seq<State>)
      requires IsCourse(c, rooms, course) && Underway(course, |course| - 1) && !world.faulted
      modifies pending, `world
      ensures Valid() && world == course[|course| - 1].(pending := Empty(), phase := Idle)
    {
      EndOfCourse(c, rooms, course);
      NoneLeft(world.pushes);
      pending.Clear();
      world := world.(pending := Empty(), phase := Idle);
    }

    /** Done, with `t` as the state after the last request, or after one read through a dangling pointer. */
    ghost predicate BatchDone(t: State, faulted: bool)
      reads this, pool, pending
    {
      && (faulted <==> t.faulted)
      && (faulted ==> world == t)
      && (!faulted ==> Valid() && world == t.(pending := Empty(), phase := Idle))
    }

    method PrepareBatch(rooms: nat -> nat, ghost course: seq<State>) returns (count: nat, faulted: bool)
      requires IsCourse(c, rooms, course) && Underway(course, 0)
      modifies `entries, `slots, `tail, `world, pending
      ensures BatchDone(course[|course| - 1], faulted) && (!faulted ==> count == |course| - 1)
    {
      count, faulted := PrepareVectors(rooms, course);
      if faulted {
        CourseStops(c, rooms, course, count, |course| - 1);
      } else {
        EndBatch(rooms, course);
      }
    }

    /** `preparePendingRequests`: visit the vectors in turn, then clear them. `rooms(i)` is how many
        entries the kernel takes if the queue is full at the `i`-th request. The result of `prepare`
        is ignored: dropped requests are counted too. */
    method PreparePendingRequests(rooms: nat -> nat) returns (count: nat, faulted: bool)
      requires Valid() && world.phase.Idle?
      modifies this, pending
      ensures var begun := old(world).(phase := Preparing(0));
              BatchDone(PrepareMany(c, begun, rooms, |InOrder(begun.pending)|), faulted)
      ensures !faulted ==> count == |InOrder(old(world.pending))|
      ensures Inv(c, old(world).(phase := Preparing(0))) ==> !faulted
    {
      ghost var begun := world.(phase := Preparing(0));
      StepReaches(c, world, BeginPrepare);
      world := begun;
      ghost var course := Course(c, begun, rooms);
      if Inv(c, begun) { BatchDoesNotFault(c, rooms, course); }
      count, faulted := PrepareBatch(rooms, course);
      EndOfCourse(c, rooms, course);
    }

    /** Give a block back to the pool as the given type. */
    method Free(kind: Kind, addr: nat)
      requires MemoryHolds(pool.types, memory, world.heap)
      requires addr in pool.types && pool.types[addr] == kind
      modifies pool, `memory
      ensures MemoryHolds(pool.types, memory, world.heap - {addr})
    {
      FreeHolds(pool.types, memory, world.heap, addr);
      pool.Deallocate(kind, addr);
      memory := memory - {addr};
    }

    /** The switch of `release`: the tag in memory chooses the type to deallocate as. */
    method FreeByTag(addr: nat, ghost kind: Kind)
      requires MemoryHolds(pool.types, memory, world.heap)
      requires addr in memory && memory[addr].header.IsValid()
      requires pool.types[addr] == kind && KindOfTag(memory[addr].header.op) == Some(kind)
      modifies pool, `memory
      ensures MemoryHolds(pool.types, memory,
                          if kind.Accept? || kind.MultiRead? then world.heap else world.heap - {addr})
    {
      match KindOfTag(memory[addr].header.op) {
        case Some(Read) => Free(Read, addr);
        case Some(Write) => Free(Write, addr);
        case Some(Connect) => Free(Connect, addr);
        case _ =>
      }
    }

    /** `release`, for a completion whose user data is `addr`: the block that is there now is freed, also if
        the completion is a cancel's. */
    method Release(addr: nat)
      requires Valid() && NextRelease(world, addr)
      modifies this, pool
      ensures Valid() && world == Next(c, old(world), Step.Release)
      ensures addr in old(pool.types)
      ensures pool.types == match old(pool.types)[addr]
                            case Read => old(pool.types) - {addr}
                            case Write => old(pool.types) - {addr}
                            case Connect => old(pool.types) - {addr}
                            case Accept => old(pool.types)
                            case MultiRead => old(pool.types)
    {
      ghost var s := world;
      ReleaseCases(c, s, addr);
      if memory[addr].header.IsValid() {
        FreeByTag(addr, pool.types[addr]);
      }
      world := Next(c, s, Step.Release);
    }
  }
}
