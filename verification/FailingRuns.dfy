/** Concrete runs in which the code, as written, fails what it is for. */
module FailingRuns {
  import opened Bits
  import opened CircularQueue
  import opened Requests
  import opened Batches
  import opened BufferRings
  import opened Protocol
  import opened Lifecycle
  import opened RequestTheorems
  import opened BufferTheorems
  import opened StreamTheorems

  /** Steps that lead on from an initial state make a run. */
  lemma LeadsIsRun(c: Config, s: State, steps: seq<Step>, t: State) returns (states: seq<State>)
    requires c.IsValid() && Init(c, s) && Leads(c, s, steps, t)
    ensures IsRun(c, states, steps) && states[|steps|] == t
  {
    states :| Path(c, states, steps, s, t);
  }

  /** There is room for a completion. */
  predicate Usable(c: Config) {
    c.IsValid() && c.cqCapacity >= 1
  }

  // ----- a peer closes its connection -----

  const ONE_READ: seq<Step> := [PushRequest(1, MultiRead, 3, 0, 7), BeginPrepare, PrepareOne(0)]
  const READ_SENT: seq<Step> := [EndPrepare, KernelTake]
  const CLOSED: seq<Step> := [KernelShot(0, 0, 0), BeginReap, Dispatch, GiveBack]

  /** A connection reads, and its peer closes: the kernel answers 0 without a buffer. */
  const CLOSED_BY_PEER: seq<Step> := ONE_READ + READ_SENT + CLOSED

  ghost function ReadEntry(): Sqe {
    EntryFor(MultiRead, AsAdded(MultiRead, 3, 0, 7), 0)
  }

  ghost function ReadPushed(s: State): State {
    var r := AsAdded(MultiRead, 3, 0, 7);
    s.(heap := map[1 := Block(0, MultiRead, r)], pending := Append(Empty(), MultiRead, 0),
       pushes := [Push(1, MultiRead, r)])
  }

  ghost function ReadArmed(s: State): State {
    ReadPushed(s).(pending := Empty(), armed := [ReadEntry()], received := [ReadEntry()])
  }

  ghost function StreamEnded(s: State): State {
    Post(ReadArmed(s), Cqe(ReadEntry(), 0, 0), [])
  }

  ghost function BufferReturned(c: Config, s: State): State {
    StreamEnded(s).(phase := Handled(0), outcomes := [Notified(7, ReadEvent(3, FromRing([])))],
                    ring := Ring(s.ring.slots, 0, c.Buffers() + 1))
  }

  lemma PreparesRead(c: Config, s: State)
    requires Usable(c) && Init(c, s)
    ensures var t := ReadPushed(s).(phase := Preparing(0));
            && Enabled(c, t, PrepareOne(0))
            && Next(c, t, PrepareOne(0)) == t.(sq := [ReadEntry()], phase := Preparing(1))
  {
    var t := ReadPushed(s).(phase := Preparing(0));
    assert InOrder(t.pending) == [0];
    assert KindAt(t.pending, 0) == MultiRead;
  }

  lemma PushesRead(c: Config, s: State)
    requires Usable(c) && Init(c, s)
    ensures Leads(c, s, ONE_READ, ReadPushed(s).(sq := [ReadEntry()], phase := Preparing(1)))
  {
    var t := ReadPushed(s).(phase := Preparing(0));
    LeadsOne(c, s, ONE_READ[0], ReadPushed(s));
    LeadsOne(c, ReadPushed(s), BeginPrepare, t);
    PreparesRead(c, s);
    LeadsOne(c, t, PrepareOne(0), t.(sq := [ReadEntry()], phase := Preparing(1)));
    LeadsOn(c, s, [ONE_READ[0]], ReadPushed(s), [BeginPrepare], t);
    LeadsOn(c, s, [ONE_READ[0]] + [BeginPrepare], t, [PrepareOne(0)],
            t.(sq := [ReadEntry()], phase := Preparing(1)));
    assert ONE_READ == [ONE_READ[0]] + [BeginPrepare] + [PrepareOne(0)];
  }

  lemma TakesRead(c: Config, s: State)
    requires Usable(c) && Init(c, s)
    ensures var u := ReadPushed(s).(sq := [ReadEntry()], pending := Empty(), phase := Idle);
            Enabled(c, u, KernelTake) && Next(c, u, KernelTake) == ReadArmed(s)
  {
    assert [ReadEntry()][1..] == [];
  }

  lemma SendsRead(c: Config, s: State)
    requires Usable(c) && Init(c, s)
    ensures Leads(c, ReadPushed(s).(sq := [ReadEntry()], phase := Preparing(1)), READ_SENT, ReadArmed(s))
  {
    var t := ReadPushed(s).(sq := [ReadEntry()], phase := Preparing(1));
    var u := t.(pending := Empty(), phase := Idle);
    assert InOrder(t.pending) == [0];
    LeadsOne(c, t, EndPrepare, u);
    TakesRead(c, s);
    LeadsOne(c, u, KernelTake, ReadArmed(s));
    LeadsOn(c, t, [EndPrepare], u, [KernelTake], ReadArmed(s));
    assert READ_SENT == [EndPrepare] + [KernelTake];
  }

  lemma DispatchesEnd(c: Config, s: State)
    requires Usable(c) && Init(c, s)
    ensures var t := StreamEnded(s).(phase := Reaping(0));
            && Enabled(c, t, Dispatch)
            && Next(c, t, Dispatch)
               == t.(phase := Handling(0, true), outcomes := [Notified(7, ReadEvent(3, FromRing([])))])
  {
    GetIgnoresTheFlag(Cqe(ReadEntry(), 0, 0), |s.store|);
    assert Prefix(s.store[0], 0) == [] by { assert s.store[0] in s.store; }
  }

  lemma ReturnsUnlentBuffer(c: Config, s: State)
    requires Usable(c) && Init(c, s)
    ensures ReturnBuffer(c, s.ring, 0) == Ring(s.ring.slots, 0, c.Buffers() + 1)
  {
    CounterValues();
    Pow2Grows(c.k, COUNTER_BITS);
    FullTurn(0, c.Buffers());
    MaskIsRemainder(c.Buffers(), c.k);
    assert s.ring.slots[0 := 0] == s.ring.slots;
    DivisionIsUnique(c.Buffers() + 1, COUNTER_VALUES, 0, c.Buffers() + 1);
  }

  lemma GivesBackUnlent(c: Config, s: State, u: State)
    requires Usable(c) && Init(c, s) && u.ring == s.ring && u.phase == Handling(0, true) && !u.faulted
    requires |u.cq| == 1 && BufferId(u.cq[0]) == 0
    ensures Enabled(c, u, GiveBack)
    ensures Next(c, u, GiveBack) == u.(phase := Handled(0), ring := Ring(s.ring.slots, 0, c.Buffers() + 1))
  {
    ReturnsUnlentBuffer(c, s);
  }

  lemma PostsEnd(c: Config, s: State)
    requires Usable(c) && Init(c, s)
    ensures Leads(c, ReadArmed(s), [KernelShot(0, 0, 0)] + [BeginReap],
                  StreamEnded(s).(phase := Reaping(0)))
  {
    assert And(0, F_BUFFER) == 0;
    LeadsOne(c, ReadArmed(s), KernelShot(0, 0, 0), StreamEnded(s));
    LeadsOne(c, StreamEnded(s), BeginReap, StreamEnded(s).(phase := Reaping(0)));
    LeadsOn(c, ReadArmed(s), [KernelShot(0, 0, 0)], StreamEnded(s), [BeginReap],
            StreamEnded(s).(phase := Reaping(0)));
  }

  lemma HandlesEnd(c: Config, s: State)
    requires Usable(c) && Init(c, s)
    ensures Leads(c, StreamEnded(s).(phase := Reaping(0)), [Dispatch] + [GiveBack], BufferReturned(c, s))
  {
    var t := StreamEnded(s).(phase := Reaping(0));
    var u := t.(phase := Handling(0, true), outcomes := [Notified(7, ReadEvent(3, FromRing([])))]);
    DispatchesEnd(c, s);
    LeadsOne(c, t, Dispatch, u);
    GivesBackUnlent(c, s, u);
    LeadsOne(c, u, GiveBack, BufferReturned(c, s));
    LeadsOn(c, t, [Dispatch], u, [GiveBack], BufferReturned(c, s));
  }

  lemma Joins(c: Config, s: State, t: State, u: State, v: State, w: State)
    requires Leads(c, s, ONE_READ, t) && Leads(c, t, READ_SENT, u)
    requires Leads(c, u, [KernelShot(0, 0, 0)] + [BeginReap], v)
    requires Leads(c, v, [Dispatch] + [GiveBack], w)
    ensures Leads(c, s, CLOSED_BY_PEER, w)
  {
    assert CLOSED == [KernelShot(0, 0, 0)] + [BeginReap] + ([Dispatch] + [GiveBack]);
    LeadsOn(c, u, [KernelShot(0, 0, 0)] + [BeginReap], v, [Dispatch] + [GiveBack], w);
    LeadsOn(c, s, ONE_READ, t, READ_SENT, u);
    LeadsOn(c, s, ONE_READ + READ_SENT, u, CLOSED, w);
  }

  lemma PeerCloses(c: Config, s: State)
    requires Usable(c) && Init(c, s)
    ensures Leads(c, s, CLOSED_BY_PEER, BufferReturned(c, s))
  {
    PushesRead(c, s);
    SendsRead(c, s);
    PostsEnd(c, s);
    HandlesEnd(c, s);
    Joins(c, s, ReadPushed(s).(sq := [ReadEntry()], phase := Preparing(1)), ReadArmed(s),
          StreamEnded(s).(phase := Reaping(0)), BufferReturned(c, s));
  }

  lemma EndIsUnbalanced(c: Config, s: State)
    requires Usable(c) && Init(c, s)
    ensures !AllBalanced(BufferReturned(c, s), GivenBack(BufferReturned(c, s)))
  {
    assert And(0, F_BUFFER) == 0;
    assert GivenBack(BufferReturned(c, s)) == 1 && !BalancedAt(BufferReturned(c, s), 0);
  }

  /** As written, and however many buffers there are, conservation fails when the peer of a connection closes
      it: the loop returns buffer 0 to the kernel although it was never lent. */
  lemma EndOfStreamReturnsABuffer(c: Config, s: State) returns (states: seq<State>)
    requires Usable(c) && Init(c, s)
    ensures IsRun(c, states, CLOSED_BY_PEER) && !AlwaysConserved(c, states)
  {
    PeerCloses(c, s);
    states := LeadsIsRun(c, s, CLOSED_BY_PEER, BufferReturned(c, s));
    EndIsUnbalanced(c, s);
    ConservedIffBalanced(c, states, CLOSED_BY_PEER);
  }

  // ----- a corrupted stream -----

  /** Room for one entry, three completions, and one buffer of one byte. */
  const ONE_BUFFER: Config := Config(1, 3, 0, 1)

  const FILL_ONE: Step := KernelFill(0, 1, [1], 1)
  const FILL_TWO: Step := KernelFill(0, 1, [2], 1)

  /** After that, the kernel has the only buffer twice, and fills it twice before the loop looks. */
  const CORRUPTED: seq<Step> := CLOSED_BY_PEER + ([FILL_ONE] + [FILL_TWO] + ([Step.Release] + [Dispatch]))

  ghost function Filled(s: State): Cqe {
    Cqe(ReadEntry(), 1, 1)
  }

  ghost function FilledOnce(s: State): State {
    Post(BufferReturned(ONE_BUFFER, s).(ring := Ring([0], 1, 2), store := [[1]]), Filled(s), [1])
  }

  ghost function FilledTwice(s: State): State {
    Post(FilledOnce(s).(ring := Ring([0], 2, 2), store := [[2]]), Filled(s), [2])
  }

  ghost function SecondRead(s: State): State {
    FilledTwice(s).(phase := Handling(1, true),
                    outcomes := [Notified(7, ReadEvent(3, FromRing([]))), Notified(7, ReadEvent(3, FromRing([2])))])
  }

  lemma PopsOnce(r: Ring<nat>)
    requires r.slots == [0] && r.head < r.tail <= 2
    ensures Slot(r.head, 0) == 0 && Size(r, COUNTER_BITS) > 0
    ensures PopFront(r, COUNTER_BITS, 1) == Ring([0], r.head + 1, r.tail)
  {
    CounterValues();
    DivisionIsUnique(r.head + 1, COUNTER_VALUES, 0, r.head + 1);
  }

  /** One fill of the only buffer. */
  lemma FillsOnce(s: State, b: Byte)
    requires s.ring.slots == [0] && s.ring.head < s.ring.tail <= 2 && !s.faulted
    requires |s.cq| < 3 && s.armed == [ReadEntry()] && |s.store| == 1 && |s.store[0]| == 1
    ensures Enabled(ONE_BUFFER, s, KernelFill(0, 1, [b], 1))
    ensures Next(ONE_BUFFER, s, KernelFill(0, 1, [b], 1))
            == Post(s.(ring := Ring([0], s.ring.head + 1, s.ring.tail), store := [[b]]), Cqe(ReadEntry(), 1, 1), [b])
  {
    PopsOnce(s.ring);
    assert And(1, F_BUFFER) != 0;
    assert Overwrite(s.store[0], [b]) == [b];
    assert s.store[0 := [b]] == [[b]];
  }

  lemma FillsTwice(s: State)
    requires Init(ONE_BUFFER, s)
    ensures Leads(ONE_BUFFER, BufferReturned(ONE_BUFFER, s), [FILL_ONE] + [FILL_TWO], FilledTwice(s))
  {
    assert |s.store[0]| == 1 by { assert s.store[0] in s.store; }
    FillsOnce(BufferReturned(ONE_BUFFER, s), 1);
    LeadsOne(ONE_BUFFER, BufferReturned(ONE_BUFFER, s), FILL_ONE, FilledOnce(s));
    FillsOnce(FilledOnce(s), 2);
    LeadsOne(ONE_BUFFER, FilledOnce(s), FILL_TWO, FilledTwice(s));
    LeadsOn(ONE_BUFFER, BufferReturned(ONE_BUFFER, s), [FILL_ONE], FilledOnce(s), [FILL_TWO], FilledTwice(s));
  }

  lemma ReadsTheSecond(s: State)
    requires Init(ONE_BUFFER, s)
    ensures Leads(ONE_BUFFER, FilledTwice(s), [Step.Release] + [Dispatch], SecondRead(s))
  {
    var t := FilledTwice(s).(phase := Reaping(1));
    LeadsOne(ONE_BUFFER, FilledTwice(s), Step.Release, t);
    GetIgnoresTheFlag(Filled(s), 1);
    assert Prefix([2], 1) == [2];
    LeadsOne(ONE_BUFFER, t, Dispatch, SecondRead(s));
    LeadsOn(ONE_BUFFER, FilledTwice(s), [Step.Release], t, [Dispatch], SecondRead(s));
  }

  lemma CorruptedLeads(s: State, t: State, u: State, v: State)
    requires Leads(ONE_BUFFER, s, CLOSED_BY_PEER, t) && Leads(ONE_BUFFER, t, [FILL_ONE] + [FILL_TWO], u)
    requires Leads(ONE_BUFFER, u, [Step.Release] + [Dispatch], v)
    ensures Leads(ONE_BUFFER, s, CORRUPTED, v)
  {
    LeadsOn(ONE_BUFFER, t, [FILL_ONE] + [FILL_TWO], u, [Step.Release] + [Dispatch], v);
    LeadsOn(ONE_BUFFER, s, CLOSED_BY_PEER, t, [FILL_ONE] + [FILL_TWO] + ([Step.Release] + [Dispatch]), v);
  }

  /** Bytes for the two non-empty completions. */
  lemma WrittenAndDelivered(s: State, e: Sqe, a: Outcome, b: Outcome)
    requires s.posted == [Cqe(e, 0, 0), Cqe(e, 1, 1), Cqe(e, 1, 1)] && e.data == Some(0)
    requires s.wire == [[], [1], [2]] && s.outcomes == [a, b] && BytesOf(a) == [] && BytesOf(b) == [2]
    ensures Written(s, 0, 3) == [1, 2] && Delivered(s, 0, 2) == [2]
  {
    assert Written(s, 0, 0) == [] && Delivered(s, 0, 0) == [];
    assert Written(s, 0, 1) == Written(s, 0, 0) + s.wire[0];
    assert Written(s, 0, 2) == Written(s, 0, 1) + s.wire[1];
    assert Delivered(s, 0, 1) == Delivered(s, 0, 0) + BytesOf(a);
    assert Delivered(s, 0, 2) == Delivered(s, 0, 1) + BytesOf(b);
  }

  /** For its first request, the kernel wrote 1, then 2, and the subscriber has been given 2 only. */
  ghost predicate CorruptedAt(t: State) {
    && |t.outcomes| == 2 && |t.posted| == |t.wire| == 3
    && Written(t, 0, 3) == [1, 2] && Delivered(t, 0, 2) == [2]
  }

  lemma SecondReadBytes(s: State)
    requires Init(ONE_BUFFER, s)
    ensures CorruptedAt(SecondRead(s))
  {
    var t := SecondRead(s);
    WrittenAndDelivered(t, ReadEntry(), t.outcomes[0], t.outcomes[1]);
  }

  lemma CorruptedRun(s: State)
    requires Init(ONE_BUFFER, s)
    ensures Leads(ONE_BUFFER, s, CORRUPTED, SecondRead(s))
  {
    PeerCloses(ONE_BUFFER, s);
    FillsTwice(s);
    ReadsTheSecond(s);
    CorruptedLeads(s, BufferReturned(ONE_BUFFER, s), FilledTwice(s), SecondRead(s));
  }

  /** As written, the stream is not preserved. */
  lemma RefilledStreamIsCorrupted(s: State) returns (states: seq<State>)
    requires Init(ONE_BUFFER, s)
    ensures IsRun(ONE_BUFFER, states, CORRUPTED) && CorruptedAt(states[|CORRUPTED|])
  {
    CorruptedRun(s);
    states := LeadsIsRun(ONE_BUFFER, s, CORRUPTED, SecondRead(s));
    SecondReadBytes(s);
  }

  // ----- a queue that stays full -----

  const FIRST_WRITE: Step := PushRequest(1, Write, 3, 0, 7)
  const TWO_PUSHES: seq<Step> := [FIRST_WRITE] + [PushRequest(2, Write, 3, 0, 7)]
  const TWO_PREPARED: seq<Step> := [BeginPrepare] + [PrepareOne(0)] + [PrepareOne(0)]

  ghost function FirstPushed(s: State): State {
    var r := AsAdded(Write, 3, 0, 7);
    s.(heap := map[1 := Block(0, Write, r)], pending := Append(Empty(), Write, 0), pushes := [Push(1, Write, r)])
  }

  ghost function BothPushed(s: State): State {
    var r, t := AsAdded(Write, 3, 0, 7), FirstPushed(s);
    t.(heap := t.heap[2 := Block(1, Write, r)], pending := Append(t.pending, Write, 1),
       pushes := t.pushes + [Push(2, Write, r)])
  }

  ghost function FirstPrepared(s: State): State {
    BothPushed(s).(sq := [EntryFor(Write, AsAdded(Write, 3, 0, 7), 0)], phase := Preparing(1))
  }

  lemma PushesTwo(s: State)
    requires Init(ONE_BUFFER, s)
    ensures Leads(ONE_BUFFER, s, TWO_PUSHES, BothPushed(s))
  {
    LeadsOne(ONE_BUFFER, s, TWO_PUSHES[0], FirstPushed(s));
    LeadsOne(ONE_BUFFER, FirstPushed(s), TWO_PUSHES[1], BothPushed(s));
    LeadsOn(ONE_BUFFER, s, [TWO_PUSHES[0]], FirstPushed(s), [TWO_PUSHES[1]], BothPushed(s));
  }

  lemma BothWaiting(s: State)
    requires Init(ONE_BUFFER, s)
    ensures InOrder(BothPushed(s).pending) == [0, 1]
    ensures KindAt(BothPushed(s).pending, 0) == KindAt(BothPushed(s).pending, 1) == Write
  {
  }

  lemma PreparesFirst(s: State)
    requires Init(ONE_BUFFER, s)
    ensures var t := BothPushed(s).(phase := Preparing(0));
            Enabled(ONE_BUFFER, t, PrepareOne(0)) && Next(ONE_BUFFER, t, PrepareOne(0)) == FirstPrepared(s)
  {
    BothWaiting(s);
  }

  lemma DropsSecond(s: State)
    requires Init(ONE_BUFFER, s)
    ensures var u := FirstPrepared(s);
            && Enabled(ONE_BUFFER, u, PrepareOne(0))
            && Next(ONE_BUFFER, u, PrepareOne(0)) == u.(dropped := [1], phase := Preparing(2))
  {
    BothWaiting(s);
  }

  lemma PreparesTwo(s: State)
    requires Init(ONE_BUFFER, s)
    ensures Leads(ONE_BUFFER, BothPushed(s), TWO_PREPARED, FirstPrepared(s).(dropped := [1], phase := Preparing(2)))
  {
    var b, u := BothPushed(s), FirstPrepared(s);
    var t, v := b.(phase := Preparing(0)), u.(dropped := [1], phase := Preparing(2));
    PreparesFirst(s);
    DropsSecond(s);
    LeadsOne(ONE_BUFFER, b, BeginPrepare, t);
    LeadsOne(ONE_BUFFER, t, PrepareOne(0), u);
    LeadsOne(ONE_BUFFER, u, PrepareOne(0), v);
    LeadsOn(ONE_BUFFER, b, [BeginPrepare], t, [PrepareOne(0)], u);
    LeadsOn(ONE_BUFFER, b, [BeginPrepare] + [PrepareOne(0)], u, [PrepareOne(0)], v);
  }

  const SECOND_DROPPED: seq<Step> := TWO_PUSHES + TWO_PREPARED

  /** As written, the second of two writes is lost when the queue has room for one and the in-batch
      submit frees none. */
  lemma SecondWriteIsDropped(s: State) returns (states: seq<State>)
    requires Init(ONE_BUFFER, s)
    ensures IsRun(ONE_BUFFER, states, SECOND_DROPPED) && states[|SECOND_DROPPED|].dropped == [1]
  {
    var v := FirstPrepared(s).(dropped := [1], phase := Preparing(2));
    PushesTwo(s);
    PreparesTwo(s);
    LeadsOn(ONE_BUFFER, s, TWO_PUSHES, BothPushed(s), TWO_PREPARED, v);
    states := LeadsIsRun(ONE_BUFFER, s, SECOND_DROPPED, v);
  }

  // ----- a cancel completes -----

  lemma LeadsStep(c: Config, s: State, steps: seq<Step>, t: State, step: Step, u: State)
    requires Leads(c, s, steps, t) && Enabled(c, t, step) && u == Next(c, t, step)
    ensures Leads(c, s, steps + [step], u)
  {
    LeadsOne(c, t, step, u);
    LeadsOn(c, s, steps, t, [step], u);
  }

  /** Nothing is under way. */
  ghost predicate AtRest(s: State) {
    !s.faulted && s.phase == Idle && s.sq == [] && s.flying == [] && s.cq == []
  }

  const CANCEL_POSTED: seq<Step> := [Cancel(3, 0)] + [KernelTake] + [KernelComplete(0, 0, 0)] + [BeginReap]

  ghost function CancelCqe(c: Config, s: State): Cqe {
    Cqe(CancelEntry(3, LeftInSlot(c, Sent(s))), 0, 0)
  }

  ghost function CancelPosted(c: Config, s: State): State {
    Post(s.(received := s.received + [CancelCqe(c, s).entry]), CancelCqe(c, s), []).(phase := Reaping(0))
  }

  /** A cancel is sent from a state at rest, and answered. */
  lemma PostsCancel(c: Config, s: State)
    requires Usable(c) && AtRest(s)
    ensures Leads(c, s, CANCEL_POSTED, CancelPosted(c, s))
  {
    var e := CancelCqe(c, s).entry;
    var t := s.(sq := [e]);
    var u := s.(flying := [e], received := s.received + [e]);
    var v := Post(s.(received := s.received + [e]), CancelCqe(c, s), []);
    LeadsOne(c, s, Cancel(3, 0), t);
    assert t.sq[1..] == [];
    LeadsStep(c, s, [Cancel(3, 0)], t, KernelTake, u);
    assert And(0, F_BUFFER) == 0;
    assert u.flying[..0] + u.flying[1..] == [];
    LeadsStep(c, s, [Cancel(3, 0)] + [KernelTake], u, KernelComplete(0, 0, 0), v);
    LeadsStep(c, s, [Cancel(3, 0)] + [KernelTake] + [KernelComplete(0, 0, 0)], v, BeginReap, v.(phase := Reaping(0)));
  }

  const NULL_RELEASED: seq<Step> := CANCEL_POSTED + [Dispatch] + [GiveBack] + [Step.Release]

  /** As written, the loop reads memory through a null pointer when a cancel completes, as the destructor of
      a Connection makes it, if no request has used its slot of the queue before. */
  lemma CancelFaults(c: Config, s: State) returns (states: seq<State>)
    requires Usable(c) && Init(c, s)
    ensures IsRun(c, states, NULL_RELEASED) && states[|NULL_RELEASED|].faulted
  {
    var t := CancelPosted(c, s);
    var u := t.(outcomes := [LoopError(MalformedEntry)], phase := Handling(0, false));
    var v := u.(phase := Handled(0));
    PostsCancel(c, s);
    LeadsStep(c, s, CANCEL_POSTED, t, Dispatch, u);
    LeadsStep(c, s, CANCEL_POSTED + [Dispatch], u, GiveBack, v);
    LeadsStep(c, s, CANCEL_POSTED + [Dispatch] + [GiveBack], v, Step.Release, v.(faulted := true));
    states := LeadsIsRun(c, s, NULL_RELEASED, v.(faulted := true));
  }

  // ----- a cancel in a slot that a multi-shot read has used -----

  const CANCEL_RETURNS: seq<Step> := ONE_READ + READ_SENT + CANCEL_POSTED + [Dispatch] + [GiveBack]

  ghost function CancelTold(c: Config, s: State): State {
    CancelPosted(c, ReadArmed(s)).(phase := Handling(0, true), outcomes := [Notified(7, ReadEvent(3, FromRing([])))])
  }

  ghost function CancelReturned(c: Config, s: State): State {
    CancelTold(c, s).(phase := Handled(0), ring := Ring(s.ring.slots, 0, c.Buffers() + 1))
  }

  lemma TellsReader(c: Config, s: State)
    requires Usable(c) && c.sqCapacity == 1 && Init(c, s)
    ensures Enabled(c, CancelPosted(c, ReadArmed(s)), Dispatch)
    ensures Next(c, CancelPosted(c, ReadArmed(s)), Dispatch) == CancelTold(c, s)
  {
    assert Sent(ReadArmed(s)) == [ReadEntry()];
    GetIgnoresTheFlag(CancelCqe(c, ReadArmed(s)), |s.store|);
    assert Prefix(s.store[0], 0) == [] by { assert s.store[0] in s.store; }
  }

  lemma CancelReturnsLead(c: Config, s: State)
    requires Usable(c) && c.sqCapacity == 1 && Init(c, s)
    ensures Leads(c, s, CANCEL_RETURNS, CancelReturned(c, s))
  {
    var t, u := ReadArmed(s), CancelPosted(c, ReadArmed(s));
    PushesRead(c, s);
    SendsRead(c, s);
    LeadsOn(c, s, ONE_READ, ReadPushed(s).(sq := [ReadEntry()], phase := Preparing(1)), READ_SENT, t);
    PostsCancel(c, t);
    LeadsOn(c, s, ONE_READ + READ_SENT, t, CANCEL_POSTED, u);
    TellsReader(c, s);
    LeadsStep(c, s, ONE_READ + READ_SENT + CANCEL_POSTED, u, Dispatch, CancelTold(c, s));
    GivesBackUnlent(c, s, CancelTold(c, s));
    LeadsStep(c, s, ONE_READ + READ_SENT + CANCEL_POSTED + [Dispatch], CancelTold(c, s), GiveBack,
              CancelReturned(c, s));
  }

  lemma CancelIsUnbalanced(c: Config, s: State)
    requires Usable(c) && Init(c, s)
    ensures !AllBalanced(CancelReturned(c, s), GivenBack(CancelReturned(c, s)))
  {
    assert And(0, F_BUFFER) == 0;
    assert GivenBack(CancelReturned(c, s)) == 1 && !BalancedAt(CancelReturned(c, s), 0);
  }

  /** As written, with one slot, the completion of a cancel is taken for that of the read in whose slot it was:
      its subscriber is told of 0 bytes, and buffer 0, which was not lent, is returned. */
  lemma CancelReturnsABuffer(c: Config, s: State) returns (states: seq<State>)
    requires Usable(c) && c.sqCapacity == 1 && Init(c, s)
    ensures IsRun(c, states, CANCEL_RETURNS) && !AlwaysConserved(c, states)
    ensures states[|CANCEL_RETURNS|].outcomes == [Notified(7, ReadEvent(3, FromRing([])))]
  {
    CancelReturnsLead(c, s);
    states := LeadsIsRun(c, s, CANCEL_RETURNS, CancelReturned(c, s));
    CancelIsUnbalanced(c, s);
    ConservedIffBalanced(c, states, CANCEL_RETURNS);
  }

  // ----- a cancel in a slot that a write has used -----

  ghost function WriteEntry(): Sqe {
    EntryFor(Write, AsAdded(Write, 3, 0, 7), 0)
  }

  const WRITE_PREPARED: seq<Step> := [FIRST_WRITE] + [BeginPrepare] + [PrepareOne(0)] + [EndPrepare]
  const WRITE_POSTED: seq<Step> := [KernelTake] + [KernelComplete(0, 0, 0)] + [BeginReap]
  const WRITE_RELEASED: seq<Step> := [Dispatch] + [GiveBack] + [Step.Release] + [EndVisit] + [AdvanceHead]

  /** A write is prepared, completes, and is released. */
  const WRITE_DONE: seq<Step> := WRITE_PREPARED + WRITE_POSTED + WRITE_RELEASED

  ghost function WritePrepared(s: State): State {
    FirstPushed(s).(pending := Empty(), sq := [WriteEntry()])
  }

  ghost function WritePosted(s: State): State {
    Post(WritePrepared(s).(sq := [], received := [WriteEntry()]), Cqe(WriteEntry(), 0, 0), []).(phase := Reaping(0))
  }

  ghost function WriteDone(s: State): State {
    WritePosted(s).(heap := map[], freed := [0], cq := [], phase := Idle, outcomes := [Notified(7, WriteEvent(0, 0))])
  }

  lemma PreparesWrite(c: Config, s: State)
    requires Usable(c) && Init(c, s)
    ensures Leads(c, s, WRITE_PREPARED, WritePrepared(s))
  {
    var a, t := FirstPushed(s), FirstPushed(s).(phase := Preparing(0));
    var u := a.(sq := [WriteEntry()], phase := Preparing(1));
    assert InOrder(a.pending) == [0] && KindAt(a.pending, 0) == Write;
    LeadsOne(c, s, FIRST_WRITE, a);
    LeadsStep(c, s, [FIRST_WRITE], a, BeginPrepare, t);
    LeadsStep(c, s, [FIRST_WRITE] + [BeginPrepare], t, PrepareOne(0), u);
    LeadsStep(c, s, [FIRST_WRITE] + [BeginPrepare] + [PrepareOne(0)], u, EndPrepare, WritePrepared(s));
  }

  lemma PostsWrite(c: Config, s: State)
    requires Usable(c) && Init(c, s)
    ensures Leads(c, WritePrepared(s), WRITE_POSTED, WritePosted(s))
  {
    var a, e := WritePrepared(s), WriteEntry();
    var t := a.(sq := [], flying := [e], received := [e]);
    var u := Post(a.(sq := [], received := [e]), Cqe(e, 0, 0), []);
    assert a.sq[1..] == [] && a.received + [e] == [e];
    LeadsOne(c, a, KernelTake, t);
    assert And(0, F_BUFFER) == 0;
    assert t.flying[..0] + t.flying[1..] == [];
    LeadsStep(c, a, [KernelTake], t, KernelComplete(0, 0, 0), u);
    LeadsStep(c, a, [KernelTake] + [KernelComplete(0, 0, 0)], u, BeginReap, WritePosted(s));
  }

  lemma ReleasesWrite(c: Config, s: State)
    requires Usable(c) && Init(c, s)
    ensures Leads(c, WritePosted(s), WRITE_RELEASED, WriteDone(s))
  {
    var a := WritePosted(s);
    var t := a.(outcomes := [Notified(7, WriteEvent(0, 0))], phase := Handling(0, false));
    var u := t.(phase := Handled(0));
    var v := u.(heap := map[], freed := [0], phase := Reaping(1));
    LeadsOne(c, a, Dispatch, t);
    LeadsStep(c, a, [Dispatch], t, GiveBack, u);
    assert a.heap - {1} == map[];
    LeadsStep(c, a, [Dispatch] + [GiveBack], u, Step.Release, v);
    LeadsStep(c, a, [Dispatch] + [GiveBack] + [Step.Release], v, EndVisit, v.(phase := Advancing(1)));
    assert v.cq[1..] == [];
    LeadsStep(c, a, [Dispatch] + [GiveBack] + [Step.Release] + [EndVisit], v.(phase := Advancing(1)), AdvanceHead,
              WriteDone(s));
  }

  lemma CompletesWrite(c: Config, s: State)
    requires Usable(c) && Init(c, s)
    ensures Leads(c, s, WRITE_DONE, WriteDone(s)) && AtRest(WriteDone(s))
  {
    PreparesWrite(c, s);
    PostsWrite(c, s);
    ReleasesWrite(c, s);
    LeadsOn(c, s, WRITE_PREPARED, WritePrepared(s), WRITE_POSTED, WritePosted(s));
    LeadsOn(c, s, WRITE_PREPARED + WRITE_POSTED, WritePosted(s), WRITE_RELEASED, WriteDone(s));
  }

  const FREED_READ: seq<Step> := WRITE_DONE + CANCEL_POSTED + [Dispatch]

  lemma DispatchDangles(c: Config, s: State)
    requires Usable(c) && c.sqCapacity == 1 && Init(c, s)
    ensures var u := CancelPosted(c, WriteDone(s));
            && DanglingCompletion(u)
            && Enabled(c, u, Dispatch) && Next(c, u, Dispatch) == u.(faulted := true)
  {
    assert Sent(WriteDone(s)) == [WriteEntry()];
  }

  /** As written, with one slot, the completion of a cancel makes the loop read the header of a write that has
      completed and has been freed. */
  lemma CancelDangles(c: Config, s: State) returns (states: seq<State>)
    requires Usable(c) && c.sqCapacity == 1 && Init(c, s)
    ensures IsRun(c, states, FREED_READ) && states[|FREED_READ|].faulted
    ensures DanglingCompletion(states[|FREED_READ|])
  {
    var t, u := WriteDone(s), CancelPosted(c, WriteDone(s));
    CompletesWrite(c, s);
    PostsCancel(c, t);
    LeadsOn(c, s, WRITE_DONE, t, CANCEL_POSTED, u);
    DispatchDangles(c, s);
    LeadsStep(c, s, WRITE_DONE + CANCEL_POSTED, u, Dispatch, u.(faulted := true));
    states := LeadsIsRun(c, s, FREED_READ, u.(faulted := true));
  }

  /** Another write is pushed, which gets the address of the first. */
  const REUSE: Step := PushRequest(1, Write, 5, 0, 9)

  const LIVE_FREED: seq<Step> := WRITE_DONE + [REUSE] + CANCEL_POSTED + ([Dispatch] + [GiveBack] + [Step.Release])
                                 + ([EndVisit] + [AdvanceHead])

  ghost function Reused(s: State): State {
    var r, t := AsAdded(Write, 5, 0, 9), WriteDone(s);
    t.(heap := map[1 := Block(1, Write, r)], pending := Append(Empty(), Write, 1),
       pushes := t.pushes + [Push(1, Write, r)])
  }

  ghost function LiveFreed(c: Config, s: State): State {
    var t := CancelPosted(c, Reused(s));
    t.(heap := map[], freed := [0, 1], cq := [], phase := Idle,
       outcomes := t.outcomes + [Notified(9, WriteEvent(0, 0))])
  }

  lemma ReusesAddress(c: Config, s: State)
    requires Usable(c) && Init(c, s)
    ensures Leads(c, s, WRITE_DONE + [REUSE], Reused(s)) && AtRest(Reused(s))
  {
    CompletesWrite(c, s);
    LeadsStep(c, s, WRITE_DONE, WriteDone(s), REUSE, Reused(s));
  }

  ghost function OtherTold(c: Config, s: State): State {
    var t := CancelPosted(c, Reused(s));
    t.(outcomes := t.outcomes + [Notified(9, WriteEvent(0, 0))], phase := Handling(0, false))
  }

  lemma TellsOther(c: Config, s: State)
    requires Usable(c) && c.sqCapacity == 1 && Init(c, s)
    ensures Enabled(c, CancelPosted(c, Reused(s)), Dispatch)
    ensures Next(c, CancelPosted(c, Reused(s)), Dispatch) == OtherTold(c, s)
  {
    assert Sent(Reused(s)) == [WriteEntry()];
  }

  lemma FreesOther(c: Config, s: State)
    requires Usable(c) && c.sqCapacity == 1 && Init(c, s)
    ensures var u := OtherTold(c, s).(phase := Handled(0));
            && Enabled(c, u, Step.Release)
            && Next(c, u, Step.Release) == u.(heap := map[], freed := [0, 1], phase := Reaping(1))
  {
    var u := OtherTold(c, s);
    assert Sent(Reused(s)) == [WriteEntry()];
    assert u.heap - {1} == map[] && u.freed + [1] == [0, 1];
  }

  lemma ReleasesLive(c: Config, s: State)
    requires Usable(c) && c.sqCapacity == 1 && Init(c, s)
    ensures Leads(c, CancelPosted(c, Reused(s)), [Dispatch] + [GiveBack] + [Step.Release],
                  OtherTold(c, s).(heap := map[], freed := [0, 1], phase := Reaping(1)))
  {
    var a, t := CancelPosted(c, Reused(s)), OtherTold(c, s);
    TellsOther(c, s);
    FreesOther(c, s);
    LeadsOne(c, a, Dispatch, t);
    LeadsStep(c, a, [Dispatch], t, GiveBack, t.(phase := Handled(0)));
    LeadsStep(c, a, [Dispatch] + [GiveBack], t.(phase := Handled(0)), Step.Release,
              t.(heap := map[], freed := [0, 1], phase := Reaping(1)));
  }

  lemma EndsPass(c: Config, s: State)
    requires Usable(c) && Init(c, s)
    ensures Leads(c, OtherTold(c, s).(heap := map[], freed := [0, 1], phase := Reaping(1)),
                  [EndVisit] + [AdvanceHead], LiveFreed(c, s))
  {
    var a := OtherTold(c, s).(heap := map[], freed := [0, 1], phase := Reaping(1));
    LeadsOne(c, a, EndVisit, a.(phase := Advancing(1)));
    assert a.cq[1..] == [];
    LeadsStep(c, a, [EndVisit], a.(phase := Advancing(1)), AdvanceHead, LiveFreed(c, s));
  }

  lemma FreesLive(c: Config, s: State)
    requires Usable(c) && c.sqCapacity == 1 && Init(c, s)
    ensures Leads(c, s, LIVE_FREED, LiveFreed(c, s))
  {
    var a := CancelPosted(c, Reused(s));
    var u := OtherTold(c, s).(heap := map[], freed := [0, 1], phase := Reaping(1));
    ReusesAddress(c, s);
    PostsCancel(c, Reused(s));
    ReleasesLive(c, s);
    EndsPass(c, s);
    LeadsOn(c, s, WRITE_DONE + [REUSE], Reused(s), CANCEL_POSTED, a);
    LeadsOn(c, s, WRITE_DONE + [REUSE] + CANCEL_POSTED, a, [Dispatch] + [GiveBack] + [Step.Release], u);
    LeadsOn(c, s, WRITE_DONE + [REUSE] + CANCEL_POSTED + ([Dispatch] + [GiveBack] + [Step.Release]), u,
            [EndVisit] + [AdvanceHead], LiveFreed(c, s));
  }

  /** The second write, waiting for its batch, has been freed, and its subscriber told that it is done. */
  ghost predicate FreedWaiting(t: State) {
    && Waiting(t) == [1] && 1 in t.freed && t.heap == map[] && t.phase == Idle && !t.faulted
    && |t.outcomes| == 2 && t.outcomes[1] == Notified(9, WriteEvent(0, 0))
  }

  /** As written, with one slot, the completion of a cancel of some other descriptor is told to the subscriber
      of a write that has not been sent, whose block is then freed; its batch will read it all the same. */
  lemma CancelFreesWaiting(c: Config, s: State) returns (states: seq<State>)
    requires Usable(c) && c.sqCapacity == 1 && Init(c, s)
    ensures IsRun(c, states, LIVE_FREED) && FreedWaiting(states[|LIVE_FREED|])
    ensures Leads(c, states[|LIVE_FREED|], [BeginPrepare] + [PrepareOne(0)],
                  states[|LIVE_FREED|].(phase := Preparing(0), faulted := true))
  {
    var t := LiveFreed(c, s);
    FreesLive(c, s);
    states := LeadsIsRun(c, s, LIVE_FREED, t);
    assert InOrder(t.pending) == [1];
    LeadsOne(c, t, BeginPrepare, t.(phase := Preparing(0)));
    LeadsStep(c, t, [BeginPrepare], t.(phase := Preparing(0)), PrepareOne(0),
              t.(phase := Preparing(0), faulted := true));
  }
}
