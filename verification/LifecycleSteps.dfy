/** Every step of the protocol keeps what is known of requests, but the one by which the completion of
    a cancel frees a block. */
module LifecycleSteps {
  import opened Requests
  import opened Batches
  import opened BufferRings
  import opened Protocol
  import opened Lifecycle
  import opened Soundness

  lemma InitCensus(s: State)
    requires InOrder(s.pending) == [] && s.phase.Idle? && s.sq == s.flying == s.armed == [] && s.cq == []
    requires s.dropped == s.freed == [] && s.pushes == []
    ensures OneStageEach(s)
  {
    forall p: Ptr ensures Stages(s, p) == 0 {}
  }

  lemma InitKeeps(c: Config, s: State)
    requires c.IsValid() && Init(c, s)
    ensures Inv(c, s)
  {
    assert InOrder(s.pending) == [];
    InitCensus(s);
    InitIsSound(c, s);
  }

  /** Steps that move no allocation. */
  lemma CensusFrame(s: State, t: State)
    requires OneStageEach(s)
    requires Waiting(t) == Waiting(s) && Unreleased(t) == Unreleased(s) && |t.pushes| == |s.pushes|
    requires t.sq == s.sq && t.flying == s.flying && t.armed == s.armed
    requires t.dropped == s.dropped && t.freed == s.freed
    ensures OneStageEach(t)
  {
    forall p: Ptr ensures Stages(t, p) == Stages(s, p) {}
  }

  // ----- pushing -----

  lemma PushKeepsCensus(s: State, t: State, k: Kind)
    requires OneStageEach(s) && !s.phase.Preparing? && |t.pushes| == |s.pushes| + 1
    requires t == s.(heap := t.heap, pending := Append(s.pending, k, |s.pushes|), pushes := t.pushes)
    ensures OneStageEach(t)
  {
    AppendAddsOne(s.pending, k, |s.pushes|);
    assert Waiting(t) == InOrder(t.pending) && Waiting(s) == InOrder(s.pending);
    assert Unreleased(t) == Unreleased(s);
    forall p: Ptr ensures Stages(t, p) == Stages(s, p) + if p == |s.pushes| then 1 else 0 {}
  }

  lemma PushKeepsHeap(heap: map<nat, Block>, pushes: seq<Push>, freed: seq<Ptr>, x: Push)
    requires HeapIsExact(heap, pushes, freed) && x.addr !in heap && FreedOnce(pushes, freed)
    ensures HeapIsExact(heap[x.addr := Block(|pushes|, x.kind, x.request)], pushes + [x], freed)
  {
    var heap', pushes' := heap[x.addr := Block(|pushes|, x.kind, x.request)], pushes + [x];
    forall p: Ptr | p < |pushes'| ensures InPlace(heap', pushes', freed, p) {
      if p < |pushes| { assert InPlace(heap, pushes, freed, p); }
    }
    forall a: nat | a in heap' ensures Justified(heap', pushes', freed, a) {
      if a != x.addr { assert Justified(heap, pushes, freed, a); }
    }
  }

  lemma GenuineGrows(pushes: seq<Push>, x: Push, es: seq<Sqe>)
    requires AllGenuine(pushes, es)
    ensures AllGenuine(pushes + [x], es)
  {
  }

  lemma AnswersGrow(pushes: seq<Push>, x: Push, posted: seq<Cqe>)
    requires AnswersGenuine(pushes, posted)
    ensures AnswersGenuine(pushes + [x], posted)
  {
  }

  lemma OutcomesGrow(c: Config, pushes: seq<Push>, x: Push, posted: seq<Cqe>, wire: seq<seq<Byte>>,
                     outcomes: seq<Outcome>)
    requires OutcomesOwed(c, pushes, posted, wire, outcomes)
    ensures OutcomesOwed(c, pushes + [x], posted, wire, outcomes)
  {
    forall i | 0 <= i < |outcomes|
      ensures Owed(c, pushes + [x], posted[i], wire[i], outcomes[i])
    {
      assert Owed(c, pushes, posted[i], wire[i], outcomes[i]);
    }
  }

  lemma PushKeeps(c: Config, s: State, step: Step)
    requires Inv(c, s) && step.PushRequest? && Enabled(c, s, step)
    ensures Accounted(c, Next(c, s, step))
  {
    var r := AsAdded(step.kind, step.fd, step.length, step.subscriber);
    var x := Push(step.addr, step.kind, r);
    PushKeepsCensus(s, Next(c, s, step), step.kind);
    PushKeepsHeap(s.heap, s.pushes, s.freed, x);
    GenuineGrows(s.pushes, x, s.sq);
    GenuineGrows(s.pushes, x, s.flying);
    GenuineGrows(s.pushes, x, s.armed);
    AnswersGrow(s.pushes, x, s.posted);
    OutcomesGrow(c, s.pushes, x, s.posted, s.wire, s.outcomes);
  }

  // ----- submitting -----

  lemma TakeOneKeepsCensus(s: State)
    requires OneStageEach(s) && s.sq != []
    ensures OneStageEach(TakeOne(s))
  {
    var t, e := TakeOne(s), s.sq[0];
    assert Waiting(t) == Waiting(s) && Unreleased(t) == Unreleased(s);
    forall p: Ptr ensures Stages(t, p) == Stages(s, p) {
      OwnersConcat(s.flying, [e], p);
      OwnersConcat(s.armed, [e], p);
    }
  }

  lemma TakeOneKeeps(c: Config, s: State)
    requires Inv(c, s) && s.sq != []
    ensures Inv(c, TakeOne(s))
  {
    TakeOneSound(c, s);
    TakeOneKeepsCensus(s);
  }

  lemma TakeManyKeeps(c: Config, s: State, m: nat)
    requires Inv(c, s) && m <= |s.sq|
    ensures Inv(c, TakeMany(s, m))
  {
    forall t: State | Inv(c, t) && t.sq != [] ensures Inv(c, TakeOne(t)) { TakeOneKeeps(c, t); }
    TakeManyKeepsAny((t: State) => Inv(c, t), s, m);
  }

  lemma QueueCancelKeepsCensus(s: State, t: State, e: Sqe)
    requires OneStageEach(s) && e.op.CancelFd? && t == s.(sq := s.sq + [e])
    ensures OneStageEach(t)
  {
    assert Waiting(t) == Waiting(s) && Unreleased(t) == Unreleased(s);
    forall p: Ptr ensures Stages(t, p) == Stages(s, p) {
      OwnersConcat(s.sq, [e], p);
    }
  }

  lemma QueueCancelKeeps(c: Config, s: State, e: Sqe)
    requires Accounted(c, s) && e.op.CancelFd?
    ensures Accounted(c, s.(sq := s.sq + [e]))
  {
    QueueCancelKeepsCensus(s, s.(sq := s.sq + [e]), e);
  }

  lemma AdmitCancelKeeps(c: Config, s: State, e: Sqe, room: nat)
    requires Inv(c, s) && e.op.CancelFd? && room <= |s.sq|
    ensures Accounted(c, Admit(c, s, e, room))
  {
    TakeManyKeeps(c, s, room);
    QueueCancelKeeps(c, s, e);
    QueueCancelKeeps(c, TakeMany(s, room), e);
  }

  // ----- preparing -----

  lemma PhaseOnlyKeeps(c: Config, s: State, step: Step)
    requires Inv(c, s) && Enabled(c, s, step)
    requires step.BeginPrepare? || step.EndPrepare? || step.BeginReap? || step.EndVisit?
    ensures Accounted(c, Next(c, s, step))
  {
    assert InOrder(Empty<Ptr>()) == [];
    CensusFrame(s, Next(c, s, step));
  }

  /** The request visited next is live, holds what was pushed, and is in the vector of its type. */
  lemma PrepareReadsThePush(s: State)
    requires s.phase.Preparing? && s.phase.done < |InOrder(s.pending)|
    requires OneStageEach(s) && HeapIsExact(s.heap, s.pushes, s.freed)
    requires VectorsTyped(s.pushes, s.pending)
    ensures var p := InOrder(s.pending)[s.phase.done];
            && p < |s.pushes| && AddressIn(s.pushes, p) in s.heap
            && s.heap[AddressIn(s.pushes, p)] == Block(p, s.pushes[p].kind, s.pushes[p].request)
            && KindAt(s.pending, s.phase.done) == s.pushes[p].kind
  {
    var p := InOrder(s.pending)[s.phase.done];
    assert Waiting(s)[0] == p;
    WaitingIsLive(s, p);
    assert InPlace(s.heap, s.pushes, s.freed, p);
    VisitedWasPushed(s);
  }

  lemma MoveWaitingKeepsCensus(s: State, t: State, p: Ptr)
    requires OneStageEach(s) && s.phase.Preparing? && s.phase.done < |InOrder(s.pending)|
    requires InOrder(s.pending)[s.phase.done] == p
    requires t == s.(sq := t.sq, dropped := t.dropped, phase := Preparing(s.phase.done + 1))
    requires || (t.dropped == s.dropped && exists e: Sqe :: Carries(e, p) && t.sq == s.sq + [e])
             || (t.dropped == s.dropped + [p] && t.sq == s.sq)
    ensures OneStageEach(t)
  {
    assert Waiting(s) == [p] + Waiting(t);
    assert Unreleased(t) == Unreleased(s);
    forall q: Ptr ensures Stages(t, q) == Stages(s, q) {
      if t.sq != s.sq {
        var e: Sqe :| Carries(e, p) && t.sq == s.sq + [e];
        OwnersConcat(s.sq, [e], q);
      }
    }
  }

  lemma AdmitKeeps(c: Config, s: State, t: State, e: Sqe, p: Ptr)
    requires Inv(c, s) && Carries(e, p) && Genuine(s.pushes, e)
    requires s.phase.Preparing? && s.phase.done < |InOrder(s.pending)| && !s.faulted
    requires InOrder(s.pending)[s.phase.done] == p
    requires || t == s.(sq := s.sq + [e], phase := Preparing(s.phase.done + 1))
             || t == s.(dropped := s.dropped + [p], phase := Preparing(s.phase.done + 1))
    ensures Accounted(c, t)
  {
    MoveWaitingKeepsCensus(s, t, p);
  }

  lemma AdmitOrDrop(c: Config, s: State, e: Sqe, room: nat)
    requires room <= |s.sq| && e.op.Op? && e.data.Some?
    ensures var b := if |s.sq| < c.sqCapacity then s else TakeMany(s, room);
            && (Admit(c, s, e, room) == b.(sq := b.sq + [e])
                || Admit(c, s, e, room) == b.(dropped := b.dropped + [e.data.value]))
            && b == s.(sq := b.sq, flying := b.flying, armed := b.armed, received := b.received)
  {
    TakeManyFrame(s, room);
  }

  /** Preparing a request admits the entry for it as pushed. */
  lemma PrepareIsAdmit(c: Config, s: State, room: nat)
    requires OneStageEach(s) && HeapIsExact(s.heap, s.pushes, s.freed) && VectorsTyped(s.pushes, s.pending)
    requires Enabled(c, s, PrepareOne(room))
    ensures var p := InOrder(s.pending)[s.phase.done];
            && p < |s.pushes|
            && Next(c, s, PrepareOne(room))
               == Admit(c, s, EntryFor(s.pushes[p].kind, s.pushes[p].request, p), room)
                    .(phase := Preparing(s.phase.done + 1))
  {
    PrepareReadsThePush(s);
  }

  lemma PrepareKeeps(c: Config, s: State, room: nat)
    requires Inv(c, s) && Enabled(c, s, PrepareOne(room))
    ensures Accounted(c, Next(c, s, PrepareOne(room)))
  {
    PrepareIsAdmit(c, s, room);
    var p, t := InOrder(s.pending)[s.phase.done], Next(c, s, PrepareOne(room));
    var e := EntryFor(s.pushes[p].kind, s.pushes[p].request, p);
    var b := if |s.sq| < c.sqCapacity then s else TakeMany(s, room);
    assert Inv(c, b) by { TakeManyKeeps(c, s, room); }
    AdmitOrDrop(c, s, e, room);
    AdmitKeeps(c, b, t, e, p);
  }

  // ----- reaping -----

  /** The block behind the unreleased completion of a request is the one that was pushed. */
  lemma ReapReadsThePush(c: Config, s: State, p: Ptr)
    requires Inv(c, s) && !s.phase.Idle? && !s.phase.Preparing? && s.phase.at < |s.cq|
    requires Carries(s.cq[s.phase.at].entry, p)
    ensures p < |s.pushes| && AddressIn(s.pushes, p) in s.heap && WellTagged(s.pushes[p])
    ensures s.heap[AddressIn(s.pushes, p)] == Block(p, s.pushes[p].kind, s.pushes[p].request)
    ensures p !in s.freed && Genuine(s.pushes, s.cq[s.phase.at].entry)
  {
    CurrentCompletion(c, s);
    AnsweredIsLive(s, 0, p);
    assert InPlace(s.heap, s.pushes, s.freed, p);
  }

  /** Reading the memory of a request as pushed gives the outcome owed to it, bytes aside. */
  lemma DispatchIsExpected(c: Config, pushes: seq<Push>, x: Cqe, p: Ptr, store: seq<Buffer>, w: seq<Byte>)
    requires p < |pushes| && WellTagged(pushes[p]) && |store| == c.Buffers()
    ensures var (o, g) := DispatchRequest(pushes[p].request, x, store);
            && Erase(o) == Erase(Expected(c, pushes, p, x, w))
            && g == FromTheRing(o)
            && (g ==> o == Notified(pushes[p].request.header.subscriber,
                             ReadEvent(pushes[p].request.fd, FromRing(Prefix(store[BufferId(x)], x.res)))))
            && (!g ==> o == Expected(c, pushes, p, x, w))
  {
    GetIgnoresTheFlag(x, |store|);
    assert KindOfTag(Tag(pushes[p].kind)) == Some(pushes[p].kind);
  }

  lemma OneMoreOutcome(c: Config, pushes: seq<Push>, posted: seq<Cqe>, wire: seq<seq<Byte>>,
                       outcomes: seq<Outcome>, o: Outcome)
    requires OutcomesOwed(c, pushes, posted, wire, outcomes) && |outcomes| < |posted|
    requires Owed(c, pushes, posted[|outcomes|], wire[|outcomes|], o)
    ensures OutcomesOwed(c, pushes, posted, wire, outcomes + [o])
  {
  }

  /** What dispatching does, if the memory it reads is there. */
  ghost predicate Dispatched(c: Config, s: State, t: State, o: Outcome, g: bool)
    requires s.phase.Reaping? && s.phase.at < |s.cq|
  {
    var x, i := s.cq[s.phase.at], |s.outcomes|;
    && t == s.(outcomes := s.outcomes + [o], phase := Handling(s.phase.at, g))
    && i < |s.posted| == |s.wire| && x == s.posted[i] && Owed(c, s.pushes, x, s.wire[i], o)
  }

  /** The dispatch of a request's completion. */
  lemma DispatchCases(c: Config, s: State, p: Ptr) returns (o: Outcome, g: bool)
    requires Inv(c, s) && Enabled(c, s, Dispatch) && Carries(s.cq[s.phase.at].entry, p)
    ensures Dispatched(c, s, Next(c, s, Dispatch), o, g)
  {
    CurrentCompletion(c, s);
    var x, i := s.cq[s.phase.at], |s.outcomes|;
    ReapReadsThePush(c, s, p);
    DispatchIsExpected(c, s.pushes, x, p, s.store, s.wire[i]);
    var (o', g') := DispatchRequest(s.pushes[p].request, x, s.store);
    o, g := o', g';
  }

  /** The dispatch of a cancel's completion owes nothing to anyone. */
  lemma CancelDispatchCases(c: Config, s: State) returns (o: Outcome, g: bool)
    requires Sound(c, s) && Enabled(c, s, Dispatch) && s.cq[s.phase.at].entry.op.CancelFd?
    requires !Next(c, s, Dispatch).faulted
    ensures Dispatched(c, s, Next(c, s, Dispatch), o, g)
  {
    CurrentCompletion(c, s);
    match s.cq[s.phase.at].entry.data
    case None =>
      o, g := LoopError(MalformedEntry), false;
    case Some(p) =>
      var (o', g') := DispatchRequest(s.heap[AddressIn(s.pushes, p)].content, s.cq[s.phase.at], s.store);
      o, g := o', g';
  }

  lemma DispatchRecords(c: Config, s: State, t: State, o: Outcome, g: bool)
    requires Recorded(c, s) && s.phase.Reaping? && s.phase.at < |s.cq|
    requires Dispatched(c, s, t, o, g)
    ensures Recorded(c, t)
  {
    OneMoreOutcome(c, s.pushes, s.posted, s.wire, s.outcomes, o);
  }

  lemma DispatchKeeps(c: Config, s: State, step: Step)
    requires Inv(c, s) && step.Dispatch? && Enabled(c, s, step)
    ensures Accounted(c, Next(c, s, step))
  {
    var t, e := Next(c, s, step), s.cq[s.phase.at].entry;
    CurrentCompletion(c, s);
    CensusFrame(s, t);
    if e.op.Op? {
      var o, g := DispatchCases(c, s, e.data.value);
      DispatchRecords(c, s, t, o, g);
    } else if !t.faulted {
      var o, g := CancelDispatchCases(c, s);
      DispatchRecords(c, s, t, o, g);
    }
  }

  lemma GiveBackKeeps(c: Config, s: State, step: Step)
    requires Inv(c, s) && step.GiveBack? && Enabled(c, s, step)
    ensures Accounted(c, Next(c, s, step))
  {
    CensusFrame(s, Next(c, s, step));
  }

  /** Releasing a request's completion frees the block pushed for it, as the type it was allocated with,
      and frees nothing when the request is multi-shot. */
  lemma ReleaseFreesThePush(c: Config, s: State, p: Ptr)
    requires Inv(c, s) && s.phase.Handled? && Carries(s.cq[s.phase.at].entry, p)
    ensures var t := ReleaseBlock(s, AddressIn(s.pushes, p));
            && p < |s.pushes| && p !in s.freed
            && t == if IsMultiShot(s.pushes[p].kind) then s
                    else s.(heap := s.heap - {s.pushes[p].addr}, freed := s.freed + [p])
  {
    ReapReadsThePush(c, s, p);
    ReleaseFrees(c, s, p);
  }

  lemma FreeingKeepsHeap(heap: map<nat, Block>, pushes: seq<Push>, freed: seq<Ptr>, p: Ptr)
    requires HeapIsExact(heap, pushes, freed) && p < |pushes| && p !in freed
    ensures HeapIsExact(heap - {pushes[p].addr}, pushes, freed + [p])
  {
    var heap', freed' := heap - {pushes[p].addr}, freed + [p];
    assert InPlace(heap, pushes, freed, p);
    forall q: Ptr | q < |pushes| ensures InPlace(heap', pushes, freed', q) {
      assert InPlace(heap, pushes, freed, q);
    }
    forall a: nat | a in heap' ensures Justified(heap', pushes, freed', a) {
      assert Justified(heap, pushes, freed, a);
    }
  }

  /** Releasing the completion `x` leaves the rest in its stage. */
  lemma ReleaseKeepsCensus(s: State, t: State, x: Cqe)
    requires OneStageEach(s) && s.phase.Handled? && s.phase.at < |s.cq| && x == s.cq[s.phase.at]
    requires x.entry.op.Op? ==> x.entry.data.Some?
    requires t == s.(heap := t.heap, phase := Reaping(s.phase.at + 1),
                     freed := if x.entry.op.Op? && !Recurs(x.entry) then s.freed + [x.entry.data.value] else s.freed)
    ensures OneStageEach(t)
  {
    assert Unreleased(s) == [x] + Unreleased(t);
    assert Waiting(t) == Waiting(s);
    forall q: Ptr ensures Stages(t, q) == Stages(s, q) {
      AnswersConcat([x], Unreleased(t), q);
    }
  }

  lemma ReleaseOfRequestKeeps(c: Config, s: State, step: Step, p: Ptr)
    requires Inv(c, s) && step.Release? && Enabled(c, s, step) && Carries(s.cq[s.phase.at].entry, p)
    ensures Accounted(c, Next(c, s, step))
  {
    var t := Next(c, s, step);
    ReapReadsThePush(c, s, p);
    ReleaseFreesThePush(c, s, p);
    ReleaseKeepsCensus(s, t, s.cq[s.phase.at]);
    if !IsMultiShot(s.pushes[p].kind) { FreeingKeepsHeap(s.heap, s.pushes, s.freed, p); }
  }

  /** The release of a cancel's completion either reads through null, or frees nothing, or frees the block
      that is at the inherited address now. */
  lemma ReleaseOfCancel(c: Config, s: State, step: Step)
    requires Sound(c, s) && step.Release? && Enabled(c, s, step) && s.cq[s.phase.at].entry.op.CancelFd?
    ensures var t, e := Next(c, s, step), s.cq[s.phase.at].entry;
            && (e.data.None? ==> t == s.(faulted := true))
            && (e.data.Some? && !CancelFrees(s, step) ==> t == s.(phase := Reaping(s.phase.at + 1)))
            && (CancelFrees(s, step) ==>
                  var a := AddressIn(s.pushes, e.data.value);
                  t == s.(phase := Reaping(s.phase.at + 1), heap := s.heap - {a},
                          freed := s.freed + [s.heap[a].birth]))
  {
    var e := s.cq[s.phase.at].entry;
    if e.data.Some? { ReleaseFrees(c, s, e.data.value); }
  }

  lemma ReleaseKeeps(c: Config, s: State, step: Step)
    requires Inv(c, s) && step.Release? && Enabled(c, s, step) && !CancelFrees(s, step)
    ensures Accounted(c, Next(c, s, step))
  {
    var t, x := Next(c, s, step), s.cq[s.phase.at];
    CurrentCompletion(c, s);
    if x.entry.op.Op? {
      ReleaseOfRequestKeeps(c, s, step, x.entry.data.value);
    } else {
      ReleaseOfCancel(c, s, step);
      if x.entry.data.Some? { ReleaseKeepsCensus(s, t, x); } else { CensusFrame(s, t); }
    }
  }

  lemma CancelKeepsLive(s: State, t: State, x: Cqe, q: Ptr)
    requires s.phase.Handled? && s.phase.at < |s.cq| && x == s.cq[s.phase.at] && x.entry.op.CancelFd?
    requires t == s.(heap := t.heap, phase := Reaping(s.phase.at + 1), freed := t.freed)
    ensures LiveStages(t, q) == LiveStages(s, q)
  {
    assert Unreleased(s) == [x] + Unreleased(t) && Waiting(t) == Waiting(s);
    AnswersConcat([x], Unreleased(t), q);
  }

  /** When the completion of a cancel frees a block, the request it was allocated for is still waiting,
      queued, in the kernel, answered but not released, or dropped. */
  lemma FreedWhileLive(c: Config, s: State, step: Step)
    requires Inv(c, s) && Enabled(c, s, step) && CancelFrees(s, step)
    ensures var q := s.heap[AddressIn(s.pushes, s.cq[s.phase.at].entry.data.value)].birth;
            var t := Next(c, s, step);
            && q < |s.pushes| && q !in s.freed && t.freed == s.freed + [q] && LiveStages(t, q) == 1
  {
    var a, t := AddressIn(s.pushes, s.cq[s.phase.at].entry.data.value), Next(c, s, step);
    ReleaseOfCancel(c, s, step);
    assert Justified(s.heap, s.pushes, s.freed, a);
    assert Stages(s, s.heap[a].birth) == 1;
    CancelKeepsLive(s, t, s.cq[s.phase.at], s.heap[a].birth);
  }

  lemma AdvanceKeeps(c: Config, s: State, step: Step)
    requires Inv(c, s) && step.AdvanceHead? && Enabled(c, s, step)
    ensures Accounted(c, Next(c, s, step))
  {
    CensusFrame(s, Next(c, s, step));
  }

  // ----- the kernel posts -----

  lemma PostKeepsCensus(c: Config, s: State, t: State, x: Cqe, bytes: seq<Byte>)
    requires OneStageEach(s) && Bounded(c, s) && Posts(s, t, x, bytes)
    ensures OneStageEach(t)
  {
    assert Unreleased(t) == Unreleased(s) + [x];
    assert Waiting(t) == Waiting(s);
    forall p: Ptr ensures Stages(t, p) == Stages(s, p) {
      AnswersConcat(Unreleased(s), [x], p);
    }
  }

  lemma PostKeepsRecords(c: Config, s: State, t: State, x: Cqe, bytes: seq<Byte>)
    requires Recorded(c, s) && Posts(s, t, x, bytes) && Genuine(s.pushes, x.entry)
    ensures Recorded(c, t)
  {
    forall i | 0 <= i < |t.outcomes| ensures Owed(c, t.pushes, t.posted[i], t.wire[i], t.outcomes[i]) {
      assert Owed(c, s.pushes, s.posted[i], s.wire[i], s.outcomes[i]);
    }
  }

  lemma AnswerIsGenuine(c: Config, s: State, step: Step)
    requires Recorded(c, s) && Posting(step) && Enabled(c, s, step)
    ensures Genuine(s.pushes, Answer(c, s, step).entry)
  {
    var e := Answer(c, s, step).entry;
    assert e in s.flying || e in s.armed;
  }

  lemma PostingKeeps(c: Config, s: State, step: Step)
    requires Inv(c, s) && Posting(step) && Enabled(c, s, step)
    ensures Accounted(c, Next(c, s, step))
  {
    var t, x, bytes := Next(c, s, step), Answer(c, s, step), BytesPosted(step);
    AnswerPosts(c, s, step);
    AnswerIsGenuine(c, s, step);
    PostKeepsCensus(c, s, t, x, bytes);
    PostKeepsRecords(c, s, t, x, bytes);
  }

  // ----- every step -----

  lemma StepKeepsAccounts(c: Config, s: State, step: Step)
    requires Inv(c, s) && Enabled(c, s, step) && !CancelFrees(s, step)
    ensures Accounted(c, Next(c, s, step))
  {
    match step
    case PushRequest(_, _, _, _, _) => PushKeeps(c, s, step);
    case Cancel(fd, room) => AdmitCancelKeeps(c, s, CancelEntry(fd, LeftInSlot(c, Sent(s))), room);
    case PrepareOne(room) => PrepareKeeps(c, s, room);
    case BeginPrepare => PhaseOnlyKeeps(c, s, step);
    case EndPrepare => PhaseOnlyKeeps(c, s, step);
    case BeginReap => PhaseOnlyKeeps(c, s, step);
    case EndVisit => PhaseOnlyKeeps(c, s, step);
    case Dispatch => DispatchKeeps(c, s, step);
    case GiveBack => GiveBackKeeps(c, s, step);
    case Release => ReleaseKeeps(c, s, step);
    case AdvanceHead => AdvanceKeeps(c, s, step);
    case KernelTake => TakeOneKeeps(c, s);
    case KernelComplete(_, _, _) => PostingKeeps(c, s, step);
    case KernelShot(_, _, _) => PostingKeeps(c, s, step);
    case KernelFill(_, _, _, _) => PostingKeeps(c, s, step);
  }

  /** What is known of requests is kept by a step exactly when it is no cancel's completion freeing a
      block. */
  lemma {:induction false} StepKeepsIff(c: Config, s: State, step: Step)
    requires Inv(c, s) && Enabled(c, s, step)
    ensures Inv(c, Next(c, s, step)) <==> !CancelFrees(s, step)
  {
    var t := Next(c, s, step);
    if CancelFrees(s, step) {
      FreedWhileLive(c, s, step);
      var q := s.heap[AddressIn(s.pushes, s.cq[s.phase.at].entry.data.value)].birth;
      assert Stages(t, q) == LiveStages(t, q) + multiset(t.freed)[q];
      assert q in t.freed;
    } else {
      StepIsSound(c, s, step);
      StepKeepsAccounts(c, s, step);
    }
  }
}
