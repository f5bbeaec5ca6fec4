/** Every step of the protocol, in every run, keeps pointers, blocks and histories sound. */
module Soundness {
  import opened Bits
  import opened CircularQueue
  import opened Requests
  import opened Batches
  import opened BufferRings
  import opened Protocol
  import opened Lifecycle

  // ----- pushing -----

  lemma PushKeepsHeapSound(heap: map<nat, Block>, pushes: seq<Push>, x: Push)
    requires HeapSound(heap, pushes) && x.addr !in heap
    ensures HeapSound(heap[x.addr := Block(|pushes|, x.kind, x.request)], pushes + [x])
  {
    var heap', pushes' := heap[x.addr := Block(|pushes|, x.kind, x.request)], pushes + [x];
    forall a: nat | a in heap' ensures BlockSound(heap', pushes', a) {
      if a != x.addr { assert BlockSound(heap, pushes, a); }
    }
    forall p: Ptr | p < |pushes'| ensures MultiInPlace(heap', pushes', p) {
      if p < |pushes| { assert MultiInPlace(heap, pushes, p); }
    }
  }

  lemma PushKeepsVectors(pushes: seq<Push>, v: Vectors<Ptr>, x: Push, v': Vectors<Ptr>)
    requires VectorsTyped(pushes, v) && v' == Append(v, x.kind, |pushes|)
    ensures VectorsTyped(pushes + [x], v')
  {
    forall k: Kind, p: Ptr | p in Of(v', k) ensures PushedAs(pushes + [x], p, k) {
      assert Of(v', k) == if k == x.kind then Of(v, k) + [|pushes|] else Of(v, k);
      assert p in Of(v, k) ==> PushedAs(pushes, p, k);
    }
  }

  lemma PointingGrows(pushes: seq<Push>, x: Push, es: seq<Sqe>)
    requires AllPointing(pushes, es)
    ensures AllPointing(pushes + [x], es)
  {
  }

  lemma AnswersPointingGrow(c: Config, pushes: seq<Push>, x: Push, posted: seq<Cqe>)
    requires AnswersPointing(c, pushes, posted)
    ensures AnswersPointing(c, pushes + [x], posted)
  {
  }

  lemma PushKeepsTyped(s: State, t: State, x: Push)
    requires Typed(s) && x.addr !in s.heap && WellTagged(x)
    requires t == s.(heap := s.heap[x.addr := Block(|s.pushes|, x.kind, x.request)],
                     pending := Append(s.pending, x.kind, |s.pushes|), pushes := s.pushes + [x])
    ensures Typed(t)
  {
    PushKeepsHeapSound(s.heap, s.pushes, x);
    PushKeepsVectors(s.pushes, s.pending, x, t.pending);
    PointingGrows(s.pushes, x, s.sq);
    PointingGrows(s.pushes, x, s.flying);
    PointingGrows(s.pushes, x, s.armed);
    PointingGrows(s.pushes, x, s.received);
  }

  /** The completion at hand is one of those posted. */
  lemma CurrentCompletion(c: Config, s: State)
    requires Bounded(c, s) && HistoryAligned(s) && AnswersPointing(c, s.pushes, s.posted)
    requires !s.phase.Idle? && !s.phase.Preparing? && s.phase.at < |s.cq|
    ensures var x, i := s.cq[s.phase.at], |s.posted| - |s.cq| + s.phase.at;
            && Unreleased(s) != [] && Unreleased(s)[0] == x
            && x == s.posted[i] && Pointing(s.pushes, x.entry) && Plausible(c, x)
  {
  }

  lemma PushSound(c: Config, s: State, step: Step)
    requires Sound(c, s) && step.PushRequest? && Enabled(c, s, step)
    ensures Sound(c, Next(c, s, step))
  {
    var r := AsAdded(step.kind, step.fd, step.length, step.subscriber);
    var x := Push(step.addr, step.kind, r);
    PushKeepsTyped(s, Next(c, s, step), x);
    AnswersPointingGrow(c, s.pushes, x, s.posted);
    if s.phase.Handling? || s.phase.Handled? { CurrentCompletion(c, s); }
  }

  // ----- submitting -----

  lemma TakeOneTyped(s: State)
    requires Typed(s) && s.sq != []
    ensures Typed(TakeOne(s))
  {
    assert s.sq[0] in s.sq;
  }

  /** Steps on the submission side only. */
  lemma SubmissionSound(c: Config, s: State, t: State)
    requires Sound(c, s) && Typed(t)
    requires t == s.(sq := t.sq, flying := t.flying, armed := t.armed, received := t.received)
    ensures Sound(c, t)
  {
  }

  lemma TakeOneSound(c: Config, s: State)
    requires Sound(c, s) && s.sq != []
    ensures Sound(c, TakeOne(s))
  {
    TakeOneTyped(s);
    SubmissionSound(c, s, TakeOne(s));
  }

  /** What one step of the kernel keeps, any number of them keeps. */
  lemma {:induction false} TakeManyKeepsAny(keep: State -> bool, s: State, m: nat)
    requires keep(s) && m <= |s.sq|
    requires forall t: State :: keep(t) && t.sq != [] ==> keep(TakeOne(t))
    ensures keep(TakeMany(s, m))
    decreases m
  {
    if m > 0 { TakeManyKeepsAny(keep, TakeOne(s), m - 1); }
  }

  lemma TakeManySound(c: Config, s: State, m: nat)
    requires Sound(c, s) && m <= |s.sq|
    ensures Sound(c, TakeMany(s, m))
  {
    forall t: State | Sound(c, t) && t.sq != [] ensures Sound(c, TakeOne(t)) { TakeOneSound(c, t); }
    TakeManyKeepsAny((t: State) => Sound(c, t), s, m);
  }

  lemma TakeOneMore(received: seq<Sqe>, sq: seq<Sqe>, m: nat)
    requires 0 < m <= |sq|
    ensures sq[1..][m - 1..] == sq[m..] && received + [sq[0]] + sq[1..][..m - 1] == received + sq[..m]
  {
  }

  lemma {:induction false} TakeManyFrame(s: State, m: nat)
    requires m <= |s.sq|
    ensures var t := TakeMany(s, m);
            t == s.(sq := s.sq[m..], flying := t.flying, armed := t.armed, received := s.received + s.sq[..m])
    decreases m
  {
    if m == 0 {
      assert s.received + s.sq[..0] == s.received;
    } else {
      TakeManyFrame(TakeOne(s), m - 1);
      TakeOneMore(s.received, s.sq, m);
    }
  }

  lemma QueueSound(c: Config, s: State, e: Sqe)
    requires Sound(c, s) && Pointing(s.pushes, e)
    ensures Sound(c, s.(sq := s.sq + [e]))
  {
  }

  /** Admitting an entry changes only the submission side. */
  lemma AdmitFrame(c: Config, s: State, e: Sqe, room: nat)
    requires room <= |s.sq|
    ensures var t := Admit(c, s, e, room);
            t == s.(sq := t.sq, flying := t.flying, armed := t.armed, received := t.received,
                    dropped := t.dropped)
  {
    TakeManyFrame(s, room);
  }

  lemma DropSound(c: Config, s: State, dropped: seq<Ptr>)
    requires Sound(c, s)
    ensures Sound(c, s.(dropped := dropped))
  {
  }

  /** An entry is queued, or there is no room for it, after the kernel has taken some if the queue was full. */
  lemma AdmitCases(c: Config, s: State, b: State, e: Sqe, room: nat)
    requires room <= |s.sq| && b == if |s.sq| < c.sqCapacity then s else TakeMany(s, room)
    ensures var t := Admit(c, s, e, room);
            && (t == b.(sq := b.sq + [e]) || t == b.(dropped := t.dropped))
            && b.pushes == s.pushes
  {
    TakeManyFrame(s, room);
  }

  lemma AdmitSound(c: Config, s: State, e: Sqe, room: nat)
    requires Sound(c, s) && Pointing(s.pushes, e) && room <= |s.sq|
    ensures Sound(c, Admit(c, s, e, room))
  {
    var b := if |s.sq| < c.sqCapacity then s else TakeMany(s, room);
    AdmitCases(c, s, b, e, room);
    assert Sound(c, b) by { TakeManySound(c, s, room); }
    QueueSound(c, b, e);
    DropSound(c, b, Admit(c, s, e, room).dropped);
  }

  /** What is left in a slot points to some push. */
  lemma LeftIsPushed(c: Config, s: State, fd: int)
    requires AllPointing(s.pushes, s.received) && AllPointing(s.pushes, s.sq)
    ensures Pointing(s.pushes, CancelEntry(fd, LeftInSlot(c, Sent(s))))
  {
    if 0 < c.sqCapacity <= |Sent(s)| {
      var e := Sent(s)[|Sent(s)| - c.sqCapacity];
      assert e in s.received || e in s.sq;
      assert Pointing(s.pushes, e);
    }
  }

  lemma CancelSound(c: Config, s: State, step: Step)
    requires Sound(c, s) && step.Cancel? && Enabled(c, s, step)
    ensures Sound(c, Next(c, s, step))
  {
    LeftIsPushed(c, s, step.fd);
    AdmitSound(c, s, CancelEntry(step.fd, LeftInSlot(c, Sent(s))), step.room);
  }

  // ----- preparing -----

  lemma NoVectors(pushes: seq<Push>, v: Vectors<Ptr>)
    requires v == Empty()
    ensures VectorsTyped(pushes, v)
  {
    forall k: Kind ensures Of(v, k) == [] {}
  }

  lemma KindAtSelects(v: Vectors<Ptr>, i: nat)
    requires i < |InOrder(v)|
    ensures InOrder(v)[i] in Of(v, KindAt(v, i))
  {
  }

  /** The request visited next was pushed, as the type of its vector. */
  lemma VisitedWasPushed(s: State)
    requires s.phase.Preparing? && s.phase.done < |InOrder(s.pending)| && VectorsTyped(s.pushes, s.pending)
    ensures PushedAs(s.pushes, InOrder(s.pending)[s.phase.done], KindAt(s.pending, s.phase.done))
  {
    KindAtSelects(s.pending, s.phase.done);
  }

  lemma AdvancedSound(c: Config, s: State, done: nat)
    requires Sound(c, s) && s.phase.Preparing? && done <= |InOrder(s.pending)|
    ensures Sound(c, s.(phase := Preparing(done)))
  {
  }

  lemma PrepareSound(c: Config, s: State, step: Step)
    requires Sound(c, s) && step.PrepareOne? && Enabled(c, s, step)
    ensures Sound(c, Next(c, s, step))
  {
    var i := s.phase.done;
    var p := InOrder(s.pending)[i];
    VisitedWasPushed(s);
    if AddressIn(s.pushes, p) in s.heap {
      var e := EntryFor(KindAt(s.pending, i), s.heap[AddressIn(s.pushes, p)].content, p);
      AdmitSound(c, s, e, step.room);
      AdmitFrame(c, s, e, step.room);
      AdvancedSound(c, Admit(c, s, e, step.room), i + 1);
    }
  }

  lemma PhaseSound(c: Config, s: State, step: Step)
    requires Sound(c, s) && Enabled(c, s, step)
    requires step.BeginPrepare? || step.EndPrepare? || step.BeginReap? || step.EndVisit?
    ensures Sound(c, Next(c, s, step))
  {
    NoVectors(s.pushes, Empty());
  }

  // ----- reaping -----

  /** The buffer is given back after exactly the read events from the ring; it exists, and the event has its
      bytes. */
  lemma DispatchReturns(r: Request, x: Cqe, store: seq<Buffer>)
    ensures var (o, g) := DispatchRequest(r, x, store);
            && g == FromTheRing(o)
            && (g ==> BufferId(x) < |store| && o.event.data.bytes == Prefix(store[BufferId(x)], x.res))
  {
    GetIgnoresTheFlag(x, |store|);
  }

  /** The outcome of reading a request of type `k`, by type: one notification of its subscriber. A null
      subscriber, or flags that name no buffer, are errors of the loop. */
  lemma NotifiesByKind(r: Request, k: Kind, x: Cqe, store: seq<Buffer>)
    requires r.header.IsValid() && KindOfTag(r.header.op) == Some(k)
    ensures var (sub, id, o) := (r.header.subscriber, BufferId(x), DispatchRequest(r, x, store).0);
            if sub == 0 then o == LoopError(NoSubscriber)
            else if x.res < 0 then o == Notified(sub, ErrorEvent(-x.res))
            else
              match k
              case Accept => o == Notified(sub, AcceptEvent(x.res))
              case Connect => o == Notified(sub, ConnectEvent)
              case Read => o == Notified(sub, ReadEvent(r.fd, FromCaller(x.res)))
              case MultiRead =>
                o == if id < |store| then Notified(sub, ReadEvent(r.fd, FromRing(Prefix(store[id], x.res))))
                     else LoopError(InvalidBufferId)
              case Write => o == Notified(sub, WriteEvent(x.res, r.length))
  {
    GetIgnoresTheFlag(x, |store|);
  }

  lemma DispatchSound(c: Config, s: State, step: Step)
    requires Sound(c, s) && step.Dispatch? && Enabled(c, s, step)
    ensures Sound(c, Next(c, s, step))
  {
    var x := s.cq[s.phase.at];
    if x.entry.data.Some? {
      var addr := AddressIn(s.pushes, x.entry.data.value);
      if addr in s.heap { DispatchReturns(s.heap[addr].content, x, s.store); }
    }
  }

  lemma HandledSound(c: Config, s: State, ring: Ring<nat>)
    requires Sound(c, s) && s.phase.Handling? && |ring.slots| == |s.ring.slots|
    ensures Sound(c, s.(phase := Handled(s.phase.at), ring := ring))
  {
  }

  lemma GiveBackSound(c: Config, s: State, step: Step)
    requires Sound(c, s) && step.GiveBack? && Enabled(c, s, step)
    ensures Sound(c, Next(c, s, step))
  {
    HandledSound(c, s, ReturnBuffer(c, s.ring, BufferId(s.cq[s.phase.at])));
    HandledSound(c, s, s.ring);
  }

  /** The block named by the completion being released, and what is freed: the block, by its own type,
      if single-shot. */
  lemma ReleaseFrees(c: Config, s: State, p: Ptr)
    requires Sound(c, s) && s.phase.Handled? && s.cq[s.phase.at].entry.data == Some(p)
    ensures var a := AddressIn(s.pushes, p);
            && p < |s.pushes| && a in s.heap && BlockSound(s.heap, s.pushes, a)
            && ReleaseBlock(s, a) == if IsMultiShot(s.heap[a].kind) then s
                                     else s.(heap := s.heap - {a}, freed := s.freed + [s.heap[a].birth])
  {
    var a := AddressIn(s.pushes, p);
    CurrentCompletion(c, s);
    assert BlockSound(s.heap, s.pushes, a);
    assert WellTagged(s.pushes[s.heap[a].birth]);
    assert KindOfTag(Tag(s.heap[a].kind)) == Some(s.heap[a].kind);
  }

  lemma FreeKeepsHeapSound(heap: map<nat, Block>, pushes: seq<Push>, a: nat)
    requires HeapSound(heap, pushes) && a in heap && !IsMultiShot(heap[a].kind)
    ensures HeapSound(heap - {a}, pushes)
  {
    assert BlockSound(heap, pushes, a);
    forall b: nat | b in heap - {a} ensures BlockSound(heap - {a}, pushes, b) {
      assert BlockSound(heap, pushes, b);
    }
    forall p: Ptr | p < |pushes| ensures MultiInPlace(heap - {a}, pushes, p) {
      assert MultiInPlace(heap, pushes, p);
    }
  }

  lemma FreeKeepsTyped(s: State, a: nat)
    requires Typed(s) && a in s.heap && !IsMultiShot(s.heap[a].kind)
    ensures Typed(s.(heap := s.heap - {a}, freed := s.freed + [s.heap[a].birth]))
  {
    FreeKeepsHeapSound(s.heap, s.pushes, a);
    assert BlockSound(s.heap, s.pushes, a);
  }

  lemma ReleasedSound(c: Config, s: State, heap: map<nat, Block>, freed: seq<Ptr>)
    requires Sound(c, s) && s.phase.Handled? && Typed(s.(heap := heap, freed := freed))
    ensures Sound(c, s.(heap := heap, freed := freed, phase := Reaping(s.phase.at + 1)))
  {
  }

  lemma ReleaseSound(c: Config, s: State, step: Step)
    requires Sound(c, s) && step.Release? && Enabled(c, s, step)
    ensures Sound(c, Next(c, s, step))
  {
    var x := s.cq[s.phase.at];
    if x.entry.data.Some? {
      var a := AddressIn(s.pushes, x.entry.data.value);
      ReleaseFrees(c, s, x.entry.data.value);
      if IsMultiShot(s.heap[a].kind) {
        ReleasedSound(c, s, s.heap, s.freed);
      } else {
        FreeKeepsTyped(s, a);
        ReleasedSound(c, s, s.heap - {a}, s.freed + [s.heap[a].birth]);
      }
    }
  }

  lemma AdvanceSound(c: Config, s: State, step: Step)
    requires Sound(c, s) && step.AdvanceHead? && Enabled(c, s, step)
    ensures Sound(c, Next(c, s, step))
  {
  }

  // ----- the kernel posts -----

  ghost predicate Posts(s: State, t: State, x: Cqe, bytes: seq<Byte>) {
    && t == Post(s.(flying := t.flying, ring := t.ring, store := t.store), x, bytes)
    && |t.store| == |s.store| && |t.ring.slots| == |s.ring.slots|
    && (forall e :: e in t.flying ==> e in s.flying)
    && (forall p: Ptr :: Owners(s.flying, p)
          == Owners(t.flying, p) + if Carries(x.entry, p) && !Recurs(x.entry) then 1 else 0)
  }

  lemma PostKeepsHistory(c: Config, s: State, t: State, x: Cqe, bytes: seq<Byte>)
    requires Bounded(c, s) && HistoryAligned(s) && Posts(s, t, x, bytes)
    ensures HistoryAligned(t)
  {
    assert t.posted[|t.posted| - |t.cq|..] == s.posted[|s.posted| - |s.cq|..] + [x];
  }

  lemma PostSound(c: Config, s: State, t: State, x: Cqe, bytes: seq<Byte>)
    requires Sound(c, s) && |s.cq| < c.cqCapacity && Posts(s, t, x, bytes)
    requires Pointing(s.pushes, x.entry) && Plausible(c, x)
    ensures Sound(c, t)
  {
    PostKeepsHistory(c, s, t, x, bytes);
  }

  lemma OwnersRemove(es: seq<Sqe>, i: nat, p: Ptr)
    requires i < |es|
    ensures Owners(es, p) == Owners(es[..i] + es[i + 1..], p) + if Carries(es[i], p) then 1 else 0
  {
    assert es == es[..i] + [es[i]] + es[i + 1..];
    OwnersConcat(es[..i], [es[i]], p);
    OwnersConcat(es[..i] + [es[i]], es[i + 1..], p);
    OwnersConcat(es[..i], es[i + 1..], p);
  }

  /** The flags the kernel builds carry the id and the buffer flag. */
  lemma FlagOf(id: nat, low: nat)
    requires low < BUFFER_SHIFT && And(low, F_BUFFER) != 0
    ensures And(id * BUFFER_SHIFT + low, F_BUFFER) != 0
    ensures (id * BUFFER_SHIFT + low) / BUFFER_SHIFT == id
  {
    AndOne(low);
    AndOne(id * BUFFER_SHIFT + low);
  }

  ghost predicate Posting(step: Step) {
    step.KernelComplete? || step.KernelShot? || step.KernelFill?
  }

  /** The completion that a posting step adds. */
  ghost function Answer(c: Config, s: State, step: Step): Cqe
    requires Posting(step) && Enabled(c, s, step)
  {
    match step
    case KernelComplete(i, res, flags) => Cqe(s.flying[i], res, flags)
    case KernelShot(i, res, flags) => Cqe(s.armed[i], res, flags)
    case KernelFill(i, res, bytes, low) =>
      Cqe(s.armed[i], res, s.ring.slots[Slot(s.ring.head, c.k)] * BUFFER_SHIFT + low)
  }

  /** The bytes it writes. */
  ghost function BytesPosted(step: Step): seq<Byte> {
    if step.KernelFill? then step.bytes else []
  }

  lemma FillIsPlausible(c: Config, s: State, step: Step)
    requires step.KernelFill? && Enabled(c, s, step)
    ensures Plausible(c, Answer(c, s, step))
  {
    FlagOf(s.ring.slots[Slot(s.ring.head, c.k)], step.low);
  }

  lemma AnswerIsPlausible(c: Config, s: State, step: Step)
    requires Sound(c, s) && Posting(step) && Enabled(c, s, step)
    ensures Pointing(s.pushes, Answer(c, s, step).entry) && Plausible(c, Answer(c, s, step))
  {
    var e := Answer(c, s, step).entry;
    assert e in s.flying || e in s.armed;
    if step.KernelFill? { FillIsPlausible(c, s, step); }
  }

  lemma CompletePosts(c: Config, s: State, step: Step)
    requires Sorted(s.flying, s.armed) && step.KernelComplete? && Enabled(c, s, step)
    ensures Posts(s, Next(c, s, step), Answer(c, s, step), BytesPosted(step))
  {
    forall p: Ptr { OwnersRemove(s.flying, step.i, p); }
    assert s.flying[step.i] in s.flying;
  }

  lemma ShotPosts(c: Config, s: State, step: Step)
    requires Sorted(s.flying, s.armed) && (step.KernelShot? || step.KernelFill?) && Enabled(c, s, step)
    ensures Posts(s, Next(c, s, step), Answer(c, s, step), BytesPosted(step))
  {
    assert s.armed[step.i] in s.armed;
  }

  lemma AnswerPosts(c: Config, s: State, step: Step)
    requires Sound(c, s) && Posting(step) && Enabled(c, s, step)
    ensures Posts(s, Next(c, s, step), Answer(c, s, step), BytesPosted(step))
  {
    if step.KernelComplete? { CompletePosts(c, s, step); } else { ShotPosts(c, s, step); }
  }

  lemma PostingSound(c: Config, s: State, step: Step)
    requires Sound(c, s) && Posting(step) && Enabled(c, s, step)
    ensures Sound(c, Next(c, s, step))
  {
    AnswerIsPlausible(c, s, step);
    AnswerPosts(c, s, step);
    PostSound(c, s, Next(c, s, step), Answer(c, s, step), BytesPosted(step));
  }

  // ----- every step -----

  lemma {:induction false} StepIsSound(c: Config, s: State, step: Step)
    requires Sound(c, s) && Enabled(c, s, step)
    ensures Sound(c, Next(c, s, step))
  {
    match step
    case PushRequest(_, _, _, _, _) => PushSound(c, s, step);
    case Cancel(_, _) => CancelSound(c, s, step);
    case PrepareOne(_) => PrepareSound(c, s, step);
    case BeginPrepare => PhaseSound(c, s, step);
    case EndPrepare => PhaseSound(c, s, step);
    case BeginReap => PhaseSound(c, s, step);
    case EndVisit => PhaseSound(c, s, step);
    case Dispatch => DispatchSound(c, s, step);
    case GiveBack => GiveBackSound(c, s, step);
    case Release => ReleaseSound(c, s, step);
    case AdvanceHead => AdvanceSound(c, s, step);
    case KernelTake => TakeOneSound(c, s);
    case KernelComplete(_, _, _) => PostingSound(c, s, step);
    case KernelShot(_, _, _) => PostingSound(c, s, step);
    case KernelFill(_, _, _, _) => PostingSound(c, s, step);
  }

  lemma NothingIsTyped(s: State)
    requires s.heap == map[] && s.pushes == [] && s.pending == Empty() && s.freed == []
    requires s.sq == s.flying == s.armed == s.received == []
    ensures Typed(s)
  {
    NoVectors(s.pushes, s.pending);
  }

  lemma NothingIsRecorded(c: Config, s: State)
    requires s.posted == [] && s.cq == [] && s.wire == [] && s.outcomes == [] && s.phase.Idle?
    ensures AnswersPointing(c, s.pushes, s.posted) && HistoryAligned(s)
  {
  }

  lemma NothingIsSound(c: Config, s: State)
    requires c.IsValid() && |s.store| == c.Buffers() == |s.ring.slots| && s.phase == Idle
    requires s.heap == map[] && s.pushes == [] && s.pending == Empty() && s.freed == []
    requires s.sq == s.flying == s.armed == s.received == []
    requires s.posted == [] && s.cq == [] && s.wire == [] && s.outcomes == []
    ensures Sound(c, s)
  {
    NothingIsTyped(s);
    NothingIsRecorded(c, s);
  }

  lemma InitIsSound(c: Config, s: State)
    requires c.IsValid() && Init(c, s)
    ensures Sound(c, s)
  {
    NothingIsSound(c, s);
  }
}
