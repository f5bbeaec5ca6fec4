/** What the protocol keeps. `Sound` is kept by every step. `Inv`, which says more about requests, is
    kept until the completion of a cancel frees a block. */
module Lifecycle {
  import opened Requests
  import opened Batches
  import opened BufferRings
  import opened Protocol

  // ----- the census of allocations -----

  /** How many entries were filled for the request `p`. */
  ghost function Owners(es: seq<Sqe>, p: Ptr): nat {
    if es == [] then 0 else (if Carries(es[0], p) then 1 else 0) + Owners(es[1..], p)
  }

  /** How many completions answer the single-shot request `p`. */
  ghost function Answers(xs: seq<Cqe>, p: Ptr): nat {
    if xs == [] then 0
    else (if Carries(xs[0].entry, p) && !Recurs(xs[0].entry) then 1 else 0) + Answers(xs[1..], p)
  }

  /** Requests pushed and not yet visited by a batch. */
  ghost function Waiting(s: State): seq<Ptr> {
    var all := InOrder(s.pending);
    if s.phase.Preparing? && s.phase.done <= |all| then all[s.phase.done..] else all
  }

  /** How many completions in the queue have been released. */
  ghost function Released(s: State): nat {
    if s.phase.Idle? || s.phase.Preparing? then 0 else s.phase.at
  }

  ghost function Unreleased(s: State): seq<Cqe> {
    if Released(s) <= |s.cq| then s.cq[Released(s)..] else []
  }

  /** In how many stages the allocation `p` is: waiting, queued, in the kernel (single-shot, or
      multi-shot for good), answered but not released, dropped. */
  ghost function LiveStages(s: State, p: Ptr): nat {
    multiset(Waiting(s))[p] + Owners(s.sq, p) + Owners(s.flying, p) + Owners(s.armed, p)
    + Answers(Unreleased(s), p) + multiset(s.dropped)[p]
  }

  /** These, and freed. */
  ghost function Stages(s: State, p: Ptr): nat {
    LiveStages(s, p) + multiset(s.freed)[p]
  }

  /** Each allocation ever made is in exactly one stage, once. */
  ghost predicate OneStageEach(s: State) {
    forall p: Ptr :: Stages(s, p) == if p < |s.pushes| then 1 else 0
  }

  // ----- every pointer refers to some push, every block to the push it came from -----

  /** A push at a proper address, of a request carrying the magic value and the tag of its type. */
  ghost predicate WellTagged(push: Push) {
    && push.addr != 0
    && push.request == AsAdded(push.kind, push.request.fd, push.request.length, push.request.header.subscriber)
  }

  ghost predicate AllTagged(pushes: seq<Push>) {
    forall i :: 0 <= i < |pushes| ==> WellTagged(pushes[i])
  }

  ghost predicate PushedAs(pushes: seq<Push>, p: Ptr, k: Kind) {
    p < |pushes| && pushes[p].kind == k
  }

  /** Each vector holds pointers to requests of its own type. */
  ghost predicate VectorsTyped(pushes: seq<Push>, v: Vectors<Ptr>) {
    forall k: Kind, p: Ptr :: p in Of(v, k) ==> PushedAs(pushes, p, k)
  }

  /** The block at `a` is as it was pushed there. */
  ghost predicate BlockSound(heap: map<nat, Block>, pushes: seq<Push>, a: nat)
    requires a in heap
  {
    var b := heap[a];
    && b.birth < |pushes| && pushes[b.birth].addr == a
    && b == Block(b.birth, pushes[b.birth].kind, pushes[b.birth].request)
  }

  /** Multi-shot requests are never freed. */
  ghost predicate MultiInPlace(heap: map<nat, Block>, pushes: seq<Push>, p: Ptr)
    requires p < |pushes|
  {
    IsMultiShot(pushes[p].kind) ==> pushes[p].addr in heap && heap[pushes[p].addr].birth == p
  }

  ghost predicate HeapSound(heap: map<nat, Block>, pushes: seq<Push>) {
    && (forall a: nat :: a in heap ==> BlockSound(heap, pushes, a))
    && (forall p: Ptr :: p < |pushes| ==> MultiInPlace(heap, pushes, p))
  }

  /** A request's entry points to a push of its own type; a cancel's to any push, or to none. */
  ghost predicate Pointing(pushes: seq<Push>, e: Sqe) {
    match e.op
    case Op(k) => e.data.Some? && PushedAs(pushes, e.data.value, k)
    case CancelFd => e == CancelEntry(e.fd, e.data) && (e.data.Some? ==> e.data.value < |pushes|)
  }

  ghost predicate AllPointing(pushes: seq<Push>, es: seq<Sqe>) {
    forall e :: e in es ==> Pointing(pushes, e)
  }

  ghost predicate Sorted(flying: seq<Sqe>, armed: seq<Sqe>) {
    (forall e :: e in flying ==> !Recurs(e)) && (forall e :: e in armed ==> Recurs(e))
  }

  ghost predicate FreedOnce(pushes: seq<Push>, freed: seq<Ptr>) {
    forall p: Ptr :: p in freed ==> p < |pushes| && !IsMultiShot(pushes[p].kind)
  }

  ghost predicate Typed(s: State) {
    && AllTagged(s.pushes) && VectorsTyped(s.pushes, s.pending) && HeapSound(s.heap, s.pushes)
    && AllPointing(s.pushes, s.sq) && AllPointing(s.pushes, s.flying) && AllPointing(s.pushes, s.armed)
    && AllPointing(s.pushes, s.received) && Sorted(s.flying, s.armed) && FreedOnce(s.pushes, s.freed)
  }

  // ----- bounds and histories -----

  ghost predicate Bounded(c: Config, s: State) {
    && (s.phase.Preparing? ==> s.phase.done <= |InOrder(s.pending)|)
    && Released(s) <= |s.cq| <= c.cqCapacity
    && (s.phase.Handling? || s.phase.Handled? ==> s.phase.at < |s.cq|)
    && |s.store| == c.Buffers() == |s.ring.slots|
  }

  /** What the kernel may answer to an entry. */
  ghost predicate Plausible(c: Config, x: Cqe) {
    && (x.entry.op == Op(Read) || x.entry.op == Op(Write) ==> x.res <= x.entry.length)
    && (x.entry.op == Op(MultiRead) ==> x.res <= c.bufferSize && (x.res > 0 ==> HasBuffer(x)))
    && (HasBuffer(x) ==> x.entry.op == Op(MultiRead))
  }

  ghost predicate AnswersPointing(c: Config, pushes: seq<Push>, posted: seq<Cqe>) {
    forall i :: 0 <= i < |posted| ==> Pointing(pushes, posted[i].entry) && Plausible(c, posted[i])
  }

  /** How many completions have been dispatched since the start. */
  ghost function Visited(s: State): int {
    |s.posted| - |s.cq| + Released(s) + (if s.phase.Handling? || s.phase.Handled? then 1 else 0)
  }

  ghost predicate HistoryAligned(s: State) {
    && |s.wire| == |s.posted| && |s.cq| <= |s.posted|
    && s.cq == s.posted[|s.posted| - |s.cq|..]
    && |s.outcomes| == Visited(s) <= |s.posted|
  }

  /** While a completion is handled, the block it names is there. */
  ghost predicate LookedUp(s: State) {
    (s.phase.Handling? || s.phase.Handled?) && s.phase.at < |s.cq| && s.cq[s.phase.at].entry.data.Some? ==>
      AddressIn(s.pushes, s.cq[s.phase.at].entry.data.value) in s.heap
  }

  /** A buffer is given back after exactly the read events from the ring. */
  ghost predicate ReturnRecorded(c: Config, s: State) {
    s.phase.Handling? ==>
      && |s.outcomes| > 0 && s.phase.giveBack == FromTheRing(s.outcomes[|s.outcomes| - 1])
      && (s.phase.giveBack ==> s.phase.at < |s.cq| && BufferId(s.cq[s.phase.at]) < c.Buffers())
  }

  ghost predicate Sound(c: Config, s: State) {
    && c.IsValid() && Typed(s) && Bounded(c, s) && AnswersPointing(c, s.pushes, s.posted)
    && HistoryAligned(s) && LookedUp(s) && ReturnRecorded(c, s)
  }

  // ----- requests, until a cancel frees a block -----

  /** The allocation `p`, unless freed, is at its address and holds what was pushed. */
  ghost predicate InPlace(heap: map<nat, Block>, pushes: seq<Push>, freed: seq<Ptr>, p: Ptr)
    requires p < |pushes|
  {
    p !in freed ==>
      && pushes[p].addr in heap
      && heap[pushes[p].addr] == Block(p, pushes[p].kind, pushes[p].request)
  }

  /** The block at `a` belongs to an allocation made there and not freed. */
  ghost predicate Justified(heap: map<nat, Block>, pushes: seq<Push>, freed: seq<Ptr>, a: nat)
    requires a in heap
  {
    heap[a].birth < |pushes| && pushes[heap[a].birth].addr == a && heap[a].birth !in freed
  }

  /** The live blocks are exactly the allocations not freed. */
  ghost predicate HeapIsExact(heap: map<nat, Block>, pushes: seq<Push>, freed: seq<Ptr>) {
    && (forall p: Ptr :: p < |pushes| ==> InPlace(heap, pushes, freed, p))
    && (forall a: nat :: a in heap ==> Justified(heap, pushes, freed, a))
  }

  /** A request's entry was filled from the request as it was pushed. */
  ghost predicate Genuine(pushes: seq<Push>, e: Sqe) {
    e.op.Op? ==>
      && e.data.Some? && e.data.value < |pushes|
      && e == EntryFor(pushes[e.data.value].kind, pushes[e.data.value].request, e.data.value)
  }

  ghost predicate AllGenuine(pushes: seq<Push>, es: seq<Sqe>) {
    forall e :: e in es ==> Genuine(pushes, e)
  }

  ghost predicate AnswersGenuine(pushes: seq<Push>, posted: seq<Cqe>) {
    forall i :: 0 <= i < |posted| ==> Genuine(pushes, posted[i].entry)
  }

  ghost predicate Owed(c: Config, pushes: seq<Push>, x: Cqe, w: seq<Byte>, o: Outcome) {
    x.entry.op.Op? ==>
      && Genuine(pushes, x.entry) && Erase(o) == Erase(Expected(c, pushes, x.entry.data.value, x, w))
  }

  /** Bytes aside, every outcome so far of a request is the one owed to it as it was pushed. */
  ghost predicate OutcomesOwed(c: Config, pushes: seq<Push>, posted: seq<Cqe>, wire: seq<seq<Byte>>,
                               outcomes: seq<Outcome>)
  {
    && |outcomes| <= |posted| == |wire|
    && forall i :: 0 <= i < |outcomes| ==> Owed(c, pushes, posted[i], wire[i], outcomes[i])
  }

  /** Only reading the memory that the completion of a cancel names can have faulted. */
  ghost predicate FaultIsCancel(s: State) {
    s.faulted ==>
      && (s.phase.Reaping? || s.phase.Handled?) && s.phase.at < |s.cq|
      && s.cq[s.phase.at].entry.op.CancelFd?
  }

  ghost predicate Recorded(c: Config, s: State) {
    && AllGenuine(s.pushes, s.sq) && AllGenuine(s.pushes, s.flying) && AllGenuine(s.pushes, s.armed)
    && AnswersGenuine(s.pushes, s.posted)
    && OutcomesOwed(c, s.pushes, s.posted, s.wire, s.outcomes)
  }

  /** What is known of requests, beyond soundness. */
  ghost predicate Accounted(c: Config, s: State) {
    OneStageEach(s) && HeapIsExact(s.heap, s.pushes, s.freed) && Recorded(c, s) && FaultIsCancel(s)
  }

  ghost predicate Inv(c: Config, s: State) {
    Sound(c, s) && Accounted(c, s)
  }

  /** The release of a cancel's completion whose user data, left in its slot by an older request, is the
      address of a single-shot block: that block is freed. */
  ghost predicate CancelFrees(s: State, step: Step) {
    && step.Release? && s.phase.Handled? && s.phase.at < |s.cq|
    && s.cq[s.phase.at].entry.op.CancelFd? && s.cq[s.phase.at].entry.data.Some?
    && var a := AddressIn(s.pushes, s.cq[s.phase.at].entry.data.value);
       a in s.heap && !IsMultiShot(s.heap[a].kind)
  }

  // ----- lemmas about the census -----

  lemma {:induction false} OwnersConcat(a: seq<Sqe>, b: seq<Sqe>, p: Ptr)
    ensures Owners(a + b, p) == Owners(a, p) + Owners(b, p)
  {
    if a == [] {
      assert a + b == b;
    } else {
      assert (a + b)[1..] == a[1..] + b;
      OwnersConcat(a[1..], b, p);
    }
  }

  lemma {:induction false} AnswersConcat(a: seq<Cqe>, b: seq<Cqe>, p: Ptr)
    ensures Answers(a + b, p) == Answers(a, p) + Answers(b, p)
  {
    if a == [] {
      assert a + b == b;
    } else {
      assert (a + b)[1..] == a[1..] + b;
      AnswersConcat(a[1..], b, p);
    }
  }

  lemma {:induction false} AnswersSuffix(xs: seq<Cqe>, j: nat, p: Ptr)
    requires j < |xs| && Carries(xs[j].entry, p) && !Recurs(xs[j].entry)
    ensures Answers(xs, p) >= 1
  {
    if j > 0 { AnswersSuffix(xs[1..], j - 1, p); }
  }

  /** A waiting request has not been freed. */
  lemma WaitingIsLive(s: State, p: Ptr)
    requires OneStageEach(s) && p in Waiting(s)
    ensures p < |s.pushes| && p !in s.freed
  {
    assert Stages(s, p) <= 1;
    assert multiset(Waiting(s))[p] >= 1;
    assert p in s.freed ==> multiset(s.freed)[p] >= 1;
  }

  /** A request with a completion of its own that is unreleased has not been freed. */
  lemma AnsweredIsLive(s: State, j: nat, p: Ptr)
    requires OneStageEach(s) && FreedOnce(s.pushes, s.freed) && j < |Unreleased(s)|
    requires Carries(Unreleased(s)[j].entry, p) && Pointing(s.pushes, Unreleased(s)[j].entry)
    ensures p !in s.freed
  {
    if !Recurs(Unreleased(s)[j].entry) {
      AnswersSuffix(Unreleased(s), j, p);
      assert Stages(s, p) <= 1;
      assert p in s.freed ==> multiset(s.freed)[p] >= 1;
    }
  }
}
