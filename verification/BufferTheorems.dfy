/** Provided buffers over every run: when each buffer id is in exactly one place, and when the bytes
    handed to subscribers are the bytes the kernel wrote. */
module BufferTheorems {
  import opened Bits
  import opened CircularQueue
  import opened Requests
  import opened BufferRings
  import opened Protocol
  import opened Lifecycle
  import opened Soundness
  import opened LifecycleSteps
  import opened Runs
  import opened RequestTheorems

  // ----- where buffers are -----

  ghost predicate RingSound(c: Config, s: State) {
    && Valid(s.ring, c.k, COUNTER_BITS)
    && (forall i :: 0 <= i < |s.ring.slots| ==> s.ring.slots[i] < c.Buffers())
    && (forall i :: 0 <= i < |s.store| ==> |s.store[i]| == c.bufferSize)
  }

  /** The ids in the ring that the kernel may still take, oldest first. */
  ghost function Offered(c: Config, s: State): seq<nat> {
    if Valid(s.ring, c.k, COUNTER_BITS) then Window(s.ring, c.k, COUNTER_BITS) else []
  }

  /** How many completions in the queue have had their buffer returned. */
  ghost function Returned(s: State): nat {
    if s.phase.Idle? || s.phase.Preparing? then 0
    else if s.phase.Handled? then s.phase.at + 1 else s.phase.at
  }

  ghost function Held(s: State): seq<Cqe> {
    if Returned(s) <= |s.cq| then s.cq[Returned(s)..] else []
  }

  /** The ids attached to completions, in order. */
  ghost function Lent(xs: seq<Cqe>): seq<nat> {
    if xs == [] then []
    else Lent(xs[..|xs| - 1]) + (if HasBuffer(xs[|xs| - 1]) then [BufferId(xs[|xs| - 1])] else [])
  }

  /** Each id is once either in the ring or attached to a completion that is unprocessed or whose
      handler is running. */
  ghost predicate Conserved(c: Config, s: State) {
    multiset(Offered(c, s)) + multiset(Lent(Held(s))) == multiset(Iota(c.Buffers()))
  }

  /** No id is in two of these places; some may be in none. */
  ghost predicate NoneTwice(c: Config, s: State) {
    multiset(Offered(c, s)) + multiset(Lent(Held(s))) <= multiset(Iota(c.Buffers()))
  }

  /** The completions whose buffer has been dealt with since the start. */
  ghost function GivenBack(s: State): int {
    |s.posted| - |s.cq| + Returned(s)
  }

  /** The loop gives a buffer back for the `j`-th completion exactly if the kernel lent it one. */
  ghost predicate BalancedAt(s: State, j: nat) {
    j < |s.posted| && j < |s.outcomes| && (HasBuffer(s.posted[j]) <==> FromTheRing(s.outcomes[j]))
  }

  ghost predicate AllBalanced(s: State, n: int) {
    forall j: nat :: j < n ==> BalancedAt(s, j)
  }

  /** If the loop gives a buffer back for this completion, then the kernel had lent it one. */
  ghost predicate EarnedAt(s: State, j: nat) {
    j < |s.posted| && j < |s.outcomes| && (FromTheRing(s.outcomes[j]) ==> HasBuffer(s.posted[j]))
  }

  ghost predicate AllEarned(s: State, n: int) {
    forall j: nat :: j < n ==> EarnedAt(s, j)
  }

  lemma {:induction false} LentConcat(a: seq<Cqe>, b: seq<Cqe>)
    ensures Lent(a + b) == Lent(a) + Lent(b)
  {
    if b == [] {
      assert a + b == a;
    } else {
      assert (a + b)[..|a + b| - 1] == a + b[..|b| - 1];
      LentConcat(a, b[..|b| - 1]);
    }
  }

  lemma LentFirst(xs: seq<Cqe>)
    requires xs != []
    ensures Lent(xs) == (if HasBuffer(xs[0]) then [BufferId(xs[0])] else []) + Lent(xs[1..])
  {
    assert xs == [xs[0]] + xs[1..];
    LentConcat([xs[0]], xs[1..]);
    assert Lent([xs[0]]) == if HasBuffer(xs[0]) then [BufferId(xs[0])] else [] by {
      assert [xs[0]][..0] == [];
    }
  }

  /** Together, the ring and the completions hold as many buffers as there are. */
  lemma ConservedCounts(c: Config, s: State)
    requires Conserved(c, s)
    ensures |Offered(c, s)| + |Lent(Held(s))| == c.Buffers()
  {
    assert |multiset(Offered(c, s)) + multiset(Lent(Held(s)))| == |multiset(Iota(c.Buffers()))|;
  }

  lemma InitConserves(c: Config, s: State)
    requires c.IsValid() && Init(c, s)
    ensures RingSound(c, s) && Conserved(c, s)
  {
    CounterValues();
    Pow2Grows(c.k, COUNTER_BITS);
    forall i: nat | i < c.Buffers() ensures i % c.Buffers() == i {
      DivisionIsUnique(i, c.Buffers(), 0, i);
    }
    assert Offered(c, s) == Iota(c.Buffers());
    assert Held(s) == [];
  }

  // ----- one step -----

  lemma FillTakesOffered(c: Config, s: State, t: State)
    requires RingSound(c, s) && Size(s.ring, COUNTER_BITS) > 0 && t.ring == PopFront(s.ring, COUNTER_BITS, 1)
    ensures Valid(t.ring, c.k, COUNTER_BITS)
    ensures Offered(c, s) == [s.ring.slots[Slot(s.ring.head, c.k)]] + Offered(c, t)
  {
    PopFrontDrops(s.ring, c.k, COUNTER_BITS, 1);
  }

  lemma PostLends(c: Config, s: State, t: State, x: Cqe)
    requires Bounded(c, s) && HasBuffer(x) && t.cq == s.cq + [x] && t.phase == s.phase
    ensures Lent(Held(t)) == Lent(Held(s)) + [BufferId(x)]
  {
    assert Held(t) == Held(s) + [x];
    LentConcat(Held(s), [x]);
    LentFirst([x]);
  }

  /** The kernel moves the oldest offered id to a new completion. */
  lemma FillMoves(c: Config, s: State, t: State, x: Cqe)
    requires RingSound(c, s) && Size(s.ring, COUNTER_BITS) > 0 && Bounded(c, s)
    requires t.ring == PopFront(s.ring, COUNTER_BITS, 1) && t.cq == s.cq + [x] && t.phase == s.phase
    requires HasBuffer(x) && BufferId(x) == s.ring.slots[Slot(s.ring.head, c.k)]
    ensures Valid(t.ring, c.k, COUNTER_BITS)
    ensures Offered(c, s) == [BufferId(x)] + Offered(c, t)
    ensures Lent(Held(t)) == Lent(Held(s)) + [BufferId(x)]
  {
    FillTakesOffered(c, s, t);
    PostLends(c, s, t, x);
  }

  lemma FillConserves(c: Config, s: State, t: State, x: Cqe)
    requires Conserved(c, s)
    requires Offered(c, s) == [BufferId(x)] + Offered(c, t)
    requires Lent(Held(t)) == Lent(Held(s)) + [BufferId(x)]
    ensures Conserved(c, t)
  {
    assert multiset(Offered(c, s)) == multiset{BufferId(x)} + multiset(Offered(c, t));
  }

  /** Moving the id of a completion from the lent ones to the offered ones. */
  lemma MoveBalances(n: nat, id: nat, w: seq<nat>, w': seq<nat>, rest: seq<nat>, has: bool, gives: bool)
    requires multiset(w) + multiset((if has then [id] else []) + rest) == multiset(Iota(n))
    requires !gives ==> w' == w
    requires gives ==> |w'| == |w| + 1 && (|w| < n ==> w' == w + [id])
    ensures multiset(w') + multiset(rest) == multiset(Iota(n)) <==> (has <==> gives)
  {
    var lent := (if has then [id] else []) + rest;
    assert |multiset(w) + multiset(lent)| == n;
    if has == gives {
      if has {
        assert multiset(lent) == multiset{id} + multiset(rest);
      } else {
        assert lent == rest;
      }
    } else {
      assert |multiset(w') + multiset(rest)| != n;
    }
  }

  lemma ReturnMoves(c: Config, s: State, t: State)
    requires s.phase.Handling? && s.phase.at < |s.cq| && t.phase == Handled(s.phase.at) && t.cq == s.cq
    ensures var x := s.cq[s.phase.at];
            Lent(Held(s)) == (if HasBuffer(x) then [BufferId(x)] else []) + Lent(Held(t))
  {
    assert Held(s)[1..] == Held(t);
    LentFirst(Held(s));
  }

  lemma ReturnAppends(c: Config, s: State, t: State, id: nat)
    requires RingSound(c, s) && |Offered(c, s)| <= c.Buffers() && t.ring == ReturnBuffer(c, s.ring, id)
    ensures |Offered(c, t)| == |Offered(c, s)| + 1
    ensures |Offered(c, s)| < c.Buffers() ==> Offered(c, t) == Offered(c, s) + [id]
  {
    PushBackAppends(s.ring, c.k, COUNTER_BITS, id);
  }

  /** While a handler runs, its completion and its outcome are the next to be dealt with. */
  lemma AtHand(c: Config, s: State)
    requires Bounded(c, s) && HistoryAligned(s) && s.phase.Handling?
    ensures GivenBack(s) >= 0 && GivenBack(s) == |s.outcomes| - 1 < |s.posted|
    ensures s.posted[GivenBack(s)] == s.cq[s.phase.at]
  {
  }

  lemma ReturnConservesIff(c: Config, s: State, t: State, x: Cqe)
    requires RingSound(c, s) && Conserved(c, s) && s.phase.Handling? && s.phase.at < |s.cq| && x == s.cq[s.phase.at]
    requires t.phase == Handled(s.phase.at) && t.cq == s.cq
    requires t.ring == if s.phase.giveBack then ReturnBuffer(c, s.ring, BufferId(x)) else s.ring
    ensures Conserved(c, t) <==> (HasBuffer(x) <==> s.phase.giveBack)
  {
    ConservedCounts(c, s);
    ReturnMoves(c, s, t);
    if s.phase.giveBack { ReturnAppends(c, s, t, BufferId(x)); }
    MoveBalances(c.Buffers(), BufferId(x), Offered(c, s), Offered(c, t), Lent(Held(t)),
                 HasBuffer(x), s.phase.giveBack);
  }

  lemma BalancedAtHand(c: Config, s: State)
    requires Bounded(c, s) && HistoryAligned(s) && ReturnRecorded(c, s) && s.phase.Handling?
    ensures GivenBack(s) >= 0
    ensures BalancedAt(s, GivenBack(s)) <==> (HasBuffer(s.cq[s.phase.at]) <==> s.phase.giveBack)
  {
    AtHand(c, s);
  }

  lemma ReturnsAtHand(c: Config, s: State, step: Step)
    requires step.GiveBack? && Enabled(c, s, step)
    ensures var t := Next(c, s, step);
            && t.phase == Handled(s.phase.at) && t.cq == s.cq
            && t.ring == if s.phase.giveBack then ReturnBuffer(c, s.ring, BufferId(s.cq[s.phase.at])) else s.ring
  {
  }

  /** Giving back, or not, keeps conservation exactly when it matches what was lent. */
  lemma {:induction false} GiveBackConservesIff(c: Config, s: State, step: Step)
    requires Bounded(c, s) && HistoryAligned(s) && ReturnRecorded(c, s) && RingSound(c, s) && Conserved(c, s)
    requires step.GiveBack? && Enabled(c, s, step)
    ensures GivenBack(s) >= 0
    ensures Conserved(c, Next(c, s, step)) <==> BalancedAt(s, GivenBack(s))
  {
    BalancedAtHand(c, s);
    ReturnsAtHand(c, s, step);
    ReturnConservesIff(c, s, Next(c, s, step), s.cq[s.phase.at]);
  }

  lemma RingSoundAfterReturn(c: Config, s: State, id: nat)
    requires RingSound(c, s) && id < c.Buffers() && c.IsValid()
    ensures RingSound(c, s.(ring := ReturnBuffer(c, s.ring, id)))
  {
    CounterValues();
  }

  lemma RingSoundAfterFill(c: Config, s: State, step: Step)
    requires RingSound(c, s) && step.KernelFill? && Enabled(c, s, step)
    ensures RingSound(c, Next(c, s, step))
  {
    CounterValues();
    PopFrontDrops(s.ring, c.k, COUNTER_BITS, 1);
  }

  lemma OtherStepsKeepRing(c: Config, s: State, step: Step)
    requires Enabled(c, s, step) && !step.GiveBack? && !step.KernelFill?
    ensures Next(c, s, step).ring == s.ring && Next(c, s, step).store == s.store
  {
    if step.PrepareOne? || step.Cancel? {
      UserStepsMoveNoCompletion(c, s, step);
    } else if step.Release? {
      ReleaseFrame(c, s, step);
    }
  }

  lemma RingSoundAfterGiveBack(c: Config, s: State, step: Step)
    requires Sound(c, s) && RingSound(c, s) && step.GiveBack? && Enabled(c, s, step)
    ensures RingSound(c, Next(c, s, step))
  {
    RingSoundAfterReturn(c, s, if s.phase.giveBack then BufferId(s.cq[s.phase.at]) else 0);
  }

  lemma RingSoundStep(c: Config, s: State, step: Step)
    requires Sound(c, s) && RingSound(c, s) && Enabled(c, s, step)
    ensures RingSound(c, Next(c, s, step))
  {
    if step.GiveBack? {
      RingSoundAfterGiveBack(c, s, step);
    } else if step.KernelFill? {
      RingSoundAfterFill(c, s, step);
    } else {
      OtherStepsKeepRing(c, s, step);
    }
  }

  lemma QuietPostKeepsPlaces(c: Config, s: State, t: State, x: Cqe)
    requires Bounded(c, s) && !HasBuffer(x)
    requires t.cq == s.cq + [x] && t.ring == s.ring && t.phase == s.phase
    ensures Offered(c, t) == Offered(c, s) && Lent(Held(t)) == Lent(Held(s))
  {
    assert Held(t) == Held(s) + [x];
    LentConcat(Held(s), [x]);
    LentFirst([x]);
  }

  lemma PlacesFrame(c: Config, s: State, t: State)
    requires Released(s) <= |s.cq| && SameRecords(s, t)
    ensures Offered(c, t) == Offered(c, s) && Held(t) == Held(s) && GivenBack(t) == GivenBack(s)
  {
    assert |Unreleased(s)| == |s.cq| - Released(s);
    assert |Unreleased(t)| == |t.cq| - Released(t);
    if s.phase.Handled? && Unreleased(s) != [] {
      assert Held(s) == Unreleased(s)[1..] && Held(t) == Unreleased(t)[1..];
    }
  }

  /** Other steps of the loop and of users touch no buffer. */
  lemma QuietStepKeepsPlaces(c: Config, s: State, step: Step)
    requires Bounded(c, s) && Enabled(c, s, step)
    requires !step.GiveBack? && !step.PrepareOne? && !step.Cancel? && !step.Release?
    requires !step.KernelFill? && !step.KernelComplete? && !step.KernelShot?
    ensures Offered(c, Next(c, s, step)) == Offered(c, s)
    ensures Held(Next(c, s, step)) == Held(s)
  {
    var t := Next(c, s, step);
    if QuietUser(step) {
      QuietUserFrame(c, s, step);
    } else if QuietLoop(step) {
      QuietLoopFrame(c, s, step);
    } else {
      TakeFrame(c, s, step);
    }
    PlacesFrame(c, s, t);
  }

  lemma ReleaseKeepsPlaces(c: Config, s: State, step: Step)
    requires Bounded(c, s) && Enabled(c, s, step) && step.Release?
    ensures Offered(c, Next(c, s, step)) == Offered(c, s)
    ensures Held(Next(c, s, step)) == Held(s)
  {
    ReleaseFrame(c, s, step);
  }

  lemma FillStepMoves(c: Config, s: State, step: Step)
    requires RingSound(c, s) && Bounded(c, s) && step.KernelFill? && Enabled(c, s, step)
    ensures var t := Next(c, s, step);
            && |t.cq| == |s.cq| + 1
            && Offered(c, s) == [BufferId(t.cq[|s.cq|])] + Offered(c, t)
            && Lent(Held(t)) == Lent(Held(s)) + [BufferId(t.cq[|s.cq|])]
  {
    FlagOf(s.ring.slots[Slot(s.ring.head, c.k)], step.low);
    FillMoves(c, s, Next(c, s, step), Next(c, s, step).cq[|s.cq|]);
  }

  lemma FillStepConserves(c: Config, s: State, step: Step)
    requires RingSound(c, s) && Bounded(c, s) && Conserved(c, s)
    requires step.KernelFill? && Enabled(c, s, step)
    ensures Conserved(c, Next(c, s, step))
  {
    var t := Next(c, s, step);
    FillStepMoves(c, s, step);
    FillConserves(c, s, t, t.cq[|s.cq|]);
  }

  ghost predicate LosslessAt(s: State, step: Step) {
    step.GiveBack? ==> GivenBack(s) >= 0 && BalancedAt(s, GivenBack(s))
  }

  lemma StepConservesIff(c: Config, s: State, step: Step)
    requires Sound(c, s) && RingSound(c, s) && Conserved(c, s) && Enabled(c, s, step)
    ensures Conserved(c, Next(c, s, step)) <==> LosslessAt(s, step)
  {
    if step.GiveBack? {
      GiveBackConservesIff(c, s, step);
    } else if step.KernelFill? {
      FillStepConserves(c, s, step);
    } else if step.KernelComplete? || step.KernelShot? {
      QuietPostKeepsPlaces(c, s, Next(c, s, step), Next(c, s, step).cq[|s.cq|]);
    } else if step.Release? {
      ReleaseKeepsPlaces(c, s, step);
    } else if step.PrepareOne? || step.Cancel? {
      UserStepsMoveNoCompletion(c, s, step);
      assert Held(Next(c, s, step)) == Held(s);
    } else {
      QuietStepKeepsPlaces(c, s, step);
    }
  }

  // ----- every run -----

  lemma RingSoundAt(c: Config, states: seq<State>, steps: seq<Step>, i: nat)
    requires IsRun(c, states, steps) && i < |steps| && RingSound(c, states[i])
    ensures RingSound(c, states[i + 1])
  {
    RunIsSound(c, states, steps, i);
    assert StepAt(c, states, steps, i);
    RingSoundStep(c, states[i], steps[i]);
  }

  lemma {:induction false} RunKeepsRing(c: Config, states: seq<State>, steps: seq<Step>, i: nat)
    requires IsRun(c, states, steps) && i < |states|
    ensures RingSound(c, states[i])
  {
    if i == 0 {
      InitConserves(c, states[0]);
    } else {
      RunKeepsRing(c, states, steps, i - 1);
      RingSoundAt(c, states, steps, i - 1);
    }
  }

  // ----- what the kernel posts -----

  /** The bytes recorded for a completion are those of its result, or none. */
  ghost predicate WireFits(c: Config, x: Cqe, w: seq<Byte>) {
    if HasBuffer(x) && x.res >= 0
    then |w| == x.res <= c.bufferSize && BufferId(x) < c.Buffers()
    else w == []
  }

  ghost predicate WiresFit(c: Config, posted: seq<Cqe>, wire: seq<seq<Byte>>) {
    |posted| == |wire| && forall i :: 0 <= i < |posted| ==> WireFits(c, posted[i], wire[i])
  }

  lemma WiresGrow(c: Config, posted: seq<Cqe>, wire: seq<seq<Byte>>, x: Cqe, w: seq<Byte>)
    requires WiresFit(c, posted, wire) && WireFits(c, x, w)
    ensures WiresFit(c, posted + [x], wire + [w])
  {
  }

  /** The id in the ring slot that the kernel reads next. */
  ghost function HeadId(c: Config, s: State): nat {
    if |s.ring.slots| == c.Buffers() then s.ring.slots[Slot(s.ring.head, c.k)] else 0
  }

  /** A posting step adds one completion, with the bytes written for it. */
  lemma PostsOne(c: Config, s: State, step: Step)
    requires Posting(step) && Enabled(c, s, step) && RingSound(c, s)
    ensures var t := Next(c, s, step);
            && |t.cq| == |s.cq| + 1 && t.posted == s.posted + [t.cq[|s.cq|]]
            && t.wire == s.wire + [BytesPosted(step)] && WireFits(c, t.cq[|s.cq|], BytesPosted(step))
            && (HasBuffer(t.cq[|s.cq|]) <==> step.KernelFill?)
            && (step.KernelFill? ==> BufferId(t.cq[|s.cq|]) == HeadId(c, s) && t.cq[|s.cq|].res == step.res)
  {
    if step.KernelFill? { FlagOf(HeadId(c, s), step.low); }
  }

  lemma LoopStepsKeepBytes(c: Config, s: State, step: Step)
    requires Enabled(c, s, step) && !Posting(step)
    ensures var t := Next(c, s, step);
            t.posted == s.posted && t.wire == s.wire && t.store == s.store
  {
    if step.PrepareOne? || step.Cancel? {
      UserStepsMoveNoCompletion(c, s, step);
    } else if step.Release? {
      ReleaseFrame(c, s, step);
    }
  }

  lemma WiresFitStep(c: Config, s: State, step: Step)
    requires RingSound(c, s) && WiresFit(c, s.posted, s.wire) && Enabled(c, s, step)
    ensures WiresFit(c, Next(c, s, step).posted, Next(c, s, step).wire)
  {
    if Posting(step) {
      PostsOne(c, s, step);
      WiresGrow(c, s.posted, s.wire, Next(c, s, step).cq[|s.cq|], BytesPosted(step));
    } else {
      LoopStepsKeepBytes(c, s, step);
    }
  }

  lemma WiresFitAt(c: Config, states: seq<State>, steps: seq<Step>, i: nat)
    requires IsRun(c, states, steps) && i < |steps| && WiresFit(c, states[i].posted, states[i].wire)
    ensures WiresFit(c, states[i + 1].posted, states[i + 1].wire)
  {
    RunIsSound(c, states, steps, i);
    RunKeepsRing(c, states, steps, i);
    assert StepAt(c, states, steps, i);
    WiresFitStep(c, states[i], steps[i]);
  }

  lemma {:induction false} RunKeepsWires(c: Config, states: seq<State>, steps: seq<Step>, i: nat)
    requires IsRun(c, states, steps) && i < |states|
    ensures WiresFit(c, states[i].posted, states[i].wire)
  {
    if i > 0 {
      RunKeepsWires(c, states, steps, i - 1);
      WiresFitAt(c, states, steps, i - 1);
    }
  }

  lemma HistoriesGrowByPosting(c: Config, s: State, step: Step)
    requires Bounded(c, s) && Enabled(c, s, step) && (Posting(step) || step.GiveBack?)
    ensures var t := Next(c, s, step);
            && HistoryExtends(s, t) && t.outcomes == s.outcomes
            && GivenBack(t) == GivenBack(s) + if step.GiveBack? then 1 else 0
  {
  }

  lemma HistoriesGrowQuietly(c: Config, s: State, step: Step)
    requires Bounded(c, s) && Enabled(c, s, step) && (QuietUser(step) || QuietLoop(step) || step.KernelTake?)
    ensures var t := Next(c, s, step);
            && HistoryExtends(s, t) && |t.outcomes| <= |s.outcomes| + 1 && GivenBack(t) == GivenBack(s)
            && (!step.Dispatch? ==> t.outcomes == s.outcomes)
  {
    if QuietUser(step) {
      QuietUserFrame(c, s, step);
    } else if QuietLoop(step) {
      QuietLoopFrame(c, s, step);
    } else {
      TakeFrame(c, s, step);
    }
    PlacesFrame(c, s, Next(c, s, step));
  }

  lemma HistoriesGrow(c: Config, s: State, step: Step)
    requires Bounded(c, s) && Enabled(c, s, step)
    ensures var t := Next(c, s, step);
            && HistoryExtends(s, t) && |t.outcomes| <= |s.outcomes| + 1
            && (!step.Dispatch? ==> t.outcomes == s.outcomes)
            && GivenBack(t) == GivenBack(s) + if step.GiveBack? then 1 else 0
  {
    if step.PrepareOne? || step.Cancel? {
      UserStepsMoveNoCompletion(c, s, step);
    } else if step.Release? {
      ReleaseFrame(c, s, step);
    } else if Posting(step) || step.GiveBack? {
      HistoriesGrowByPosting(c, s, step);
    } else {
      HistoriesGrowQuietly(c, s, step);
    }
  }

  /** Whether an old completion is balanced does not change. */
  lemma BalanceIsStable(s: State, t: State, j: nat)
    requires j < |s.posted| && j < |s.outcomes| && HistoryExtends(s, t)
    ensures (BalancedAt(t, j) <==> BalancedAt(s, j)) && (EarnedAt(t, j) <==> EarnedAt(s, j))
  {
  }

  lemma DealtWithInOrder(c: Config, s: State)
    requires Bounded(c, s) && HistoryAligned(s)
    ensures 0 <= GivenBack(s) <= |s.outcomes| <= |s.posted|
    ensures s.phase.Handling? ==> GivenBack(s) < |s.outcomes|
  {
  }

  lemma BalancedStep(c: Config, s: State, step: Step)
    requires Bounded(c, s) && HistoryAligned(s) && Enabled(c, s, step)
    ensures var t := Next(c, s, step);
            AllBalanced(t, GivenBack(t)) <==> AllBalanced(s, GivenBack(s)) && LosslessAt(s, step)
  {
    var t := Next(c, s, step);
    HistoriesGrow(c, s, step);
    DealtWithInOrder(c, s);
    forall j: nat | j < |s.outcomes| ensures BalancedAt(t, j) <==> BalancedAt(s, j) {
      BalanceIsStable(s, t, j);
    }
  }

  lemma ConservationAt(c: Config, states: seq<State>, steps: seq<Step>, i: nat)
    requires IsRun(c, states, steps) && i < |steps|
    ensures var (s, t) := (states[i], states[i + 1]);
            && (Conserved(c, s) ==> (Conserved(c, t) <==> LosslessAt(s, steps[i])))
            && (AllBalanced(t, GivenBack(t)) <==> AllBalanced(s, GivenBack(s)) && LosslessAt(s, steps[i]))
  {
    RunIsSound(c, states, steps, i);
    RunKeepsRing(c, states, steps, i);
    assert StepAt(c, states, steps, i);
    BalancedStep(c, states[i], steps[i]);
    if Conserved(c, states[i]) { StepConservesIff(c, states[i], steps[i]); }
  }

  ghost function ConservedIn(c: Config, states: seq<State>): nat -> bool {
    (i: nat) => i < |states| && Conserved(c, states[i])
  }

  ghost function BalancedIn(states: seq<State>): nat -> bool {
    (i: nat) => i < |states| && AllBalanced(states[i], GivenBack(states[i]))
  }

  ghost function LosslessIn(states: seq<State>, steps: seq<Step>): nat -> bool {
    (i: nat) => i < |steps| && i < |states| && LosslessAt(states[i], steps[i])
  }

  lemma LostTogetherAt(c: Config, states: seq<State>, steps: seq<Step>, i: nat)
    requires IsRun(c, states, steps) && i < |steps|
    ensures LostTogether(ConservedIn(c, states), BalancedIn(states), LosslessIn(states, steps), i)
  {
    ConservationAt(c, states, steps, i);
  }

  lemma StartsConserved(c: Config, states: seq<State>, steps: seq<Step>)
    requires IsRun(c, states, steps)
    ensures ConservedIn(c, states)(0) && BalancedIn(states)(0)
  {
    InitConserves(c, states[0]);
  }

  lemma RunConservesTogether(c: Config, states: seq<State>, steps: seq<Step>)
    requires IsRun(c, states, steps)
    ensures (forall i: nat :: i <= |steps| ==> ConservedIn(c, states)(i))
            <==> BalancedIn(states)(|steps|)
  {
    StartsConserved(c, states, steps);
    var held, owed, lossless := ConservedIn(c, states), BalancedIn(states), LosslessIn(states, steps);
    forall i: nat | i < |steps| ensures LostTogether(held, owed, lossless, i) {
      LostTogetherAt(c, states, steps, i);
    }
    LostTogetherUpTo(held, owed, lossless, |steps|);
  }

  ghost predicate AlwaysConserved(c: Config, states: seq<State>) {
    forall i: nat :: i < |states| ==> Conserved(c, states[i])
  }

  lemma AlwaysConservedIff(c: Config, states: seq<State>, n: nat)
    requires |states| == n + 1
    ensures AlwaysConserved(c, states) <==> forall i: nat :: i <= n ==> ConservedIn(c, states)(i)
  {
    if AlwaysConserved(c, states) {
      assert forall i: nat :: i <= n ==> ConservedIn(c, states)(i);
    } else {
      var i: nat :| i < |states| && !Conserved(c, states[i]);
      assert !ConservedIn(c, states)(i);
    }
  }

  /** Buffer conservation, exactly: every id stays in exactly one place throughout a run if and only
      if the loop gave back the buffer of each completion that carried one, and of no other. */
  lemma {:induction false} ConservedIffBalanced(c: Config, states: seq<State>, steps: seq<Step>)
    requires IsRun(c, states, steps)
    ensures var s := states[|states| - 1];
            AlwaysConserved(c, states) <==> AllBalanced(s, GivenBack(s))
  {
    RunConservesTogether(c, states, steps);
    AlwaysConservedIff(c, states, |steps|);
    assert BalancedIn(states)(|steps|)
           == AllBalanced(states[|steps|], GivenBack(states[|steps|]));
  }

  /** The block that the dispatch of a completion reads. */
  ghost predicate ReadsBlock(s: State, x: Cqe, b: Block) {
    && x.entry.data.Some?
    && var a := AddressIn(s.pushes, x.entry.data.value);
       a in s.heap && s.heap[a] == b
  }

  /** The completion carries no buffer, and one is returned for it: it is read as that of a multi-shot read
      with a subscriber, is no error, and the upper flag bits name a buffer. */
  ghost predicate ReturnsUnlent(c: Config, x: Cqe, b: Block) {
    && !HasBuffer(x) && x.res >= 0 && BufferId(x) < c.Buffers()
    && b.kind.MultiRead? && b.content.header.subscriber != 0
  }

  /** A buffer was lent, and is never returned: the handler is skipped, or told of an error. */
  ghost predicate KeepsLent(x: Cqe, b: Block) {
    HasBuffer(x) && (b.content.header.subscriber == 0 || x.res < 0)
  }

  /** A multi-shot request is found as it was pushed. */
  lemma MultiReadsThePush(s: State, x: Cqe)
    requires Typed(s) && Pointing(s.pushes, x.entry) && x.entry.data.Some?
    requires IsMultiShot(s.pushes[x.entry.data.value].kind)
    ensures var p := x.entry.data.value;
            && WellTagged(s.pushes[p])
            && ReadsBlock(s, x, Block(p, s.pushes[p].kind, s.pushes[p].request))
  {
    assert MultiInPlace(s.heap, s.pushes, x.entry.data.value);
    assert BlockSound(s.heap, s.pushes, s.pushes[x.entry.data.value].addr);
  }

  lemma BlockIsPushed(s: State, x: Cqe, b: Block)
    requires Typed(s) && ReadsBlock(s, x, b)
    ensures b.birth < |s.pushes| && WellTagged(s.pushes[b.birth])
    ensures b == Block(b.birth, s.pushes[b.birth].kind, s.pushes[b.birth].request)
  {
    assert BlockSound(s.heap, s.pushes, AddressIn(s.pushes, x.entry.data.value));
  }

  /** When a ring read event comes of reading the block. */
  lemma RingReadIff(c: Config, pushes: seq<Push>, x: Cqe, b: Block, store: seq<Buffer>)
    requires b.birth < |pushes| && WellTagged(pushes[b.birth]) && |store| == c.Buffers()
    requires b == Block(b.birth, pushes[b.birth].kind, pushes[b.birth].request)
    ensures FromTheRing(DispatchRequest(b.content, x, store).0)
            <==> b.kind.MultiRead? && b.content.header.subscriber != 0 && x.res >= 0 && BufferId(x) < c.Buffers()
  {
    DispatchIsExpected(c, pushes, x, b.birth, store, []);
  }

  lemma BalanceOf(c: Config, s: State, x: Cqe, b: Block)
    requires Typed(s) && |s.store| == c.Buffers() && ReadsBlock(s, x, b)
    requires Pointing(s.pushes, x.entry) && Plausible(c, x)
    requires HasBuffer(x) && x.res >= 0 ==> BufferId(x) < c.Buffers()
    ensures var r := FromTheRing(DispatchRequest(b.content, x, s.store).0);
            && (HasBuffer(x) != r <==> ReturnsUnlent(c, x, b) || KeepsLent(x, b))
            && (r && !HasBuffer(x) <==> ReturnsUnlent(c, x, b))
  {
    BlockIsPushed(s, x, b);
    RingReadIff(c, s.pushes, x, b, s.store);
    if HasBuffer(x) { MultiReadsThePush(s, x); }
  }

  /** After its dispatch in `s` the completion `x`, the `n`-th, is unbalanced exactly if it returns a buffer
      not lent, or keeps one lent; only an answer to a multi-shot read keeps one. */
  ghost predicate BalanceAsRead(c: Config, s: State, t: State, x: Cqe, n: nat) {
    match x.entry.data
    case None => BalancedAt(t, n)
    case Some(p) =>
      && AddressIn(s.pushes, p) in s.heap
      && var b := s.heap[AddressIn(s.pushes, p)];
         && (!BalancedAt(t, n) <==> ReturnsUnlent(c, x, b) || KeepsLent(x, b))
         && (!EarnedAt(t, n) <==> ReturnsUnlent(c, x, b))
         && (KeepsLent(x, b) ==> x.entry.op == Op(MultiRead) && b.birth == p)
  }

  lemma DispatchAdds(c: Config, s: State)
    requires Enabled(c, s, Dispatch) && !Next(c, s, Dispatch).faulted
    ensures var (x, t) := (s.cq[s.phase.at], Next(c, s, Dispatch));
            match x.entry.data
            case None => t.outcomes == s.outcomes + [LoopError(MalformedEntry)] && t.posted == s.posted
            case Some(p) =>
              && AddressIn(s.pushes, p) in s.heap && t.posted == s.posted
              && t.outcomes
                 == s.outcomes + [DispatchRequest(s.heap[AddressIn(s.pushes, p)].content, x, s.store).0]
  {
  }

  lemma BalanceOfOutcome(c: Config, s: State, t: State, x: Cqe, n: nat)
    requires Typed(s) && |s.store| == c.Buffers() && Pointing(s.pushes, x.entry) && Plausible(c, x)
    requires HasBuffer(x) && x.res >= 0 ==> BufferId(x) < c.Buffers()
    requires n < |t.posted| && t.posted[n] == x && n < |t.outcomes|
    requires match x.entry.data
             case None => t.outcomes[n] == LoopError(MalformedEntry)
             case Some(p) =>
               && AddressIn(s.pushes, p) in s.heap
               && t.outcomes[n] == DispatchRequest(s.heap[AddressIn(s.pushes, p)].content, x, s.store).0
    ensures BalanceAsRead(c, s, t, x, n)
  {
    if x.entry.data.Some? {
      BalanceOf(c, s, x, s.heap[AddressIn(s.pushes, x.entry.data.value)]);
      if HasBuffer(x) { MultiReadsThePush(s, x); }
    }
  }

  lemma BalanceAtDispatch(c: Config, s: State)
    requires Sound(c, s) && WiresFit(c, s.posted, s.wire) && Enabled(c, s, Dispatch) && !Next(c, s, Dispatch).faulted
    ensures var (x, n) := (s.cq[s.phase.at], |s.outcomes|);
            n < |s.posted| && x == s.posted[n] && BalanceAsRead(c, s, Next(c, s, Dispatch), x, n)
  {
    CurrentCompletion(c, s);
    var x := s.cq[s.phase.at];
    assert WireFits(c, x, s.wire[|s.outcomes|]);
    DispatchAdds(c, s);
    BalanceOfOutcome(c, s, Next(c, s, Dispatch), x, |s.outcomes|);
  }

  /** Which completions are unbalanced, at their dispatch in any run. */
  lemma BalanceCases(c: Config, states: seq<State>, steps: seq<Step>, i: nat)
    requires IsRun(c, states, steps) && i < |steps| && steps[i].Dispatch? && !states[i + 1].faulted
    ensures var (s, t, n) := (states[i], states[i + 1], |states[i].outcomes|);
            n < |s.posted| && BalanceAsRead(c, s, t, s.posted[n], n)
  {
    RunIsSound(c, states, steps, i);
    RunKeepsWires(c, states, steps, i);
    assert StepAt(c, states, steps, i);
    BalanceAtDispatch(c, states[i]);
  }

  lemma UnlentIsEmptyOrCancel(c: Config, s: State, b: Block)
    requires Inv(c, s) && Enabled(c, s, Dispatch)
    requires ReadsBlock(s, s.cq[s.phase.at], b) && ReturnsUnlent(c, s.cq[s.phase.at], b)
    ensures var x := s.cq[s.phase.at];
            (x.entry.op == Op(MultiRead) && x.res == 0) || x.entry.op == CancelFd
  {
    CurrentCompletion(c, s);
    var x := s.cq[s.phase.at];
    if x.entry.op.Op? { ReapReadsThePush(c, s, x.entry.data.value); }
  }

  /** Until a cancel has freed a block, a buffer not lent is returned only for a multi-shot read that reports
      the end of the stream, and for a cancel whose inherited address is that of a multi-shot read. */
  lemma UnlentCases(c: Config, states: seq<State>, steps: seq<Step>, i: nat, b: Block)
    requires IsRun(c, states, steps) && i < |steps| && steps[i].Dispatch? && Unharmed(states, steps, i)
    requires states[i].phase.Reaping? && states[i].phase.at < |states[i].cq|
    requires ReadsBlock(states[i], states[i].cq[states[i].phase.at], b)
    requires ReturnsUnlent(c, states[i].cq[states[i].phase.at], b)
    ensures var x := states[i].cq[states[i].phase.at];
            (x.entry.op == Op(MultiRead) && x.res == 0) || x.entry.op == CancelFd
  {
    RunKeeps(c, states, steps, i);
    assert StepAt(c, states, steps, i);
    UnlentIsEmptyOrCancel(c, states[i], b);
  }
}
