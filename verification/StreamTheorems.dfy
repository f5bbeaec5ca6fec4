/** The bytes subscribers see: exactly when received bytes can be overwritten, and what subscribers see
    in every run in which the loop gives back only what was lent. */
module StreamTheorems {
  import opened Requests
  import opened BufferRings
  import opened Protocol
  import opened Lifecycle
  import opened Soundness
  import opened LifecycleSteps
  import opened Runs
  import opened RequestTheorems
  import opened BufferTheorems

  // ----- what the kernel wrote is still in the buffers -----

  /** The buffer of a completion still holds the bytes the kernel wrote for it. */
  ghost predicate Intact(x: Cqe, w: seq<Byte>, store: seq<Buffer>) {
    HasBuffer(x) && x.res >= 0 ==>
      BufferId(x) < |store| && Prefix(store[BufferId(x)], x.res) == w
  }

  ghost predicate AllIntact(s: State) {
    |s.wire| == |s.posted| &&
    forall j: nat :: 0 <= GivenBack(s) <= j < |s.posted| ==> Intact(s.posted[j], s.wire[j], s.store)
  }

  /** The outcome is the one owed to the request, bytes included. */
  ghost predicate Exact(c: Config, pushes: seq<Push>, x: Cqe, w: seq<Byte>, o: Outcome) {
    x.entry.data.Some? && x.entry.data.value < |pushes| && o == Expected(c, pushes, x.entry.data.value, x, w)
  }

  /** Each outcome of a multi-shot read is exact. */
  ghost predicate ReadsExact(c: Config, s: State) {
    && |s.outcomes| <= |s.posted| == |s.wire|
    && forall i :: 0 <= i < |s.outcomes| && s.posted[i].entry.op == Op(MultiRead) ==>
         Exact(c, s.pushes, s.posted[i], s.wire[i], s.outcomes[i])
  }

  lemma {:induction false} LentContains(xs: seq<Cqe>, j: nat)
    requires j < |xs| && HasBuffer(xs[j])
    ensures BufferId(xs[j]) in Lent(xs)
  {
    if j < |xs| - 1 {
      assert xs[..|xs| - 1][j] == xs[j];
      LentContains(xs[..|xs| - 1], j);
    }
  }

  lemma {:induction false} IotaOnce(n: nat, id: nat)
    ensures multiset(Iota(n))[id] <= 1
  {
    if n > 0 {
      assert Iota(n) == Iota(n - 1) + [n - 1];
      IotaOnce(n - 1, id);
      assert n - 1 !in Iota(n - 1);
    }
  }

  // ----- no id in two places -----

  lemma SubsetIsSmaller(a: multiset<nat>, b: multiset<nat>)
    requires a <= b
    ensures |a| <= |b|
  {
    assert b == a + (b - a);
  }

  /** An id that leaves the lent ones may join the offered ones. */
  lemma MoveKeepsNoneTwice(n: nat, id: nat, w: seq<nat>, w': seq<nat>, rest: seq<nat>, has: bool, gives: bool)
    requires multiset(w) + multiset((if has then [id] else []) + rest) <= multiset(Iota(n))
    requires if gives then has && (|w| < n ==> w' == w + [id]) else w' == w
    ensures multiset(w') + multiset(rest) <= multiset(Iota(n))
  {
    var lent := (if has then [id] else []) + rest;
    SubsetIsSmaller(multiset(w) + multiset(lent), multiset(Iota(n)));
    if has { assert multiset(lent) == multiset{id} + multiset(rest); } else { assert lent == rest; }
  }

  /** The returned buffer goes behind those offered, and overwrites none of them. */
  lemma ReturnGoesBehind(c: Config, s: State, step: Step)
    requires Sound(c, s) && RingSound(c, s) && NoneTwice(c, s)
    requires step.GiveBack? && Enabled(c, s, step) && GivenBack(s) >= 0 && EarnedAt(s, GivenBack(s))
    ensures var (t, x) := (Next(c, s, step), s.cq[s.phase.at]);
            && (s.phase.giveBack ==> HasBuffer(x) && |Offered(c, s)| < c.Buffers())
            && Offered(c, t) == Offered(c, s) + (if s.phase.giveBack then [BufferId(x)] else [])
            && Lent(Held(s)) == (if HasBuffer(x) then [BufferId(x)] else []) + Lent(Held(t))
  {
    var t, x := Next(c, s, step), s.cq[s.phase.at];
    AtHand(c, s);
    ReturnMoves(c, s, t);
    if s.phase.giveBack {
      SubsetIsSmaller(multiset(Offered(c, s)) + multiset(Lent(Held(s))), multiset(Iota(c.Buffers())));
      ReturnAppends(c, s, t, BufferId(x));
    }
  }

  lemma GiveBackKeepsNoneTwice(c: Config, s: State, step: Step)
    requires Sound(c, s) && RingSound(c, s) && NoneTwice(c, s)
    requires step.GiveBack? && Enabled(c, s, step) && GivenBack(s) >= 0 && EarnedAt(s, GivenBack(s))
    ensures NoneTwice(c, Next(c, s, step))
  {
    var t, x := Next(c, s, step), s.cq[s.phase.at];
    AtHand(c, s);
    ReturnGoesBehind(c, s, step);
    MoveKeepsNoneTwice(c.Buffers(), BufferId(x), Offered(c, s), Offered(c, t), Lent(Held(t)),
                       HasBuffer(x), s.phase.giveBack);
  }

  lemma FillKeepsNoneTwice(c: Config, s: State, step: Step)
    requires RingSound(c, s) && Bounded(c, s) && NoneTwice(c, s)
    requires step.KernelFill? && Enabled(c, s, step)
    ensures NoneTwice(c, Next(c, s, step))
  {
    PostsOne(c, s, step);
    var t := Next(c, s, step);
    FillMoves(c, s, t, t.cq[|s.cq|]);
    assert multiset(Offered(c, s)) == multiset{HeadId(c, s)} + multiset(Offered(c, t));
  }

  /** No id gets into two places, if what is given back was lent. */
  lemma NoneTwiceStep(c: Config, s: State, step: Step)
    requires Sound(c, s) && RingSound(c, s) && NoneTwice(c, s) && Enabled(c, s, step)
    requires step.GiveBack? ==> GivenBack(s) >= 0 && EarnedAt(s, GivenBack(s))
    ensures NoneTwice(c, Next(c, s, step))
  {
    if step.GiveBack? {
      GiveBackKeepsNoneTwice(c, s, step);
    } else if step.KernelFill? {
      FillKeepsNoneTwice(c, s, step);
    } else if step.KernelComplete? || step.KernelShot? {
      QuietPostKeepsPlaces(c, s, Next(c, s, step), Next(c, s, step).cq[|s.cq|]);
    } else if step.Release? {
      ReleaseKeepsPlaces(c, s, step);
    } else if step.PrepareOne? || step.Cancel? {
      UserStepsMoveNoCompletion(c, s, step);
      assert Held(Next(c, s, step)) == Held(s);
    } else {
      QuietStepKeepsPlaces(c, s, step);
    }
  }

  // ----- what overwrites received bytes -----

  /** The buffer `id` holds bytes received for the `j`-th completion, whose buffer is not back. */
  ghost predicate InUse(s: State, id: nat, j: nat) {
    GivenBack(s) <= j < |s.posted| && HasBuffer(s.posted[j]) && s.posted[j].res > 0 && BufferId(s.posted[j]) == id
  }

  /** The kernel's next buffer is one that the application still has bytes in. */
  ghost predicate HeadInUse(c: Config, s: State) {
    exists j: nat :: InUse(s, HeadId(c, s), j)
  }

  lemma HeldIsPosted(s: State, j: nat)
    requires HistoryAligned(s) && Returned(s) <= |s.cq| && GivenBack(s) <= j < |s.posted|
    ensures GivenBack(s) >= 0 && j - GivenBack(s) < |Held(s)| && Held(s)[j - GivenBack(s)] == s.posted[j]
  {
  }

  lemma InUseIsLent(s: State, id: nat, j: nat)
    requires HistoryAligned(s) && Returned(s) <= |s.cq| && InUse(s, id, j)
    ensures id in Lent(Held(s))
  {
    HeldIsPosted(s, j);
    LentContains(Held(s), j - GivenBack(s));
  }

  lemma OnlyOnce(a: seq<nat>, b: seq<nat>, n: nat, id: nat)
    requires multiset(a) + multiset(b) <= multiset(Iota(n)) && id in a
    ensures id !in b
  {
    IotaOnce(n, id);
    assert multiset(a)[id] >= 1;
    assert id in b ==> multiset(b)[id] >= 1;
    assert (multiset(a) + multiset(b))[id] <= multiset(Iota(n))[id];
  }

  /** An offered id that is nowhere else is not in use. */
  lemma OfferedIsNotInUse(c: Config, s: State, id: nat, j: nat)
    requires HistoryAligned(s) && Returned(s) <= |s.cq| && NoneTwice(c, s) && id in Offered(c, s)
    ensures !InUse(s, id, j)
  {
    if InUse(s, id, j) {
      InUseIsLent(s, id, j);
      OnlyOnce(Offered(c, s), Lent(Held(s)), c.Buffers(), id);
    }
  }

  lemma HeadIsOffered(c: Config, s: State, step: Step)
    requires RingSound(c, s) && step.KernelFill? && Enabled(c, s, step)
    ensures HeadId(c, s) in Offered(c, s)
  {
    assert Offered(c, s)[0] == HeadId(c, s);
  }

  /** Writing one buffer leaves the completions with bytes in others intact. */
  lemma WriteElsewhere(s: State, t: State, x: Cqe, w: seq<Byte>, id: nat)
    requires AllIntact(s) && id < |s.store| == |t.store|
    requires forall i :: 0 <= i < |s.store| && i != id ==> t.store[i] == s.store[i]
    requires t.posted == s.posted + [x] && t.wire == s.wire + [w] && GivenBack(t) == GivenBack(s)
    requires forall j: nat :: !InUse(s, id, j)
    requires Intact(x, w, t.store)
    ensures AllIntact(t)
  {
    forall j: nat | 0 <= GivenBack(t) <= j < |t.posted| ensures Intact(t.posted[j], t.wire[j], t.store) {
      if j < |s.posted| {
        assert Intact(s.posted[j], s.wire[j], s.store);
        assert !InUse(s, id, j);
      }
    }
  }

  /** What the kernel writes, and where. */
  lemma FilledBuffer(c: Config, s: State, step: Step)
    requires RingSound(c, s) && |s.store| == c.Buffers() && step.KernelFill? && Enabled(c, s, step)
    ensures var t, id := Next(c, s, step), HeadId(c, s);
            && id < |s.store| && t.store == s.store[id := Overwrite(s.store[id], step.bytes)]
            && Intact(t.cq[|s.cq|], step.bytes, t.store)
  {
    PostsOne(c, s, step);
  }

  lemma FillLeavesIntact(c: Config, s: State, step: Step)
    requires RingSound(c, s) && AllIntact(s) && |s.store| == c.Buffers() && !HeadInUse(c, s)
    requires step.KernelFill? && Enabled(c, s, step)
    ensures AllIntact(Next(c, s, step))
  {
    var t := Next(c, s, step);
    PostsOne(c, s, step);
    FilledBuffer(c, s, step);
    WriteElsewhere(s, t, t.cq[|s.cq|], step.bytes, HeadId(c, s));
  }

  /** The kernel may fill its next buffer with one byte `b`. */
  ghost function FillWith(step: Step, b: Byte): Step
    requires step.KernelFill?
  {
    KernelFill(step.i, 1, [b], step.low)
  }

  /** If the kernel's next buffer is in use, some byte written to it corrupts what was received. */
  lemma SomeFillCorrupts(c: Config, s: State, step: Step, j: nat) returns (bad: Step)
    requires RingSound(c, s) && |s.store| == c.Buffers() && WiresFit(c, s.posted, s.wire)
    requires step.KernelFill? && Enabled(c, s, step) && InUse(s, HeadId(c, s), j) && GivenBack(s) >= 0
    ensures bad.KernelFill? && Enabled(c, s, bad) && !AllIntact(Next(c, s, bad))
  {
    var id := HeadId(c, s);
    assert WireFits(c, s.posted[j], s.wire[j]);
    bad := FillWith(step, if s.wire[j][0] == 0 then 1 else 0);
    var t := Next(c, s, bad);
    PostsOne(c, s, bad);
    FilledBuffer(c, s, bad);
    assert Prefix(t.store[id], s.posted[j].res)[0] == bad.bytes[0] != s.wire[j][0];
    assert t.posted[j] == s.posted[j] && t.wire[j] == s.wire[j];
    assert !Intact(t.posted[j], t.wire[j], t.store);
  }

  /** Exactly when received bytes can be overwritten: whatever the kernel writes next leaves them
      intact if and only if its next buffer is not attached to a completion that carries bytes and
      whose buffer is not back yet. */
  lemma {:induction false} FillKeepsIntactIff(c: Config, states: seq<State>, steps: seq<Step>, i: nat)
    requires IsRun(c, states, steps) && i < |steps| && steps[i].KernelFill? && AllIntact(states[i])
    ensures (forall f: Step :: f.KernelFill? && Enabled(c, states[i], f) ==> AllIntact(Next(c, states[i], f)))
            <==> !HeadInUse(c, states[i])
  {
    var s := states[i];
    RunIsSound(c, states, steps, i);
    RunKeepsRing(c, states, steps, i);
    RunKeepsWires(c, states, steps, i);
    assert StepAt(c, states, steps, i);
    if HeadInUse(c, s) {
      var j: nat :| InUse(s, HeadId(c, s), j);
      var bad := SomeFillCorrupts(c, s, steps[i], j);
    } else {
      forall f: Step | f.KernelFill? && Enabled(c, s, f) ensures AllIntact(Next(c, s, f)) {
        FillLeavesIntact(c, s, f);
      }
    }
  }

  lemma QuietPostIntact(c: Config, s: State, t: State, x: Cqe)
    requires AllIntact(s) && !HasBuffer(x)
    requires t.posted == s.posted + [x] && t.wire == s.wire + [[]] && t.store == s.store
    requires GivenBack(t) == GivenBack(s)
    ensures AllIntact(t)
  {
    forall j: nat | 0 <= GivenBack(t) <= j < |t.posted| ensures Intact(t.posted[j], t.wire[j], t.store) {
      if j < |s.posted| { assert Intact(s.posted[j], s.wire[j], s.store); }
    }
  }

  lemma IntactFrame(s: State, t: State)
    requires AllIntact(s) && 0 <= GivenBack(s) <= GivenBack(t)
    requires t.posted == s.posted && t.wire == s.wire && t.store == s.store
    ensures AllIntact(t)
  {
    forall j: nat | GivenBack(t) <= j < |t.posted| ensures Intact(t.posted[j], t.wire[j], t.store) {
      assert Intact(s.posted[j], s.wire[j], s.store);
    }
  }

  lemma LoopStepIntact(c: Config, s: State, step: Step)
    requires Bounded(c, s) && HistoryAligned(s) && AllIntact(s) && !Posting(step) && Enabled(c, s, step)
    ensures AllIntact(Next(c, s, step))
  {
    HistoriesGrow(c, s, step);
    DealtWithInOrder(c, s);
    LoopStepsKeepBytes(c, s, step);
    IntactFrame(s, Next(c, s, step));
  }

  lemma IntactStep(c: Config, s: State, step: Step)
    requires Sound(c, s) && RingSound(c, s) && AllIntact(s) && Enabled(c, s, step)
    requires step.KernelFill? ==> !HeadInUse(c, s)
    ensures AllIntact(Next(c, s, step))
  {
    if step.KernelFill? {
      FillLeavesIntact(c, s, step);
    } else if Posting(step) {
      PostsOne(c, s, step);
      QuietPostIntact(c, s, Next(c, s, step), Next(c, s, step).cq[|s.cq|]);
    } else {
      LoopStepIntact(c, s, step);
    }
  }

  // ----- exact outcomes -----

  lemma ExactGrows(c: Config, s: State, t: State)
    requires ReadsExact(c, s) && HistoryExtends(s, t) && |t.outcomes| <= |t.posted| == |t.wire|
    requires t.outcomes == s.outcomes || (|t.outcomes| == |s.outcomes| + 1 && |s.outcomes| < |s.posted|
               && (s.posted[|s.outcomes|].entry.op == Op(MultiRead) ==>
                     Exact(c, t.pushes, s.posted[|s.outcomes|], s.wire[|s.outcomes|], t.outcomes[|s.outcomes|])))
    ensures ReadsExact(c, t)
  {
    forall i | 0 <= i < |t.outcomes| && t.posted[i].entry.op == Op(MultiRead)
      ensures Exact(c, t.pushes, t.posted[i], t.wire[i], t.outcomes[i])
    {
      if i < |s.outcomes| { assert Exact(c, s.pushes, s.posted[i], s.wire[i], s.outcomes[i]); }
    }
  }

  /** Reading an intact completion gives exactly the outcome owed. */
  lemma ReadIsExact(c: Config, pushes: seq<Push>, x: Cqe, p: Ptr, store: seq<Buffer>, w: seq<Byte>)
    requires p < |pushes| && WellTagged(pushes[p]) && |store| == c.Buffers()
    requires Intact(x, w, store) && WireFits(c, x, w) && (!HasBuffer(x) ==> x.res <= 0)
    ensures DispatchRequest(pushes[p].request, x, store).0 == Expected(c, pushes, p, x, w)
  {
    DispatchIsExpected(c, pushes, x, p, store, w);
  }

  /** The handler of an intact completion of a multi-shot read sees exactly what the kernel wrote. */
  lemma DispatchIsExact(c: Config, s: State, t: State)
    requires Sound(c, s) && AllIntact(s) && WiresFit(c, s.posted, s.wire)
    requires Enabled(c, s, Dispatch) && t == Next(c, s, Dispatch)
    requires s.cq[s.phase.at].entry.op == Op(MultiRead)
    ensures var n := |s.outcomes|;
            && n < |s.posted| == |s.wire| && s.posted[n] == s.cq[s.phase.at] && |t.outcomes| == n + 1
            && Exact(c, s.pushes, s.posted[n], s.wire[n], t.outcomes[n])
  {
    CurrentCompletion(c, s);
    var x, n := s.cq[s.phase.at], |s.outcomes|;
    assert x == s.posted[n] && n == GivenBack(s);
    assert Intact(x, s.wire[n], s.store) && WireFits(c, x, s.wire[n]);
    MultiReadsThePush(s, x);
    ReadIsExact(c, s.pushes, x, x.entry.data.value, s.store, s.wire[n]);
  }

  lemma DispatchStaysExact(c: Config, s: State, t: State)
    requires Sound(c, s) && AllIntact(s) && WiresFit(c, s.posted, s.wire)
    requires Enabled(c, s, Dispatch) && t == Next(c, s, Dispatch)
    ensures var n := |s.outcomes|;
            && t.pushes == s.pushes && n < |s.posted| == |s.wire|
            && (t.outcomes == s.outcomes
                || (|t.outcomes| == n + 1
                    && (s.posted[n].entry.op == Op(MultiRead) ==>
                          Exact(c, s.pushes, s.posted[n], s.wire[n], t.outcomes[n]))))
  {
    CurrentCompletion(c, s);
    if s.cq[s.phase.at].entry.op == Op(MultiRead) { DispatchIsExact(c, s, t); }
  }

  lemma ExactStep(c: Config, s: State, step: Step)
    requires Sound(c, s) && AllIntact(s) && ReadsExact(c, s) && WiresFit(c, s.posted, s.wire)
    requires Enabled(c, s, step)
    ensures ReadsExact(c, Next(c, s, step))
  {
    assert |Next(c, s, step).outcomes| <= |Next(c, s, step).posted| == |Next(c, s, step).wire| by {
      StepIsSound(c, s, step);
    }
    HistoriesGrow(c, s, step);
    if step.Dispatch? { DispatchStaysExact(c, s, Next(c, s, step)); }
    ExactGrows(c, s, Next(c, s, step));
  }

  // ----- every run -----

  /** The `j`-th step is no fill of a buffer in use. */
  ghost predicate FillIsFree(c: Config, states: seq<State>, steps: seq<Step>, j: nat) {
    j < |steps| && j < |states| && (steps[j].KernelFill? ==> !HeadInUse(c, states[j]))
  }

  lemma ExactAt(c: Config, states: seq<State>, steps: seq<Step>, i: nat)
    requires IsRun(c, states, steps) && i < |steps| && FillIsFree(c, states, steps, i)
    requires AllIntact(states[i]) && ReadsExact(c, states[i])
    ensures AllIntact(states[i + 1]) && ReadsExact(c, states[i + 1])
  {
    RunIsSound(c, states, steps, i);
    RunKeepsRing(c, states, steps, i);
    RunKeepsWires(c, states, steps, i);
    assert StepAt(c, states, steps, i);
    IntactStep(c, states[i], steps[i]);
    ExactStep(c, states[i], steps[i]);
  }

  lemma NothingToCorrupt(c: Config, states: seq<State>, steps: seq<Step>)
    requires IsRun(c, states, steps)
    ensures AllIntact(states[0]) && ReadsExact(c, states[0])
  {
  }

  /** As long as no buffer in use is filled, every outcome so far is exactly the expected one, bytes
      included, and the bytes not dispatched yet are intact. */
  lemma {:induction false} ExactUnlessOverwritten(c: Config, states: seq<State>, steps: seq<Step>, i: nat)
    requires IsRun(c, states, steps) && i < |states|
    requires forall j: nat :: j < i ==> FillIsFree(c, states, steps, j)
    ensures AllIntact(states[i]) && ReadsExact(c, states[i])
  {
    if i > 0 {
      ExactUnlessOverwritten(c, states, steps, i - 1);
      assert FillIsFree(c, states, steps, i - 1);
      ExactAt(c, states, steps, i - 1);
    } else {
      NothingToCorrupt(c, states, steps);
    }
  }

  lemma EarnedBefore(c: Config, s: State, step: Step)
    requires Bounded(c, s) && HistoryAligned(s) && Enabled(c, s, step)
    requires AllEarned(Next(c, s, step), |Next(c, s, step).outcomes|)
    ensures AllEarned(s, |s.outcomes|)
    ensures step.GiveBack? ==> GivenBack(s) >= 0 && EarnedAt(s, GivenBack(s))
  {
    var t := Next(c, s, step);
    HistoriesGrow(c, s, step);
    DealtWithInOrder(c, s);
    forall j: nat | j < |s.outcomes| ensures EarnedAt(s, j) {
      assert EarnedAt(t, j);
      BalanceIsStable(s, t, j);
    }
  }

  lemma FillOfOffered(c: Config, s: State, step: Step)
    requires Sound(c, s) && RingSound(c, s) && NoneTwice(c, s) && step.KernelFill? && Enabled(c, s, step)
    ensures !HeadInUse(c, s)
  {
    HeadIsOffered(c, s, step);
    forall j: nat ensures !InUse(s, HeadId(c, s), j) { OfferedIsNotInUse(c, s, HeadId(c, s), j); }
  }

  lemma EarnedStep(c: Config, states: seq<State>, steps: seq<Step>, i: nat)
    requires IsRun(c, states, steps) && i < |steps|
    requires AllEarned(states[i + 1], |states[i + 1].outcomes|)
    ensures AllEarned(states[i], |states[i].outcomes|)
    ensures NoneTwice(c, states[i]) ==> NoneTwice(c, states[i + 1]) && FillIsFree(c, states, steps, i)
  {
    RunIsSound(c, states, steps, i);
    RunKeepsRing(c, states, steps, i);
    assert StepAt(c, states, steps, i);
    EarnedBefore(c, states[i], steps[i]);
    if NoneTwice(c, states[i]) {
      NoneTwiceStep(c, states[i], steps[i]);
      if steps[i].KernelFill? { FillOfOffered(c, states[i], steps[i]); }
    }
  }

  lemma StartsNoneTwice(c: Config, states: seq<State>, steps: seq<Step>)
    requires IsRun(c, states, steps)
    ensures NoneTwice(c, states[0])
  {
    InitConserves(c, states[0]);
  }

  /** While the loop gives back only what was lent, no id is in two places, and no buffer in use is
      filled. */
  lemma {:induction false} EarnedIsFree(c: Config, states: seq<State>, steps: seq<Step>, i: nat)
    requires IsRun(c, states, steps) && i < |states|
    requires AllEarned(states[i], |states[i].outcomes|)
    ensures NoneTwice(c, states[i])
    ensures forall j: nat :: j < i ==> FillIsFree(c, states, steps, j)
  {
    if i == 0 {
      StartsNoneTwice(c, states, steps);
    } else {
      EarnedStep(c, states, steps, i - 1);
      EarnedIsFree(c, states, steps, i - 1);
      assert forall j: nat :: j < i - 1 ==> FillIsFree(c, states, steps, j);
    }
  }

  lemma EarnedIsExact(c: Config, states: seq<State>, steps: seq<Step>, i: nat)
    requires IsRun(c, states, steps) && i < |states|
    requires AllEarned(states[i], |states[i].outcomes|)
    ensures AllIntact(states[i]) && ReadsExact(c, states[i]) && WiresFit(c, states[i].posted, states[i].wire)
  {
    EarnedIsFree(c, states, steps, i);
    ExactUnlessOverwritten(c, states, steps, i);
    RunKeepsWires(c, states, steps, i);
  }

  /** When only lent buffers are given back, each returned id goes behind those the ring offers: no slot that
      the kernel has not consumed is overwritten. */
  lemma {:induction false} ReturnAppendsInARun(c: Config, states: seq<State>, steps: seq<Step>, i: nat)
    requires IsRun(c, states, steps) && i < |steps| && steps[i].GiveBack?
    requires AllEarned(states[i], |states[i].outcomes|)
    ensures var (s, t) := (states[i], states[i + 1]);
            && s.phase.Handling? && s.phase.at < |s.cq|
            && (s.phase.giveBack ==>
                  && |Offered(c, s)| < c.Buffers()
                  && Offered(c, t) == Offered(c, s) + [BufferId(s.cq[s.phase.at])])
            && (!s.phase.giveBack ==> Offered(c, t) == Offered(c, s))
  {
    RunIsSound(c, states, steps, i);
    RunKeepsRing(c, states, steps, i);
    EarnedIsFree(c, states, steps, i);
    assert StepAt(c, states, steps, i);
    DealtWithInOrder(c, states[i]);
    assert EarnedAt(states[i], GivenBack(states[i]));
    ReturnGoesBehind(c, states[i], steps[i]);
  }

  /** The bytes of a read event from the ring. */
  function BytesOf(o: Outcome): seq<Byte> {
    if FromTheRing(o) then o.event.data.bytes else []
  }

  /** The payloads handed to the subscriber of `p`, in dispatch order. */
  ghost function Delivered(s: State, p: Ptr, n: nat): seq<Byte>
    requires n <= |s.outcomes| <= |s.posted|
  {
    if n == 0 then []
    else Delivered(s, p, n - 1)
         + (if s.posted[n - 1].entry.data == Some(p) then BytesOf(s.outcomes[n - 1]) else [])
  }

  /** The bytes the kernel wrote for `p`, in completion order. */
  ghost function Written(s: State, p: Ptr, n: nat): seq<Byte>
    requires n <= |s.posted| == |s.wire|
  {
    if n == 0 then []
    else Written(s, p, n - 1) + (if s.posted[n - 1].entry.data == Some(p) then s.wire[n - 1] else [])
  }

  lemma {:induction false} WrittenGrows(s: State, p: Ptr, n: nat, m: nat)
    requires n <= m <= |s.posted| == |s.wire|
    ensures Written(s, p, n) <= Written(s, p, m)
  {
    if n < m { WrittenGrows(s, p, n, m - 1); }
  }

  /** An exact outcome of a multi-shot read carries the bytes written for it; a cancel's, if no buffer is
      returned for it, carries none, as none were written. */
  lemma ExactCarriesBytes(c: Config, s: State, p: Ptr, i: nat)
    requires i < |s.outcomes| && ReadsExact(c, s) && WiresFit(c, s.posted, s.wire) && EarnedAt(s, i)
    requires p < |s.pushes| && s.pushes[p].kind.MultiRead? && s.pushes[p].request.header.subscriber != 0
    requires s.posted[i].entry.data == Some(p) && AnswersPointing(c, s.pushes, s.posted)
    ensures BytesOf(s.outcomes[i]) == s.wire[i]
  {
    var x := s.posted[i];
    assert Pointing(s.pushes, x.entry) && Plausible(c, x) && WireFits(c, x, s.wire[i]);
    if x.entry.op.Op? { assert Exact(c, s.pushes, x, s.wire[i], s.outcomes[i]); }
  }

  lemma {:induction false} DeliveredIsWritten(c: Config, s: State, p: Ptr, n: nat)
    requires n <= |s.outcomes| && ReadsExact(c, s) && WiresFit(c, s.posted, s.wire)
    requires AllEarned(s, |s.outcomes|) && AnswersPointing(c, s.pushes, s.posted)
    requires p < |s.pushes| && s.pushes[p].kind.MultiRead? && s.pushes[p].request.header.subscriber != 0
    ensures Delivered(s, p, n) == Written(s, p, n)
  {
    if n > 0 {
      DeliveredIsWritten(c, s, p, n - 1);
      assert EarnedAt(s, n - 1);
      if s.posted[n - 1].entry.data == Some(p) { ExactCarriesBytes(c, s, p, n - 1); }
    }
  }

  /** The received stream is preserved: while the loop gives back only buffers that were lent, the
      payloads delivered for a multi-shot read are, in order, the bytes the kernel wrote for the
      completions dispatched, hence a prefix of everything it wrote. */
  lemma {:induction false} StreamPreserved(c: Config, states: seq<State>, steps: seq<Step>, i: nat, p: Ptr)
    requires IsRun(c, states, steps) && i < |states|
    requires AllEarned(states[i], |states[i].outcomes|)
    requires p < |states[i].pushes| && states[i].pushes[p].kind.MultiRead?
    requires states[i].pushes[p].request.header.subscriber != 0
    ensures var s := states[i];
            && |s.outcomes| <= |s.posted| == |s.wire|
            && Delivered(s, p, |s.outcomes|) == Written(s, p, |s.outcomes|)
            && Delivered(s, p, |s.outcomes|) <= Written(s, p, |s.posted|)
  {
    RunIsSound(c, states, steps, i);
    EarnedIsExact(c, states, steps, i);
    var s := states[i];
    DeliveredIsWritten(c, s, p, |s.outcomes|);
    WrittenGrows(s, p, |s.outcomes|, |s.posted|);
  }

  /** Bytes aside the outcome is owed, and no bytes are owed: then it is the outcome owed. */
  lemma OwedWithoutBytes(o: Outcome, e: Outcome)
    requires Erase(o) == Erase(e) && !FromTheRing(e)
    ensures o == e
  {
  }

  /** Until a cancel has freed a block, the outcome of every request is then exactly the one owed to it, bytes
      included. */
  lemma {:induction false} OutcomesExact(c: Config, states: seq<State>, steps: seq<Step>, i: nat, j: nat)
    requires IsRun(c, states, steps) && i < |states| && j < |states[i].outcomes|
    requires AllEarned(states[i], |states[i].outcomes|) && Unharmed(states, steps, i)
    requires j < |states[i].posted| && states[i].posted[j].entry.op.Op?
    ensures var s := states[i];
            && |s.outcomes| <= |s.posted| == |s.wire|
            && Exact(c, s.pushes, s.posted[j], s.wire[j], s.outcomes[j])
  {
    EarnedIsExact(c, states, steps, i);
    OutcomesMatchPushes(c, states, steps, i, j);
    var s := states[i];
    if s.posted[j].entry.op != Op(MultiRead) {
      OwedWithoutBytes(s.outcomes[j], Expected(c, s.pushes, s.posted[j].entry.data.value, s.posted[j], s.wire[j]));
    }
  }

  lemma HandledBytes(c: Config, s: State)
    requires Sound(c, s) && AllEarned(s, |s.outcomes|)
    requires AllIntact(s) && WiresFit(c, s.posted, s.wire) && ReadsExact(c, s)
    requires s.phase.Handling? && s.phase.giveBack
    ensures var x := s.cq[s.phase.at];
            && BufferId(x) < |s.store| && 0 <= x.res <= |Prefix(s.store[BufferId(x)], x.res)|
            && BytesOf(s.outcomes[|s.outcomes| - 1]) == Prefix(s.store[BufferId(x)], x.res)
  {
    AtHand(c, s);
    CurrentCompletion(c, s);
    var x, n := s.cq[s.phase.at], |s.outcomes| - 1;
    assert EarnedAt(s, n);
    assert Intact(x, s.wire[n], s.store) && WireFits(c, x, s.wire[n]);
    assert Exact(c, s.pushes, s.posted[n], s.wire[n], s.outcomes[n]);
  }

  /** And while a handler runs, the bytes it was given are not overwritten. */
  lemma {:induction false} HandlerBytesAreStable(c: Config, states: seq<State>, steps: seq<Step>, i: nat)
    requires IsRun(c, states, steps) && i < |states|
    requires AllEarned(states[i], |states[i].outcomes|)
    requires states[i].phase.Handling? && states[i].phase.giveBack
    ensures var s := states[i];
            && s.phase.at < |s.cq| && |s.outcomes| > 0
            && var x := s.cq[s.phase.at];
               && BufferId(x) < |s.store| && 0 <= x.res <= |s.store[BufferId(x)]|
               && BytesOf(s.outcomes[|s.outcomes| - 1]) == s.store[BufferId(x)][..x.res]
  {
    EarnedIsExact(c, states, steps, i);
    RunIsSound(c, states, steps, i);
    HandledBytes(c, states[i]);
  }
}
