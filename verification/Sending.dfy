/** What reaches the submission queue, in every run: each push at most once, in order, and what the entries
    of cancels inherit from their slots. */
module Sending {
  import opened Bits
  import opened CircularQueue
  import opened Requests
  import opened Batches
  import opened Protocol
  import opened Lifecycle
  import opened Soundness
  import opened Runs

  /** A push is waiting, or was sent, or was dropped: exactly one of these, once. */
  ghost predicate SentOnce(s: State) {
    forall p: Ptr :: multiset(Waiting(s))[p] + Owners(Sent(s), p) + multiset(s.dropped)[p]
                     == if p < |s.pushes| then 1 else 0
  }

  /** The entry of a cancel has the user data left in its slot. */
  ghost predicate Inherits(c: Config, sent: seq<Sqe>, e: Sqe) {
    e.op.CancelFd? ==> e.data == LeftInSlot(c, sent)
  }

  /** What a step sends, if anything, goes behind everything sent before. */
  ghost predicate SendsLast(c: Config, s: State, t: State) {
    Sent(t) == Sent(s) || (exists e :: Sent(t) == Sent(s) + [e] && Inherits(c, Sent(s), e))
  }

  lemma SubmissionFrame(s: State, t: State)
    requires SentOnce(s) && Waiting(t) == Waiting(s) && t.dropped == s.dropped
    requires |t.pushes| == |s.pushes| && Sent(t) == Sent(s)
    ensures SentOnce(t)
  {
    forall p: Ptr ensures multiset(Waiting(t))[p] + Owners(Sent(t), p) + multiset(t.dropped)[p]
                          == if p < |t.pushes| then 1 else 0
    {
      assert multiset(Waiting(s))[p] + Owners(Sent(s), p) + multiset(s.dropped)[p]
             == if p < |s.pushes| then 1 else 0;
    }
  }

  lemma CountOneMore(xs: seq<Ptr>, ys: seq<Ptr>, q: Ptr, p: Ptr)
    requires multiset(ys) == multiset(xs) + multiset{q}
    ensures multiset(ys)[p] == multiset(xs)[p] + if p == q then 1 else 0
  {
  }

  lemma SubmissionPush(s: State, t: State, k: Kind)
    requires SentOnce(s) && !s.phase.Preparing? && t.phase == s.phase && |t.pushes| == |s.pushes| + 1
    requires t.pending == Append(s.pending, k, |s.pushes|) && t.dropped == s.dropped && Sent(t) == Sent(s)
    ensures SentOnce(t)
  {
    AppendAddsOne(s.pending, k, |s.pushes|);
    forall p: Ptr ensures multiset(Waiting(t))[p] + Owners(Sent(t), p) + multiset(t.dropped)[p]
                          == if p < |t.pushes| then 1 else 0
    {
      CountOneMore(Waiting(s), Waiting(t), |s.pushes|, p);
      assert multiset(Waiting(s))[p] + Owners(Sent(s), p) + multiset(s.dropped)[p]
             == if p < |s.pushes| then 1 else 0;
    }
  }

  /** Admitting an entry queues it last, or drops the request it points to. */
  lemma AdmitSends(c: Config, s: State, e: Sqe, room: nat)
    requires room <= |s.sq|
    ensures var t := Admit(c, s, e, room);
            && t == s.(sq := t.sq, flying := t.flying, armed := t.armed, received := t.received,
                       dropped := t.dropped)
            && (|s.sq| < c.sqCapacity || |s.sq| - room < c.sqCapacity ==>
                  Sent(t) == Sent(s) + [e] && t.dropped == s.dropped)
            && (|s.sq| >= c.sqCapacity && |s.sq| - room >= c.sqCapacity ==>
                  Sent(t) == Sent(s)
                  && t.dropped == if e.op.Op? && e.data.Some? then s.dropped + [e.data.value] else s.dropped)
  {
    TakeManyFrame(s, room);
    assert s.sq[..room] + s.sq[room..] == s.sq;
    assert s.received + s.sq[..room] + s.sq[room..] == Sent(s);
  }

  lemma CancelSends(c: Config, s: State, fd: int, room: nat)
    requires SentOnce(s) && room <= |s.sq|
    ensures var t := Admit(c, s, CancelEntry(fd, LeftInSlot(c, Sent(s))), room);
            SentOnce(t) && SendsLast(c, s, t)
  {
    var e := CancelEntry(fd, LeftInSlot(c, Sent(s)));
    var t := Admit(c, s, e, room);
    AdmitSends(c, s, e, room);
    assert Waiting(t) == Waiting(s);
    forall p: Ptr ensures multiset(Waiting(t))[p] + Owners(Sent(t), p) + multiset(t.dropped)[p]
                          == if p < |t.pushes| then 1 else 0
    {
      assert multiset(Waiting(s))[p] + Owners(Sent(s), p) + multiset(s.dropped)[p]
             == if p < |s.pushes| then 1 else 0;
      OwnersConcat(Sent(s), [e], p);
    }
  }

  /** A cancel is sent last, with the user data left in its slot, exactly when there is room; otherwise it
      is lost. */
  lemma {:induction false} CancelSentIffRoom(c: Config, states: seq<State>, steps: seq<Step>, i: nat)
    requires IsRun(c, states, steps) && i < |steps| && steps[i].Cancel?
    ensures var (s, t, step) := (states[i], states[i + 1], steps[i]);
            && (Sent(t) == Sent(s) + [Sqe(CancelFd, step.fd, 0, NO_GROUP, LeftInSlot(c, Sent(s)))]
                <==> |s.sq| < c.sqCapacity || |s.sq| - step.room < c.sqCapacity)
            && (|s.sq| >= c.sqCapacity && |s.sq| - step.room >= c.sqCapacity ==> Sent(t) == Sent(s))
            && t.dropped == s.dropped
  {
    var s := states[i];
    assert StepAt(c, states, steps, i);
    AdmitSends(c, s, CancelEntry(steps[i].fd, LeftInSlot(c, Sent(s))), steps[i].room);
  }

  /** Preparing one request: memory is read through a dangling pointer, or the request is queued last, or
      it is dropped. */
  lemma PrepareSends(c: Config, s: State, room: nat)
    requires Enabled(c, s, PrepareOne(room))
    ensures var p := InOrder(s.pending)[s.phase.done];
            var (a, t) := (AddressIn(s.pushes, p), Next(c, s, PrepareOne(room)));
            if a !in s.heap then t == s.(faulted := true)
            else
              && t == s.(sq := t.sq, flying := t.flying, armed := t.armed, received := t.received,
                         dropped := t.dropped, phase := Preparing(s.phase.done + 1))
              && (|s.sq| < c.sqCapacity || |s.sq| - room < c.sqCapacity ==>
                    && Sent(t) == Sent(s) + [EntryFor(KindAt(s.pending, s.phase.done), s.heap[a].content, p)]
                    && t.dropped == s.dropped)
              && (|s.sq| >= c.sqCapacity && |s.sq| - room >= c.sqCapacity ==>
                    Sent(t) == Sent(s) && t.dropped == s.dropped + [p])
  {
    var p := InOrder(s.pending)[s.phase.done];
    var a := AddressIn(s.pushes, p);
    if a in s.heap {
      AdmitSends(c, s, EntryFor(KindAt(s.pending, s.phase.done), s.heap[a].content, p), room);
    }
  }

  lemma MoveWaiting(s: State, t: State, e: Sqe, p: Ptr)
    requires SentOnce(s) && s.phase.Preparing? && s.phase.done < |InOrder(s.pending)|
    requires InOrder(s.pending)[s.phase.done] == p && Carries(e, p)
    requires t.pending == s.pending && t.phase == Preparing(s.phase.done + 1) && t.pushes == s.pushes
    requires || (Sent(t) == Sent(s) + [e] && t.dropped == s.dropped)
             || (Sent(t) == Sent(s) && t.dropped == s.dropped + [p])
    ensures SentOnce(t)
  {
    assert Waiting(s) == [p] + Waiting(t);
    forall q: Ptr ensures multiset(Waiting(t))[q] + Owners(Sent(t), q) + multiset(t.dropped)[q]
                          == if q < |t.pushes| then 1 else 0
    {
      assert multiset(Waiting(s))[q] + Owners(Sent(s), q) + multiset(s.dropped)[q]
             == if q < |s.pushes| then 1 else 0;
      OwnersConcat(Sent(s), [e], q);
    }
  }

  lemma PrepareSendsOnce(c: Config, s: State, room: nat)
    requires SentOnce(s) && Enabled(c, s, PrepareOne(room))
    ensures SentOnce(Next(c, s, PrepareOne(room))) && SendsLast(c, s, Next(c, s, PrepareOne(room)))
  {
    PrepareSends(c, s, room);
    var t, p := Next(c, s, PrepareOne(room)), InOrder(s.pending)[s.phase.done];
    if AddressIn(s.pushes, p) in s.heap {
      var e := EntryFor(KindAt(s.pending, s.phase.done), s.heap[AddressIn(s.pushes, p)].content, p);
      MoveWaiting(s, t, e, p);
      assert Inherits(c, Sent(s), e);
    } else {
      SubmissionFrame(s, t);
    }
  }

  /** The submission side is as it was. */
  ghost predicate SendsNothing(s: State, t: State) {
    Sent(t) == Sent(s) && Waiting(t) == Waiting(s) && t.dropped == s.dropped && t.pushes == s.pushes
  }

  lemma LoopSendsNothing(c: Config, s: State, step: Step)
    requires Bounded(c, s) && Enabled(c, s, step) && (QuietLoop(step) || step.GiveBack?)
    ensures SendsNothing(s, Next(c, s, step))
  {
  }

  lemma BatchEndsSendNothing(c: Config, s: State, step: Step)
    requires Bounded(c, s) && Enabled(c, s, step) && (step.BeginPrepare? || step.EndPrepare?)
    ensures SendsNothing(s, Next(c, s, step))
  {
    assert InOrder(Empty<Ptr>()) == [];
  }

  lemma KernelSendsNothing(c: Config, s: State, step: Step)
    requires Bounded(c, s) && Enabled(c, s, step) && (step.KernelTake? || Posting(step))
    ensures SendsNothing(s, Next(c, s, step))
  {
    if step.KernelTake? {
      assert [s.sq[0]] + s.sq[1..] == s.sq;
      assert Sent(Next(c, s, step)) == Sent(s);
    }
  }

  lemma ReleaseSendsNothing(c: Config, s: State, step: Step)
    requires Enabled(c, s, step) && step.Release?
    ensures SendsNothing(s, Next(c, s, step))
  {
    ReleaseFrame(c, s, step);
  }

  lemma OtherStepsSendNothing(c: Config, s: State, step: Step)
    requires Bounded(c, s) && Enabled(c, s, step)
    requires !step.PushRequest? && !step.PrepareOne? && !step.Cancel?
    ensures SendsNothing(s, Next(c, s, step))
  {
    if QuietLoop(step) || step.GiveBack? {
      LoopSendsNothing(c, s, step);
    } else if step.BeginPrepare? || step.EndPrepare? {
      BatchEndsSendNothing(c, s, step);
    } else if step.Release? {
      ReleaseSendsNothing(c, s, step);
    } else {
      KernelSendsNothing(c, s, step);
    }
  }

  lemma SubmissionStep(c: Config, s: State, step: Step)
    requires Bounded(c, s) && Enabled(c, s, step) && SentOnce(s)
    ensures SentOnce(Next(c, s, step)) && SendsLast(c, s, Next(c, s, step))
  {
    match step
    case PushRequest(_, k, _, _, _) => SubmissionPush(s, Next(c, s, step), k);
    case Cancel(fd, room) => CancelSends(c, s, fd, room);
    case PrepareOne(room) => PrepareSendsOnce(c, s, room);
    case _ =>
      OtherStepsSendNothing(c, s, step);
      SubmissionFrame(s, Next(c, s, step));
  }

  lemma SubmissionAt(c: Config, states: seq<State>, steps: seq<Step>, i: nat)
    requires IsRun(c, states, steps) && i < |steps| && SentOnce(states[i])
    ensures SentOnce(states[i + 1]) && SendsLast(c, states[i], states[i + 1])
  {
    RunIsSound(c, states, steps, i);
    assert StepAt(c, states, steps, i);
    SubmissionStep(c, states[i], steps[i]);
  }

  lemma NothingSentYet(c: Config, s: State)
    requires Init(c, s)
    ensures SentOnce(s) && Sent(s) == []
  {
    assert InOrder(s.pending) == [] && Sent(s) == [];
  }

  /** Over every run, each push is sent to the kernel at most once, and is otherwise still waiting or
      was dropped. */
  lemma EveryPushSentOnce(c: Config, states: seq<State>, steps: seq<Step>, i: nat)
    requires IsRun(c, states, steps) && i < |states|
    ensures SentOnce(states[i])
  {
    NothingSentYet(c, states[0]);
    forall j: nat | j + 1 < |states| ensures KeptAt(SentOnce, states, j) {
      if SentOnce(states[j]) { SubmissionAt(c, states, steps, j); }
    }
    KeptThroughout(SentOnce, states, i);
  }

  lemma SendsLastAt(c: Config, states: seq<State>, steps: seq<Step>, i: nat)
    requires IsRun(c, states, steps) && i < |steps|
    ensures SendsLast(c, states[i], states[i + 1])
  {
    EveryPushSentOnce(c, states, steps, i);
    SubmissionAt(c, states, steps, i);
  }

  /** The kernel receives entries in the order they were queued. */
  lemma {:induction false} SubmissionOrderIsKept(c: Config, states: seq<State>, steps: seq<Step>, i: nat, j: nat)
    requires IsRun(c, states, steps) && i <= j < |states|
    ensures Sent(states[i]) <= Sent(states[j])
  {
    if i < j {
      SubmissionOrderIsKept(c, states, steps, i, j - 1);
      SendsLastAt(c, states, steps, j - 1);
    }
  }

  // ----- what cancels inherit -----

  ghost predicate InheritsAt(c: Config, sent: seq<Sqe>, k: nat)
    requires k < |sent|
  {
    Inherits(c, sent[..k], sent[k])
  }

  /** Each cancel ever sent has the user data that its slot held. */
  ghost predicate AllInherit(c: Config, sent: seq<Sqe>) {
    forall k: nat :: k < |sent| ==> InheritsAt(c, sent, k)
  }

  lemma InheritOneMore(c: Config, sent: seq<Sqe>, e: Sqe)
    requires AllInherit(c, sent) && Inherits(c, sent, e)
    ensures AllInherit(c, sent + [e])
  {
    forall k: nat | k < |sent + [e]| ensures InheritsAt(c, sent + [e], k) {
      if k < |sent| {
        assert (sent + [e])[..k] == sent[..k] && InheritsAt(c, sent, k);
      } else {
        assert (sent + [e])[..k] == sent;
      }
    }
  }

  lemma InheritsNext(c: Config, s: State, t: State)
    requires AllInherit(c, Sent(s)) && SendsLast(c, s, t)
    ensures AllInherit(c, Sent(t))
  {
    if Sent(t) != Sent(s) {
      var e :| Sent(t) == Sent(s) + [e] && Inherits(c, Sent(s), e);
      InheritOneMore(c, Sent(s), e);
    }
  }

  lemma {:induction false} RunInherits(c: Config, states: seq<State>, steps: seq<Step>, i: nat)
    requires IsRun(c, states, steps) && i < |states|
    ensures AllInherit(c, Sent(states[i]))
  {
    if i == 0 {
      NothingSentYet(c, states[0]);
    } else {
      RunInherits(c, states, steps, i - 1);
      SendsLastAt(c, states, steps, i - 1);
      InheritsNext(c, states[i - 1], states[i]);
    }
  }

  /** The `m`-th entry used the slot of the `k`-th, an earlier lap of the queue before it. */
  predicate SameSlot(c: Config, m: nat, k: nat) {
    m < k && c.sqCapacity > 0 && m % c.sqCapacity == k % c.sqCapacity
  }

  /** The `m`-th entry is a request's, the last one in the slot of the `k`-th before it. */
  ghost predicate LastInSlot(c: Config, sent: seq<Sqe>, m: nat, k: nat)
    requires k <= |sent|
  {
    && SameSlot(c, m, k) && sent[m].op.Op?
    && forall n: nat :: m < n < k && SameSlot(c, n, k) ==> sent[n].op.CancelFd?
  }

  /** No request's entry has used the slot of the `k`-th before it. */
  ghost predicate FreshSlot(c: Config, sent: seq<Sqe>, k: nat)
    requires k <= |sent|
  {
    forall m: nat :: m < k && SameSlot(c, m, k) ==> sent[m].op.CancelFd?
  }

  lemma LapBefore(c: Config, k: nat)
    requires c.sqCapacity > 0
    ensures k >= c.sqCapacity ==> SameSlot(c, k - c.sqCapacity, k)
    ensures forall m: nat :: SameSlot(c, m, k) ==> k >= c.sqCapacity && m <= k - c.sqCapacity
    ensures k >= c.sqCapacity ==>
              forall m: nat :: SameSlot(c, m, k) && m != k - c.sqCapacity ==> SameSlot(c, m, k - c.sqCapacity)
    ensures k >= c.sqCapacity ==>
              forall m: nat :: SameSlot(c, m, k - c.sqCapacity) ==> SameSlot(c, m, k)
  {
    var cap := c.sqCapacity;
    if k >= cap { FullTurn(k - cap, cap); }
    forall m: nat | SameSlot(c, m, k) ensures k >= cap && m <= k - cap {
      if k < m + cap { SlotsDiffer(m, k, cap); }
    }
  }

  /** By induction on the laps: a cancel has the user data of the last request whose entry used its slot
      before, and none if there is no such request. */
  lemma {:induction false} InheritsFrom(c: Config, sent: seq<Sqe>, k: nat) returns (m: nat)
    requires c.sqCapacity > 0 && AllInherit(c, sent) && k < |sent| && sent[k].op.CancelFd?
    requires forall e :: e in sent && e.op.Op? ==> e.data.Some?
    ensures if FreshSlot(c, sent, k) then sent[k].data == None
            else LastInSlot(c, sent, m, k) && sent[k].data == sent[m].data != None
    decreases k
  {
    var cap := c.sqCapacity;
    assert InheritsAt(c, sent, k);
    LapBefore(c, k);
    m := 0;
    if k >= cap {
      var b := k - cap;
      assert LeftInSlot(c, sent[..k]) == sent[b].data;
      if sent[b].op.Op? {
        m := b;
      } else {
        m := InheritsFrom(c, sent, b);
      }
    }
  }
}
