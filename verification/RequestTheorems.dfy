/** What is known of requests, for every state of every run in which no cancel's completion has freed a
    block yet. */
module RequestTheorems {
  import opened Requests
  import opened Batches
  import opened Protocol
  import opened Lifecycle
  import opened Soundness
  import opened LifecycleSteps
  import opened Runs

  /** At the `j`-th step no cancel's completion frees a block. */
  ghost predicate HarmlessAt(states: seq<State>, steps: seq<Step>, j: nat) {
    j < |steps| && j < |states| && !CancelFrees(states[j], steps[j])
  }

  /** Nor before the `i`-th. */
  ghost predicate Unharmed(states: seq<State>, steps: seq<Step>, i: nat) {
    forall j: nat :: j < i ==> HarmlessAt(states, steps, j)
  }

  ghost predicate InvAt(c: Config, states: seq<State>, j: nat) {
    j < |states| && Inv(c, states[j])
  }

  lemma InvStep(c: Config, states: seq<State>, steps: seq<Step>, i: nat)
    requires IsRun(c, states, steps) && i < |steps| && InvAt(c, states, i)
    ensures InvAt(c, states, i + 1) <==> HarmlessAt(states, steps, i)
  {
    assert StepAt(c, states, steps, i);
    StepKeepsIff(c, states[i], steps[i]);
  }

  ghost function InvIn(c: Config, states: seq<State>): nat -> bool {
    (i: nat) => InvAt(c, states, i)
  }

  ghost function UnharmedIn(states: seq<State>, steps: seq<Step>): nat -> bool {
    (i: nat) => Unharmed(states, steps, i)
  }

  ghost function HarmlessIn(states: seq<State>, steps: seq<Step>): nat -> bool {
    (i: nat) => HarmlessAt(states, steps, i)
  }

  lemma UnharmedOneMore(states: seq<State>, steps: seq<Step>, i: nat)
    ensures Unharmed(states, steps, i + 1) <==> Unharmed(states, steps, i) && HarmlessAt(states, steps, i)
  {
  }

  lemma LostAt(c: Config, states: seq<State>, steps: seq<Step>, i: nat)
    requires IsRun(c, states, steps) && i < |steps|
    ensures LostTogether(InvIn(c, states), UnharmedIn(states, steps), HarmlessIn(states, steps), i)
  {
    UnharmedOneMore(states, steps, i);
    if InvAt(c, states, i) { InvStep(c, states, steps, i); }
  }

  lemma InvAtStart(c: Config, states: seq<State>, steps: seq<Step>)
    requires IsRun(c, states, steps)
    ensures InvIn(c, states)(0) && UnharmedIn(states, steps)(0)
  {
    InitKeeps(c, states[0]);
  }

  lemma HeldTogether(c: Config, states: seq<State>, steps: seq<Step>, i: nat)
    requires IsRun(c, states, steps) && i < |states|
    ensures (forall j: nat :: j <= i ==> InvIn(c, states)(j)) <==> UnharmedIn(states, steps)(i)
  {
    var held, owed, lossless := InvIn(c, states), UnharmedIn(states, steps), HarmlessIn(states, steps);
    InvAtStart(c, states, steps);
    forall j: nat | j < i ensures LostTogether(held, owed, lossless, j) { LostAt(c, states, steps, j); }
    LostTogetherUpTo(held, owed, lossless, i);
  }

  /** In every run, the request invariants hold up to a state exactly when no cancel's completion has freed
      a block before it. */
  lemma {:induction false} RunKeepsIff(c: Config, states: seq<State>, steps: seq<Step>, i: nat)
    requires IsRun(c, states, steps) && i < |states|
    ensures Unharmed(states, steps, i) <==> forall j: nat :: j <= i ==> InvAt(c, states, j)
  {
    HeldTogether(c, states, steps, i);
    assert forall j: nat :: InvIn(c, states)(j) <==> InvAt(c, states, j);
  }

  lemma {:induction false} RunKeeps(c: Config, states: seq<State>, steps: seq<Step>, i: nat)
    requires IsRun(c, states, steps) && i < |states| && Unharmed(states, steps, i)
    ensures Inv(c, states[i])
  {
    RunKeepsIff(c, states, steps, i);
    assert InvAt(c, states, i);
  }

  // ----- memory -----

  /** The completion that the loop visits next, or is handling. */
  ghost predicate AtCompletion(s: State, x: Cqe) {
    && (s.phase.Reaping? || s.phase.Handling? || s.phase.Handled?)
    && s.phase.at < |s.cq| && x == s.cq[s.phase.at]
  }

  /** The completion about to be dispatched has user data, the address of no block. */
  ghost predicate DanglingCompletion(s: State) {
    && s.phase.Reaping? && s.phase.at < |s.cq| && s.cq[s.phase.at].entry.data.Some?
    && AddressIn(s.pushes, s.cq[s.phase.at].entry.data.value) !in s.heap
  }

  /** The completion about to be released has no user data. */
  ghost predicate NullCompletion(s: State) {
    s.phase.Handled? && s.phase.at < |s.cq| && s.cq[s.phase.at].entry.data.None?
  }

  lemma ReleaseFaultsIff(c: Config, s: State, step: Step)
    requires Sound(c, s) && Enabled(c, s, step) && step.Release?
    ensures Next(c, s, step).faulted <==> NullCompletion(s)
  {
    if s.cq[s.phase.at].entry.data.Some? { ReleaseFrees(c, s, s.cq[s.phase.at].entry.data.value); }
  }

  lemma PrepareDoesNotFault(c: Config, s: State, room: nat)
    requires Inv(c, s) && Enabled(c, s, PrepareOne(room))
    ensures !Next(c, s, PrepareOne(room)).faulted
  {
    PrepareIsAdmit(c, s, room);
    TakeManyFrame(s, room);
  }

  lemma StepFaultsIff(c: Config, s: State, step: Step)
    requires Inv(c, s) && Enabled(c, s, step)
    ensures Next(c, s, step).faulted <==>
              (step.Dispatch? && DanglingCompletion(s)) || (step.Release? && NullCompletion(s))
  {
    if step.PrepareOne? {
      PrepareDoesNotFault(c, s, step.room);
    } else if step.Cancel? {
      UserStepsMoveNoCompletion(c, s, step);
    } else if step.Release? {
      ReleaseFaultsIff(c, s, step);
    }
  }

  /** Only the completion of a cancel can name no block, or dangle. */
  lemma OnlyCancelsFault(c: Config, s: State)
    requires Inv(c, s) && (DanglingCompletion(s) || NullCompletion(s))
    ensures s.cq[s.phase.at].entry.op == CancelFd
  {
    CurrentCompletion(c, s);
    if s.cq[s.phase.at].entry.op.Op? { ReapReadsThePush(c, s, s.cq[s.phase.at].entry.data.value); }
  }

  /** An address holds no block exactly when each request allocated there has been freed. */
  lemma {:induction false} DanglingIff(c: Config, s: State, a: nat)
    requires Inv(c, s)
    ensures a !in s.heap <==> forall q: Ptr :: q < |s.pushes| && s.pushes[q].addr == a ==> q in s.freed
  {
    if a in s.heap {
      assert Justified(s.heap, s.pushes, s.freed, a);
    } else {
      forall q: Ptr | q < |s.pushes| && s.pushes[q].addr == a ensures q in s.freed {
        assert InPlace(s.heap, s.pushes, s.freed, q);
      }
    }
  }

  /** Memory safety, exactly: with addresses reused freely, a step accesses memory through a null, dangling
      or mistyped pointer if and only if it dispatches the completion of a cancel whose inherited user data
      is the address of requests that have all been freed, or releases that of one that inherited none. */
  lemma FaultIff(c: Config, states: seq<State>, steps: seq<Step>, i: nat)
    requires IsRun(c, states, steps) && i < |steps| && Unharmed(states, steps, i)
    ensures var (s, t, step) := (states[i], states[i + 1], steps[i]);
            && (t.faulted <==> (step.Dispatch? && DanglingCompletion(s)) || (step.Release? && NullCompletion(s)))
            && (DanglingCompletion(s) || NullCompletion(s) ==> s.cq[s.phase.at].entry.op == CancelFd)
    ensures var s := states[i];
            s.phase.Reaping? && s.phase.at < |s.cq| && s.cq[s.phase.at].entry.data.Some? ==>
              var a := AddressIn(s.pushes, s.cq[s.phase.at].entry.data.value);
              DanglingCompletion(s) <==>
                forall q: Ptr :: q < |s.pushes| && s.pushes[q].addr == a ==> q in s.freed
  {
    var s := states[i];
    RunKeeps(c, states, steps, i);
    assert StepAt(c, states, steps, i);
    StepFaultsIff(c, s, steps[i]);
    if DanglingCompletion(s) || NullCompletion(s) { OnlyCancelsFault(c, s); }
    if s.phase.Reaping? && s.phase.at < |s.cq| && s.cq[s.phase.at].entry.data.Some? {
      DanglingIff(c, s, AddressIn(s.pushes, s.cq[s.phase.at].entry.data.value));
    }
  }

  /** The type a request's completion is read as, the type it is deallocated as, the type it was allocated
      as and the operation the kernel performed are one and the same. */
  lemma TypesAgree(c: Config, states: seq<State>, steps: seq<Step>, i: nat, x: Cqe, p: Ptr)
    requires IsRun(c, states, steps) && i < |states| && Unharmed(states, steps, i)
    requires AtCompletion(states[i], x) && Carries(x.entry, p)
    ensures var s := states[i];
            && p < |s.pushes| && AddressIn(s.pushes, p) in s.heap
            && var b := s.heap[AddressIn(s.pushes, p)];
               && b.birth == p && b.content == s.pushes[p].request && b.content.header.IsValid()
               && KindOfTag(b.content.header.op) == Some(b.kind) && b.kind == s.pushes[p].kind
               && x.entry.op == Op(b.kind)
  {
    RunKeeps(c, states, steps, i);
    ReapReadsThePush(c, states[i], p);
  }

  lemma UnreleasedIsPosted(s: State, j: nat)
    requires HistoryAligned(s) && Released(s) <= j < |s.cq|
    ensures j - Released(s) < |Unreleased(s)| && Unreleased(s)[j - Released(s)] == s.cq[j]
    ensures s.cq[j] == s.posted[|s.posted| - |s.cq| + j]
  {
  }

  lemma UnreleasedIsLive(c: Config, s: State, j: nat, p: Ptr)
    requires OneStageEach(s) && FreedOnce(s.pushes, s.freed) && HeapIsExact(s.heap, s.pushes, s.freed)
    requires AnswersPointing(c, s.pushes, s.posted) && HistoryAligned(s)
    requires Released(s) <= j < |s.cq| && Carries(s.cq[j].entry, p)
    ensures p < |s.pushes| && p !in s.freed && AddressIn(s.pushes, p) in s.heap
    ensures s.heap[AddressIn(s.pushes, p)] == Block(p, s.pushes[p].kind, s.pushes[p].request)
  {
    UnreleasedIsPosted(s, j);
    AnsweredIsLive(s, j - Released(s), p);
    assert InPlace(s.heap, s.pushes, s.freed, p);
  }

  /** No completion of a request that is still to be visited refers to freed or reused memory. */
  lemma CompletionsAreLive(c: Config, states: seq<State>, steps: seq<Step>, i: nat, j: nat, p: Ptr)
    requires IsRun(c, states, steps) && i < |states| && Unharmed(states, steps, i)
    requires Released(states[i]) <= j < |states[i].cq| && Carries(states[i].cq[j].entry, p)
    ensures var s := states[i];
            && p < |s.pushes| && p !in s.freed && AddressIn(s.pushes, p) in s.heap
            && s.heap[AddressIn(s.pushes, p)] == Block(p, s.pushes[p].kind, s.pushes[p].request)
  {
    RunKeeps(c, states, steps, i);
    UnreleasedIsLive(c, states[i], j, p);
  }

  lemma LivesIff(c: Config, s: State, p: Ptr)
    requires Inv(c, s) && p < |s.pushes|
    ensures Stages(s, p) == 1
    ensures AddressIn(s.pushes, p) in s.heap && s.heap[AddressIn(s.pushes, p)].birth == p
            <==> LiveStages(s, p) == 1
  {
    assert InPlace(s.heap, s.pushes, s.freed, p);
    assert p in s.freed <==> multiset(s.freed)[p] >= 1;
    if AddressIn(s.pushes, p) in s.heap {
      assert Justified(s.heap, s.pushes, s.freed, AddressIn(s.pushes, p));
    }
  }

  /** The live blocks are exactly the allocations that are waiting, queued, in the kernel, answered but not
      released, or dropped; each is there once, and every address in the heap holds one of them. */
  lemma LiveIffInOneStage(c: Config, states: seq<State>, steps: seq<Step>, i: nat)
    requires IsRun(c, states, steps) && i < |states| && Unharmed(states, steps, i)
    ensures var s := states[i];
            forall p: Ptr :: p < |s.pushes| ==>
              && Stages(s, p) == 1
              && (AddressIn(s.pushes, p) in s.heap && s.heap[AddressIn(s.pushes, p)].birth == p
                  <==> LiveStages(s, p) == 1)
    ensures var s := states[i];
            forall a: nat :: a in s.heap ==>
              && s.heap[a].birth < |s.pushes| && s.pushes[s.heap[a].birth].addr == a
              && LiveStages(s, s.heap[a].birth) == 1
  {
    RunKeeps(c, states, steps, i);
    var s := states[i];
    forall p: Ptr | p < |s.pushes|
      ensures Stages(s, p) == 1
      ensures AddressIn(s.pushes, p) in s.heap && s.heap[AddressIn(s.pushes, p)].birth == p
              <==> LiveStages(s, p) == 1
    {
      LivesIff(c, s, p);
    }
    forall a: nat | a in s.heap
      ensures s.heap[a].birth < |s.pushes| && s.pushes[s.heap[a].birth].addr == a
      ensures LiveStages(s, s.heap[a].birth) == 1
    {
      assert Justified(s.heap, s.pushes, s.freed, a);
      LivesIff(c, s, s.heap[a].birth);
    }
  }

  // ----- by type -----

  /** In every run, an accept and a multi-shot read are never freed: their blocks stay as they were pushed. */
  lemma MultiShotStays(c: Config, states: seq<State>, steps: seq<Step>, i: nat, p: Ptr)
    requires IsRun(c, states, steps) && i < |states| && p < |states[i].pushes|
    requires states[i].pushes[p].kind.Accept? || states[i].pushes[p].kind.MultiRead?
    ensures var s := states[i];
            && p !in s.freed && s.pushes[p].addr in s.heap
            && s.heap[s.pushes[p].addr] == Block(p, s.pushes[p].kind, s.pushes[p].request)
  {
    RunIsSound(c, states, steps, i);
    assert MultiInPlace(states[i].heap, states[i].pushes, p);
    assert BlockSound(states[i].heap, states[i].pushes, states[i].pushes[p].addr);
  }

  /** In every run, a release frees the block at the user data of the completion, and nothing else, if it is
      that of a read, a write or a connect, and nothing if it is that of an accept or a multi-shot read. */
  lemma ReleasesByType(c: Config, states: seq<State>, steps: seq<Step>, i: nat)
    requires IsRun(c, states, steps) && i < |steps| && steps[i].Release? && !states[i + 1].faulted
    ensures var (s, t) := (states[i], states[i + 1]);
            && s.phase.Handled? && s.phase.at < |s.cq| && s.cq[s.phase.at].entry.data.Some?
            && var a := AddressIn(s.pushes, s.cq[s.phase.at].entry.data.value);
               && a in s.heap
               && match s.heap[a].kind
                  case Accept => t.heap == s.heap && t.freed == s.freed
                  case MultiRead => t.heap == s.heap && t.freed == s.freed
                  case Read => t.heap == s.heap - {a} && t.freed == s.freed + [s.heap[a].birth]
                  case Write => t.heap == s.heap - {a} && t.freed == s.freed + [s.heap[a].birth]
                  case Connect => t.heap == s.heap - {a} && t.freed == s.freed + [s.heap[a].birth]
  {
    RunIsSound(c, states, steps, i);
    assert StepAt(c, states, steps, i);
    ReleaseFrees(c, states[i], states[i].cq[states[i].phase.at].entry.data.value);
  }

  /** In every run, what the kernel keeps for good once it has received it are the accepts and the multi-shot
      reads; what it answers once are the reads, writes, connects and cancels. */
  lemma ArmedByType(c: Config, states: seq<State>, steps: seq<Step>, i: nat, e: Sqe)
    requires IsRun(c, states, steps) && i < |states|
    ensures e in states[i].armed ==> e.op == Op(Accept) || e.op == Op(MultiRead)
    ensures e in states[i].flying ==> e.op == Op(Read) || e.op == Op(Write) || e.op == Op(Connect) || e.op == CancelFd
  {
    RunIsSound(c, states, steps, i);
    assert e in states[i].armed ==> Recurs(e);
    assert e in states[i].flying ==> !Recurs(e);
  }

  /** The dispatch of a request's own completion is what is owed, by type: one notification of the subscriber
      given to `add`, or an error of the loop if that is null or the flags name no buffer. */
  lemma NotifiesTheSubscriber(c: Config, states: seq<State>, steps: seq<Step>, i: nat, x: Cqe, p: Ptr)
    requires IsRun(c, states, steps) && i < |steps| && Unharmed(states, steps, i) && steps[i].Dispatch?
    requires AtCompletion(states[i], x) && Carries(x.entry, p)
    ensures var (s, t) := (states[i], states[i + 1]);
            && p < |s.pushes| && |t.outcomes| == |s.outcomes| + 1
            && var (r, sub, o) := (s.pushes[p].request, s.pushes[p].request.header.subscriber,
                                   t.outcomes[|s.outcomes|]);
               if sub == 0 then o == LoopError(NoSubscriber)
               else if x.res < 0 then o == Notified(sub, ErrorEvent(-x.res))
               else
                 match s.pushes[p].kind
                 case Accept => o == Notified(sub, AcceptEvent(x.res))
                 case Connect => o == Notified(sub, ConnectEvent)
                 case Read => o == Notified(sub, ReadEvent(r.fd, FromCaller(x.res)))
                 case MultiRead =>
                   o == if BufferId(x) < |s.store|
                        then Notified(sub, ReadEvent(r.fd, FromRing(Prefix(s.store[BufferId(x)], x.res))))
                        else LoopError(InvalidBufferId)
                 case Write => o == Notified(sub, WriteEvent(x.res, r.length))
  {
    var s := states[i];
    RunKeeps(c, states, steps, i);
    assert StepAt(c, states, steps, i);
    ReapReadsThePush(c, s, p);
    assert KindOfTag(Tag(s.pushes[p].kind)) == Some(s.pushes[p].kind);
    NotifiesByKind(s.pushes[p].request, s.pushes[p].kind, x, s.store);
  }

  // ----- exactly once -----

  /** A single-shot request is answered, over the whole history, exactly as often as it is awaiting
      release or freed. */
  ghost predicate Ledger(s: State) {
    forall p: Ptr :: Answers(s.posted, p) == Answers(Unreleased(s), p) + multiset(s.freed)[p]
  }

  lemma LedgerFrame(s: State, t: State)
    requires Ledger(s) && t.posted == s.posted && Unreleased(t) == Unreleased(s) && t.freed == s.freed
    ensures Ledger(t)
  {
    forall p: Ptr ensures Answers(t.posted, p) == Answers(Unreleased(t), p) + multiset(t.freed)[p] {
      assert Answers(s.posted, p) == Answers(Unreleased(s), p) + multiset(s.freed)[p];
    }
  }

  lemma LedgerPost(s: State, t: State, x: Cqe)
    requires Ledger(s) && t.posted == s.posted + [x] && Unreleased(t) == Unreleased(s) + [x]
    requires t.freed == s.freed
    ensures Ledger(t)
  {
    forall p: Ptr ensures Answers(t.posted, p) == Answers(Unreleased(t), p) + multiset(t.freed)[p] {
      assert Answers(s.posted, p) == Answers(Unreleased(s), p) + multiset(s.freed)[p];
      AnswersConcat(s.posted, [x], p);
      AnswersConcat(Unreleased(s), [x], p);
    }
  }

  lemma LedgerRelease(s: State, t: State, x: Cqe)
    requires Ledger(s) && t.posted == s.posted && Unreleased(s) == [x] + Unreleased(t)
    requires x.entry.op.Op? ==> x.entry.data.Some?
    requires t.freed == if x.entry.op.Op? && !Recurs(x.entry) then s.freed + [x.entry.data.value] else s.freed
    ensures Ledger(t)
  {
    forall q: Ptr ensures Answers(t.posted, q) == Answers(Unreleased(t), q) + multiset(t.freed)[q] {
      assert Answers(s.posted, q) == Answers(Unreleased(s), q) + multiset(s.freed)[q];
      AnswersConcat([x], Unreleased(t), q);
    }
  }

  lemma LedgerKernelStep(c: Config, s: State, step: Step)
    requires Sound(c, s) && Ledger(s) && Posting(step) && Enabled(c, s, step)
    ensures Ledger(Next(c, s, step))
  {
    var t, x := Next(c, s, step), Answer(c, s, step);
    AnswerPosts(c, s, step);
    assert Unreleased(t) == Unreleased(s) + [x];
    LedgerPost(s, t, x);
  }

  lemma LedgerOfRelease(s: State, t: State, x: Cqe)
    requires Ledger(s) && s.phase.Handled? && s.phase.at < |s.cq| && x == s.cq[s.phase.at]
    requires t.phase == Reaping(s.phase.at + 1) && t.cq == s.cq && t.posted == s.posted
    requires x.entry.op.Op? ==> x.entry.data.Some?
    requires t.freed == if x.entry.op.Op? && !Recurs(x.entry) then s.freed + [x.entry.data.value] else s.freed
    ensures Ledger(t)
  {
    assert Unreleased(s) == [x] + Unreleased(t);
    LedgerRelease(s, t, x);
  }

  lemma LedgerReleaseStep(c: Config, s: State, step: Step)
    requires Inv(c, s) && Ledger(s) && Enabled(c, s, step) && step.Release? && !CancelFrees(s, step)
    ensures Ledger(Next(c, s, step))
  {
    var t, x := Next(c, s, step), s.cq[s.phase.at];
    CurrentCompletion(c, s);
    if x.entry.op.Op? {
      ReapReadsThePush(c, s, x.entry.data.value);
      ReleaseFreesThePush(c, s, x.entry.data.value);
      LedgerOfRelease(s, t, x);
    } else {
      ReleaseOfCancel(c, s, step);
      if x.entry.data.Some? { LedgerOfRelease(s, t, x); } else { LedgerFrame(s, t); }
    }
  }

  lemma LedgerLoopStep(c: Config, s: State, step: Step)
    requires Bounded(c, s) && Ledger(s) && Enabled(c, s, step)
    requires !step.PrepareOne? && !step.Cancel? && !step.Release? && !Posting(step)
    ensures Ledger(Next(c, s, step))
  {
    if QuietUser(step) {
      QuietUserFrame(c, s, step);
    } else if QuietLoop(step) {
      QuietLoopFrame(c, s, step);
    } else if step.KernelTake? {
      TakeFrame(c, s, step);
    }
    LedgerFrame(s, Next(c, s, step));
  }

  lemma LedgerStep(c: Config, s: State, step: Step)
    requires Inv(c, s) && Enabled(c, s, step) && Ledger(s) && !CancelFrees(s, step)
    ensures Ledger(Next(c, s, step))
  {
    if Posting(step) {
      LedgerKernelStep(c, s, step);
    } else if step.Release? {
      LedgerReleaseStep(c, s, step);
    } else if step.PrepareOne? || step.Cancel? {
      UserStepsMoveNoCompletion(c, s, step);
      LedgerFrame(s, Next(c, s, step));
    } else {
      LedgerLoopStep(c, s, step);
    }
  }

  lemma LedgerAt(c: Config, states: seq<State>, steps: seq<Step>, i: nat)
    requires IsRun(c, states, steps) && i < |steps| && Ledger(states[i]) && Inv(c, states[i])
    requires HarmlessAt(states, steps, i)
    ensures Ledger(states[i + 1])
  {
    assert StepAt(c, states, steps, i);
    LedgerStep(c, states[i], steps[i]);
  }

  lemma {:induction false} RunKeepsLedger(c: Config, states: seq<State>, steps: seq<Step>, i: nat)
    requires IsRun(c, states, steps) && i < |states| && Unharmed(states, steps, i)
    ensures Ledger(states[i])
  {
    if i > 0 {
      RunKeepsLedger(c, states, steps, i - 1);
      RunKeeps(c, states, steps, i - 1);
      LedgerAt(c, states, steps, i - 1);
    }
  }

  lemma {:induction false} AnsweredTwice(xs: seq<Cqe>, i: nat, j: nat, p: Ptr)
    requires i < j < |xs| && Carries(xs[i].entry, p) && Carries(xs[j].entry, p)
    requires !Recurs(xs[i].entry) && !Recurs(xs[j].entry)
    ensures Answers(xs, p) >= 2
  {
    if i == 0 { AnswersSuffix(xs[1..], j - 1, p); } else { AnsweredTwice(xs[1..], i - 1, j - 1, p); }
  }

  lemma {:induction false} AnsweredSomewhere(xs: seq<Cqe>, p: Ptr) returns (i: nat)
    requires Answers(xs, p) >= 1
    ensures i < |xs| && Carries(xs[i].entry, p) && !Recurs(xs[i].entry)
  {
    if Carries(xs[0].entry, p) && !Recurs(xs[0].entry) {
      i := 0;
    } else {
      var k := AnsweredSomewhere(xs[1..], p);
      i := k + 1;
    }
  }

  /** A single-shot request is answered at most once, however often its address is reused. */
  lemma SingleShotOnce(c: Config, states: seq<State>, steps: seq<Step>, n: nat, i: nat, j: nat, p: Ptr)
    requires IsRun(c, states, steps) && n < |states| && Unharmed(states, steps, n)
    requires i < |states[n].posted| && j < |states[n].posted|
    requires Carries(states[n].posted[i].entry, p) && Carries(states[n].posted[j].entry, p)
    requires p < |states[n].pushes|
    requires var k := states[n].pushes[p].kind; k.Read? || k.Write? || k.Connect?
    ensures i == j
  {
    RunKeeps(c, states, steps, n);
    RunKeepsLedger(c, states, steps, n);
    var s := states[n];
    assert Genuine(s.pushes, s.posted[i].entry) && Genuine(s.pushes, s.posted[j].entry);
    assert Stages(s, p) <= 1;
    assert Answers(s.posted, p) == Answers(Unreleased(s), p) + multiset(s.freed)[p];
    if i < j { AnsweredTwice(s.posted, i, j, p); } else if j < i { AnsweredTwice(s.posted, j, i, p); }
  }

  /** How many completions have been released since the start. */
  ghost function ReleasedEver(s: State): int {
    |s.posted| - |s.cq| + Released(s)
  }

  lemma SplitHistory(posted: seq<Cqe>, cq: seq<Cqe>, r: nat)
    requires |cq| <= |posted| && cq == posted[|posted| - |cq|..] && r <= |cq|
    ensures posted == posted[..|posted| - |cq| + r] + cq[r..]
  {
    assert cq[r..] == posted[|posted| - |cq| + r..];
  }

  lemma FreedIsReleasedAnswer(s: State, p: Ptr)
    requires Ledger(s) && HistoryAligned(s) && Released(s) <= |s.cq|
    ensures 0 <= ReleasedEver(s) <= |s.posted|
    ensures multiset(s.freed)[p] == Answers(s.posted[..ReleasedEver(s)], p)
  {
    SplitHistory(s.posted, s.cq, Released(s));
    AnswersConcat(s.posted[..ReleasedEver(s)], s.cq[Released(s)..], p);
    assert Answers(s.posted, p) == Answers(Unreleased(s), p) + multiset(s.freed)[p];
  }

  lemma AnsweredIff(pushes: seq<Push>, posted: seq<Cqe>, n: nat, p: Ptr)
    requires AnswersGenuine(pushes, posted) && n <= |posted| && p < |pushes|
    ensures Answers(posted[..n], p) >= 1 <==>
              !IsMultiShot(pushes[p].kind) && exists i: nat :: i < n && Carries(posted[i].entry, p)
  {
    if Answers(posted[..n], p) >= 1 {
      var i := AnsweredSomewhere(posted[..n], p);
      assert Carries(posted[i].entry, p) && Genuine(pushes, posted[i].entry);
    }
    if !IsMultiShot(pushes[p].kind) && exists i: nat :: i < n && Carries(posted[i].entry, p) {
      var i: nat :| i < n && Carries(posted[i].entry, p);
      assert Genuine(pushes, posted[i].entry);
      AnswersSuffix(posted[..n], i, p);
    }
  }

  /** A request is freed exactly when it is single-shot and its completion has been released, hence
      after its handler ran; it is then freed once. */
  lemma FreedIffReleased(c: Config, states: seq<State>, steps: seq<Step>, n: nat, p: Ptr)
    requires IsRun(c, states, steps) && n < |states| && Unharmed(states, steps, n) && p < |states[n].pushes|
    ensures var s := states[n];
            && ReleasedEver(s) <= |s.outcomes| <= |s.posted|
            && multiset(s.freed)[p] <= 1
            && (p in s.freed <==>
                  && (s.pushes[p].kind.Read? || s.pushes[p].kind.Write? || s.pushes[p].kind.Connect?)
                  && exists i: nat :: i < ReleasedEver(s) && Carries(s.posted[i].entry, p))
  {
    RunKeeps(c, states, steps, n);
    RunKeepsLedger(c, states, steps, n);
    var s := states[n];
    FreedIsReleasedAnswer(s, p);
    AnsweredIff(s.pushes, s.posted, ReleasedEver(s), p);
    assert Stages(s, p) == 1;
    assert p in s.freed <==> multiset(s.freed)[p] >= 1;
  }

  /** Every completion the loop has visited had exactly one outcome, in completion order. That of a request
      is the one owed to it: a single notification of the subscriber given to `add`, of the kind matching
      the operation, or a single error of the loop. */
  lemma OutcomesMatchPushes(c: Config, states: seq<State>, steps: seq<Step>, n: nat, i: nat)
    requires IsRun(c, states, steps) && n < |states| && Unharmed(states, steps, n)
    requires i < |states[n].outcomes|
    ensures var s := states[n];
            && |s.outcomes| == Visited(s) <= |s.posted| == |s.wire|
            && Owed(c, s.pushes, s.posted[i], s.wire[i], s.outcomes[i])
  {
    RunKeeps(c, states, steps, n);
  }

  /** A request's entry asks for the operation, descriptor and length of the request pushed, multi-shot reads
      with the buffer group; a cancel's has neither length nor group. */
  ghost predicate AsksWhatWasPushed(pushes: seq<Push>, e: Sqe) {
    match e.op
    case Op(k) =>
      && e.data.Some? && e.data.value < |pushes|
      && var push := pushes[e.data.value];
         && k == push.kind && e.fd == push.request.fd && e.length == push.request.length
         && (e.group == BUFFER_GROUP_ID <==> k.MultiRead?)
    case CancelFd => e.length == 0 && e.group == NO_GROUP && (e.data.Some? ==> e.data.value < |pushes|)
  }

  /** The entries in the queue or in the kernel describe the requests pushed. */
  lemma {:induction false} EntriesMatchPushes(c: Config, states: seq<State>, steps: seq<Step>, n: nat, e: Sqe)
    requires IsRun(c, states, steps) && n < |states| && Unharmed(states, steps, n)
    requires e in states[n].sq || e in states[n].flying || e in states[n].armed
    ensures AsksWhatWasPushed(states[n].pushes, e)
  {
    RunKeeps(c, states, steps, n);
    var s := states[n];
    assert Genuine(s.pushes, e) && Pointing(s.pushes, e);
    assert e.op.Op? ==> WellTagged(s.pushes[e.data.value]);
  }

  /** A push records what the caller asked for, with the tag of its type, for its subscriber. */
  lemma {:induction false} PushRecordsTheCall(c: Config, states: seq<State>, steps: seq<Step>, i: nat)
    requires IsRun(c, states, steps) && i < |steps| && steps[i].PushRequest?
    ensures var (s, t, step) := (states[i], states[i + 1], steps[i]);
            && |t.pushes| == |s.pushes| + 1 && t.pushes[..|s.pushes|] == s.pushes
            && var push := t.pushes[|s.pushes|];
               && push.addr == step.addr && t.heap == s.heap[step.addr := Block(|s.pushes|, push.kind, push.request)]
               && push.kind == step.kind && push.request.fd == step.fd && push.request.length == step.length
               && push.request.header.subscriber == step.subscriber && push.request.header.IsValid()
               && (push.request.group == BUFFER_GROUP_ID <==> step.kind.MultiRead?)
               && KindOfTag(push.request.header.op) == Some(step.kind)
    ensures multiset(Waiting(states[i + 1])) == multiset(Waiting(states[i])) + multiset{|states[i].pushes|}
  {
    assert StepAt(c, states, steps, i);
    AppendAddsOne(states[i].pending, steps[i].kind, |states[i].pushes|);
    assert Waiting(states[i + 1]) == InOrder(states[i + 1].pending);
  }
}
