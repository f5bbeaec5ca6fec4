/** Every completion answers an entry sent; what becomes of a request that found the queue full twice. */
module DroppedRequests {
  import opened Requests
  import opened Batches
  import opened Protocol
  import opened Lifecycle
  import opened Soundness
  import opened Runs
  import opened RequestTheorems
  import opened Sending

  /** The kernel works on, and answers, entries it has received. */
  ghost predicate AllReceived(s: State) {
    && (forall e :: e in s.flying || e in s.armed ==> e in s.received)
    && (forall i :: 0 <= i < |s.posted| ==> s.posted[i].entry in s.received)
  }

  lemma AdmitReceives(c: Config, s: State, e: Sqe, room: nat)
    requires AllReceived(s) && room <= |s.sq|
    ensures AllReceived(Admit(c, s, e, room)) && s.dropped <= Admit(c, s, e, room).dropped
  {
    TakeManyKeepsAny((t: State) => AllReceived(t), s, room);
    TakeManyFrame(s, room);
  }

  lemma PrepareReceives(c: Config, s: State, room: nat)
    requires AllReceived(s) && Enabled(c, s, PrepareOne(room))
    ensures AllReceived(Next(c, s, PrepareOne(room))) && s.dropped <= Next(c, s, PrepareOne(room)).dropped
  {
    var p := InOrder(s.pending)[s.phase.done];
    if AddressIn(s.pushes, p) in s.heap {
      var e := EntryFor(KindAt(s.pending, s.phase.done), s.heap[AddressIn(s.pushes, p)].content, p);
      AdmitReceives(c, s, e, room);
    }
  }

  lemma PostReceives(s: State, step: Step, c: Config)
    requires AllReceived(s) && Enabled(c, s, step) && Posting(step)
    ensures AllReceived(Next(c, s, step)) && s.dropped <= Next(c, s, step).dropped
  {
  }

  lemma StepReceives(c: Config, s: State, step: Step)
    requires Bounded(c, s) && AllReceived(s) && Enabled(c, s, step)
    ensures AllReceived(Next(c, s, step)) && s.dropped <= Next(c, s, step).dropped
  {
    match step
    case Cancel(fd, room) => AdmitReceives(c, s, CancelEntry(fd, LeftInSlot(c, Sent(s))), room);
    case PrepareOne(room) => PrepareReceives(c, s, room);
    case KernelComplete(_, _, _) => PostReceives(s, step, c);
    case KernelShot(_, _, _) => PostReceives(s, step, c);
    case KernelFill(_, _, _, _) => PostReceives(s, step, c);
    case KernelTake =>
    case GiveBack =>
    case Release => ReleaseFrame(c, s, step);
    case _ => if QuietUser(step) { QuietUserFrame(c, s, step); } else { QuietLoopFrame(c, s, step); }
  }

  lemma ReceivesAt(c: Config, states: seq<State>, steps: seq<Step>, i: nat)
    requires IsRun(c, states, steps) && i < |steps| && AllReceived(states[i])
    ensures AllReceived(states[i + 1]) && states[i].dropped <= states[i + 1].dropped
  {
    RunIsSound(c, states, steps, i);
    assert StepAt(c, states, steps, i);
    StepReceives(c, states[i], steps[i]);
  }

  /** No completion appears from nowhere: each answers an entry that the kernel took. */
  lemma {:induction false} AnswersWereReceived(c: Config, states: seq<State>, steps: seq<Step>, i: nat)
    requires IsRun(c, states, steps) && i < |states|
    ensures AllReceived(states[i])
  {
    if i > 0 {
      AnswersWereReceived(c, states, steps, i - 1);
      ReceivesAt(c, states, steps, i - 1);
    }
  }

  lemma {:induction false} DroppedStays(c: Config, states: seq<State>, steps: seq<Step>, i: nat, j: nat)
    requires IsRun(c, states, steps) && i <= j < |states|
    ensures states[i].dropped <= states[j].dropped
  {
    if i < j {
      DroppedStays(c, states, steps, i, j - 1);
      AnswersWereReceived(c, states, steps, j - 1);
      ReceivesAt(c, states, steps, j - 1);
    }
  }

  lemma {:induction false} OwnedEntry(es: seq<Sqe>, e: Sqe, p: Ptr)
    requires e in es && Carries(e, p)
    ensures Owners(es, p) >= 1
  {
    if es[0] != e { OwnedEntry(es[1..], e, p); }
  }

  /** In every run, a dropped request is never sent and never answered, although `add` reported success. */
  lemma DroppedIsForgotten(c: Config, states: seq<State>, steps: seq<Step>, i: nat, j: nat, p: Ptr)
    requires IsRun(c, states, steps) && i <= j < |states| && p in states[i].dropped
    ensures var s := states[j];
            && p < |s.pushes| && p in s.dropped
            && (forall e :: e in Sent(s) ==> !Carries(e, p))
            && (forall k :: 0 <= k < |s.posted| ==> !Carries(s.posted[k].entry, p))
  {
    var s := states[j];
    DroppedStays(c, states, steps, i, j);
    EveryPushSentOnce(c, states, steps, j);
    AnswersWereReceived(c, states, steps, j);
    assert multiset(s.dropped)[p] >= 1;
    assert multiset(Waiting(s))[p] + Owners(Sent(s), p) + multiset(s.dropped)[p] == 1;
    forall e | e in Sent(s) ensures !Carries(e, p) {
      if Carries(e, p) { OwnedEntry(Sent(s), e, p); }
    }
  }

  /** Nor is its block ever freed, unless by a cancel's completion. */
  lemma DroppedIsKept(c: Config, states: seq<State>, steps: seq<Step>, i: nat, j: nat, p: Ptr)
    requires IsRun(c, states, steps) && i <= j < |states| && p in states[i].dropped && Unharmed(states, steps, j)
    ensures var s := states[j];
            && p < |s.pushes| && AddressIn(s.pushes, p) in s.heap
            && s.heap[AddressIn(s.pushes, p)] == Block(p, s.pushes[p].kind, s.pushes[p].request)
  {
    var s := states[j];
    DroppedIsForgotten(c, states, steps, i, j, p);
    RunKeeps(c, states, steps, j);
    assert multiset(s.dropped)[p] >= 1;
    assert Stages(s, p) == 1;
    assert p in s.freed ==> multiset(s.freed)[p] >= 1;
    assert InPlace(s.heap, s.pushes, s.freed, p);
  }
}
