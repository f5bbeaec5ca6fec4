/** What the completion of a cancel does: its user data is what an older request left in the slot. */
module Cancels {
  import opened Requests
  import opened Batches
  import opened BufferRings
  import opened Protocol
  import opened Lifecycle
  import opened Soundness
  import opened LifecycleSteps
  import opened Runs
  import opened RequestTheorems
  import opened Sending
  import opened DroppedRequests

  lemma SentHaveData(c: Config, s: State)
    requires Sound(c, s)
    ensures forall e :: e in Sent(s) && e.op.Op? ==> e.data.Some?
  {
    forall e | e in Sent(s) && e.op.Op? ensures e.data.Some? {
      assert e in s.received || e in s.sq;
      assert Pointing(s.pushes, e);
    }
  }

  /** In every run, a cancel has the user data of the last request whose entry used its slot on an earlier
      lap of the queue, and none exactly if there is no such request. */
  lemma CancelsInherit(c: Config, states: seq<State>, steps: seq<Step>, i: nat, k: nat) returns (m: nat)
    requires IsRun(c, states, steps) && i < |states|
    requires k < |Sent(states[i])| && Sent(states[i])[k].op.CancelFd?
    ensures var sent := Sent(states[i]);
            if FreshSlot(c, sent, k) then sent[k].data == None
            else LastInSlot(c, sent, m, k) && sent[k].data == sent[m].data != None
  {
    RunInherits(c, states, steps, i);
    RunIsSound(c, states, steps, i);
    SentHaveData(c, states[i]);
    m := InheritsFrom(c, Sent(states[i]), k);
  }

  /** So has its completion. */
  lemma CompletionsInherit(c: Config, states: seq<State>, steps: seq<Step>, i: nat, j: nat) returns (k: nat, m: nat)
    requires IsRun(c, states, steps) && i < |states|
    requires j < |states[i].posted| && states[i].posted[j].entry.op.CancelFd?
    ensures var (sent, e) := (Sent(states[i]), states[i].posted[j].entry);
            && k < |sent| && sent[k] == e
            && if FreshSlot(c, sent, k) then e.data == None
               else LastInSlot(c, sent, m, k) && e.data.Some? && Carries(sent[m], e.data.value)
  {
    var s := states[i];
    AnswersWereReceived(c, states, steps, i);
    k :| k < |s.received| && s.received[k] == s.posted[j].entry;
    m := CancelsInherit(c, states, steps, i, k);
  }

  /** The bytes now in the buffer that a completion's flags name. */
  ghost function BytesNow(store: seq<Buffer>, x: Cqe): seq<Byte> {
    if BufferId(x) < |store| then Prefix(store[BufferId(x)], x.res) else []
  }

  /** The request allocated where the completion of a cancel points to. */
  ghost function Victim(s: State, x: Cqe): Ptr
    requires x.entry.data.Some? && AddressIn(s.pushes, x.entry.data.value) in s.heap
  {
    s.heap[AddressIn(s.pushes, x.entry.data.value)].birth
  }

  /** The inherited address holds the request that inherited it, if not freed, or the one allocated there
      since. */
  lemma VictimIsLive(c: Config, s: State, x: Cqe)
    requires Inv(c, s) && !s.phase.Idle? && !s.phase.Preparing? && s.phase.at < |s.cq| && x == s.cq[s.phase.at]
    requires x.entry.data.Some? && AddressIn(s.pushes, x.entry.data.value) in s.heap
    ensures var (p, q) := (x.entry.data.value, Victim(s, x));
            && p < |s.pushes| && q < |s.pushes| && s.pushes[q].addr == s.pushes[p].addr
            && q !in s.freed && LiveStages(s, q) == 1 && (p !in s.freed ==> q == p)
            && s.heap[s.pushes[p].addr] == Block(q, s.pushes[q].kind, s.pushes[q].request)
            && WellTagged(s.pushes[q])
  {
    CurrentCompletion(c, s);
    var p, q := x.entry.data.value, Victim(s, x);
    assert BlockSound(s.heap, s.pushes, s.pushes[p].addr);
    assert Justified(s.heap, s.pushes, s.freed, s.pushes[p].addr);
    assert InPlace(s.heap, s.pushes, s.freed, p);
    LivesIff(c, s, q);
  }

  /** What is decided from the memory of a request is what is owed to it, with the bytes now in the buffer. */
  lemma DecidedAsOwed(c: Config, pushes: seq<Push>, x: Cqe, q: Ptr, store: seq<Buffer>)
    requires q < |pushes| && WellTagged(pushes[q]) && |store| == c.Buffers()
    ensures var o := Expected(c, pushes, q, x, BytesNow(store, x));
            DispatchRequest(pushes[q].request, x, store) == (o, FromTheRing(o))
  {
    DispatchIsExpected(c, pushes, x, q, store, BytesNow(store, x));
  }

  lemma VictimIsTold(c: Config, s: State, x: Cqe)
    requires Inv(c, s) && Enabled(c, s, Dispatch) && x == s.cq[s.phase.at]
    requires x.entry.data.Some? && AddressIn(s.pushes, x.entry.data.value) in s.heap
    ensures var q := Victim(s, x);
            && q < |s.pushes|
            && var o := Expected(c, s.pushes, q, x, BytesNow(s.store, x));
               Next(c, s, Dispatch) == s.(outcomes := s.outcomes + [o], phase := Handling(s.phase.at, FromTheRing(o)))
  {
    VictimIsLive(c, s, x);
    DecidedAsOwed(c, s.pushes, x, Victim(s, x), s.store);
  }

  /** The dispatch of a cancel's completion tells the subscriber of the request at the inherited address:
      the one that had the slot before, if not freed, or the one allocated there since. It is told what
      would be owed to that request if the kernel had given it the result of the cancel. */
  lemma CancelTells(c: Config, states: seq<State>, steps: seq<Step>, i: nat)
    requires IsRun(c, states, steps) && i < |steps| && Unharmed(states, steps, i) && steps[i].Dispatch?
    requires var s := states[i];
             && s.phase.Reaping? && s.phase.at < |s.cq| && s.cq[s.phase.at].entry.op.CancelFd?
             && s.cq[s.phase.at].entry.data.Some? && !DanglingCompletion(s)
    ensures var (s, t) := (states[i], states[i + 1]);
            var x := s.cq[s.phase.at];
            var (p, q) := (x.entry.data.value, Victim(s, x));
            && p < |s.pushes| && q < |s.pushes| && s.pushes[q].addr == s.pushes[p].addr
            && q !in s.freed && LiveStages(s, q) == 1 && (p !in s.freed ==> q == p)
            && var o := Expected(c, s.pushes, q, x, BytesNow(s.store, x));
               t == s.(outcomes := s.outcomes + [o], phase := Handling(s.phase.at, FromTheRing(o)))
  {
    var s := states[i];
    var x := s.cq[s.phase.at];
    RunKeeps(c, states, steps, i);
    assert StepAt(c, states, steps, i);
    VictimIsLive(c, s, x);
    VictimIsTold(c, s, x);
  }

  /** The release of a cancel's completion, when it is the first to free a block: the request that the block
      was allocated for is still waiting, queued, in the kernel, answered but not released, or dropped. */
  lemma CancelFreesLive(c: Config, states: seq<State>, steps: seq<Step>, i: nat)
    requires IsRun(c, states, steps) && i < |steps| && Unharmed(states, steps, i)
    requires CancelFrees(states[i], steps[i])
    ensures var (s, t) := (states[i], states[i + 1]);
            var x := s.cq[s.phase.at];
            var (p, q) := (x.entry.data.value, Victim(s, x));
            && p < |s.pushes| && q < |s.pushes| && s.pushes[q].addr == s.pushes[p].addr
            && q !in s.freed && (p !in s.freed ==> q == p)
            && t.freed == s.freed + [q] && s.pushes[q].addr !in t.heap && LiveStages(t, q) == 1
  {
    RunKeeps(c, states, steps, i);
    assert StepAt(c, states, steps, i);
    VictimIsLive(c, states[i], states[i].cq[states[i].phase.at]);
    FreedWhileLive(c, states[i], steps[i]);
    ReleaseOfCancel(c, states[i], steps[i]);
  }

  // ----- runs without cancels -----

  ghost predicate OnlyRequests(s: State) {
    && (forall e :: e in s.sq || e in s.flying || e in s.armed ==> e.op.Op?)
    && (forall i :: 0 <= i < |s.posted| ==> s.posted[i].entry.op.Op?)
  }

  lemma TakeManyOnlyRequests(s: State, room: nat)
    requires OnlyRequests(s) && room <= |s.sq|
    ensures OnlyRequests(TakeMany(s, room))
  {
    TakeManyKeepsAny((t: State) => OnlyRequests(t), s, room);
  }

  lemma AdmitOnlyRequests(c: Config, s: State, e: Sqe, room: nat)
    requires OnlyRequests(s) && e.op.Op? && room <= |s.sq|
    ensures OnlyRequests(Admit(c, s, e, room))
  {
    TakeManyOnlyRequests(s, room);
  }

  lemma PrepareOnlyRequests(c: Config, s: State, room: nat)
    requires OnlyRequests(s) && Enabled(c, s, PrepareOne(room))
    ensures OnlyRequests(Next(c, s, PrepareOne(room)))
  {
    var p := InOrder(s.pending)[s.phase.done];
    if AddressIn(s.pushes, p) in s.heap {
      var e := EntryFor(KindAt(s.pending, s.phase.done), s.heap[AddressIn(s.pushes, p)].content, p);
      AdmitOnlyRequests(c, s, e, room);
    }
  }

  lemma OnlyRequestsStep(c: Config, s: State, step: Step)
    requires Bounded(c, s) && OnlyRequests(s) && Enabled(c, s, step) && !step.Cancel?
    ensures OnlyRequests(Next(c, s, step))
  {
    match step
    case PrepareOne(room) => PrepareOnlyRequests(c, s, room);
    case Release => ReleaseFrame(c, s, step);
    case KernelComplete(_, _, _) =>
    case KernelShot(_, _, _) =>
    case KernelFill(_, _, _, _) =>
    case KernelTake =>
    case GiveBack =>
    case _ => if QuietUser(step) { QuietUserFrame(c, s, step); } else { QuietLoopFrame(c, s, step); }
  }

  lemma OnlyRequestsAt(c: Config, states: seq<State>, steps: seq<Step>, i: nat)
    requires IsRun(c, states, steps) && i < |steps| && OnlyRequests(states[i]) && !steps[i].Cancel?
    ensures OnlyRequests(states[i + 1])
  {
    RunIsSound(c, states, steps, i);
    assert StepAt(c, states, steps, i);
    OnlyRequestsStep(c, states[i], steps[i]);
  }

  lemma OnlyRequestsAreHarmless(c: Config, states: seq<State>, steps: seq<Step>, i: nat)
    requires IsRun(c, states, steps) && i < |steps| && OnlyRequests(states[i]) && Unharmed(states, steps, i)
    ensures HarmlessAt(states, steps, i) && !states[i + 1].faulted
  {
    var s := states[i];
    RunKeeps(c, states, steps, i);
    FaultIff(c, states, steps, i);
    if CancelFrees(s, steps[i]) || NullCompletion(s) || DanglingCompletion(s) { CurrentCompletion(c, s); }
  }

  /** A run without cancels never accesses memory through a null, dangling or mistyped pointer, and keeps
      all that is known of requests. */
  lemma {:induction false} WithoutCancels(c: Config, states: seq<State>, steps: seq<Step>, i: nat)
    requires IsRun(c, states, steps) && i < |states|
    requires forall j: nat :: j < i ==> !steps[j].Cancel?
    ensures !states[i].faulted && Unharmed(states, steps, i) && OnlyRequests(states[i])
  {
    if i > 0 {
      WithoutCancels(c, states, steps, i - 1);
      OnlyRequestsAreHarmless(c, states, steps, i - 1);
      UnharmedOneMore(states, steps, i - 1);
      OnlyRequestsAt(c, states, steps, i - 1);
    }
  }
}
