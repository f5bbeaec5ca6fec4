/** Locks, batches and callbacks under every interleaving of one loop thread with any number of
    other threads. There is one lock for the pending requests and one for each event handler
    (subscribers, and the error handler of the loop). */
module Threads {
  import opened Requests
  import opened Batches

  const LOOP: nat := 0

  type Pushed = Item<nat>

  datatype Lock = PendingLock | HandlerLock(handler: nat)

  /** The critical sections of the code. */
  datatype Task =
    | PushTask(item: Pushed)        // SubmissionQueue::push
    | RegisterTask(handler: nat)    // EventHandler::on
    | PrepareTask                   // SubmissionQueue::preparePendingRequests
    | HandleTask(handler: nat)      // EventHandler::handle, which runs the callback

  function LockOf(task: Task): Lock {
    match task
    case PushTask(_) => PendingLock
    case PrepareTask => PendingLock
    case RegisterTask(h) => HandlerLock(h)
    case HandleTask(h) => HandlerLock(h)
  }

  /** A critical section being waited for, being executed, or executed and about to unlock. */
  datatype Frame = Waiting(task: Task) | Inside(task: Task, at: nat) | Finished(task: Task)

  /** `stacks[t]` are the nested critical sections of thread `t`, innermost last. The fields after
      `vectors` are histories. */
  datatype State = State(
    stacks: seq<seq<Frame>>,
    owners: map<Lock, nat>,
    vectors: Vectors<Pushed>,
    pushed: seq<Pushed>,
    current: seq<Pushed>,          // visited by the batch under way
    batches: seq<seq<Pushed>>,     // visited by the batches completed
    cuts: seq<nat>)                // how many pushes each completed batch had behind it

  ghost predicate Init(s: State) {
    && |s.stacks| > 0 && (forall t :: 0 <= t < |s.stacks| ==> s.stacks[t] == [])
    && s.owners == map[] && s.vectors == Empty()
    && s.pushed == [] && s.current == [] && s.batches == [] && s.cuts == [0]
  }

  datatype Step = Start(t: nat, task: Task) | Acquire(t: nat) | Work(t: nat) | Unlock(t: nat)

  function Top(stack: seq<Frame>): Frame
    requires stack != []
  {
    stack[|stack| - 1]
  }

  function WithTop(stack: seq<Frame>, f: Frame): seq<Frame>
    requires stack != []
  {
    stack[..|stack| - 1] + [f]
  }

  /** Any thread may push or register a callback; only the loop prepares batches and handles events;
      a callback may itself push, or register callbacks. */
  predicate MayStart(t: nat, stack: seq<Frame>, task: Task) {
    if stack == [] then task.PushTask? || task.RegisterTask? || t == LOOP
    else
      && t == LOOP && |stack| == 1 && stack[0].Inside? && stack[0].task.HandleTask?
      && (task.PushTask? || task.RegisterTask?)
  }

  predicate Enabled(s: State, step: Step) {
    && step.t < |s.stacks|
    && var stack := s.stacks[step.t];
       match step
       case Start(t, task) => MayStart(t, stack, task)
       case Acquire(_) => stack != [] && Top(stack).Waiting? && LockOf(Top(stack).task) !in s.owners
       case Work(_) => stack != [] && Top(stack).Inside?
       case Unlock(_) => stack != [] && Top(stack).Finished?
  }

  /** One step inside a critical section. A batch visits one request at a time, then clears. */
  function WorkOn(s: State, t: nat, task: Task, at: nat): State
    requires t < |s.stacks| && s.stacks[t] != []
  {
    var done := s.stacks[t := WithTop(s.stacks[t], Finished(task))];
    match task
    case PushTask(x) =>
      s.(stacks := done, vectors := Append(s.vectors, x.kind, x), pushed := s.pushed + [x])
    case PrepareTask =>
      if at < |InOrder(s.vectors)|
      then s.(stacks := s.stacks[t := WithTop(s.stacks[t], Inside(task, at + 1))],
              current := s.current + [InOrder(s.vectors)[at]])
      else s.(stacks := done, vectors := Empty(), current := [],
              batches := s.batches + [s.current], cuts := s.cuts + [|s.pushed|])
    case RegisterTask(_) => s.(stacks := done)
    case HandleTask(_) => s.(stacks := done)
  }

  function Next(s: State, step: Step): State
    requires Enabled(s, step)
  {
    var t := step.t;
    var stack := s.stacks[t];
    match step
    case Start(_, task) => s.(stacks := s.stacks[t := stack + [Waiting(task)]])
    case Acquire(_) =>
      var task := Top(stack).task;
      s.(stacks := s.stacks[t := WithTop(stack, Inside(task, 0))], owners := s.owners[LockOf(task) := t])
    case Work(_) => WorkOn(s, t, Top(stack).task, Top(stack).at)
    case Unlock(_) =>
      s.(stacks := s.stacks[t := stack[..|stack| - 1]], owners := s.owners - {LockOf(Top(stack).task)})
  }

  ghost predicate StepAt(states: seq<State>, steps: seq<Step>, i: nat)
    requires |states| == |steps| + 1 && i < |steps|
  {
    Enabled(states[i], steps[i]) && states[i + 1] == Next(states[i], steps[i])
  }

  ghost predicate IsRun(states: seq<State>, steps: seq<Step>) {
    && |states| == |steps| + 1 && Init(states[0])
    && forall i: nat :: i < |steps| ==> StepAt(states, steps, i)
  }

  // ----- locks -----

  ghost predicate FrameHolds(f: Frame, l: Lock) {
    !f.Waiting? && LockOf(f.task) == l
  }

  ghost predicate HoldsLock(stack: seq<Frame>, l: Lock) {
    (|stack| > 0 && FrameHolds(stack[0], l)) || (|stack| > 1 && FrameHolds(stack[1], l))
  }

  /** Threads other than the loop are in at most one critical section; the loop nests one, and only
      inside a callback. */
  ghost predicate WellStacked(t: nat, stack: seq<Frame>) {
    && |stack| <= 2
    && (t != LOOP && stack != [] ==>
          |stack| == 1 && (stack[0].task.PushTask? || stack[0].task.RegisterTask?))
    && (|stack| == 2 ==>
          && t == LOOP && stack[0].Inside? && stack[0].task.HandleTask?
          && (stack[1].task.PushTask? || stack[1].task.RegisterTask?)
          && (!stack[1].Waiting? ==> LockOf(stack[1].task) != LockOf(stack[0].task)))
  }

  /** Each lock is held by its owner and by no one else. */
  ghost predicate Exclusive(s: State) {
    && (forall t: nat, l: Lock :: t < |s.stacks| && HoldsLock(s.stacks[t], l) ==>
          l in s.owners && s.owners[l] == t)
    && (forall l: Lock :: l in s.owners ==>
          s.owners[l] < |s.stacks| && HoldsLock(s.stacks[s.owners[l]], l))
  }

  ghost predicate LocksOk(s: State) {
    && |s.stacks| > 0
    && (forall t: nat :: t < |s.stacks| ==> WellStacked(t, s.stacks[t]))
    && Exclusive(s)
  }

  lemma OneOwner(s: State, t: nat, u: nat, l: Lock)
    requires Exclusive(s) && t < |s.stacks| && u < |s.stacks|
    requires HoldsLock(s.stacks[t], l) && HoldsLock(s.stacks[u], l)
    ensures t == u
  {
    assert l in s.owners && s.owners[l] == t;
  }

  lemma StartKeepsLocks(s: State, step: Step)
    requires LocksOk(s) && Enabled(s, step) && step.Start?
    ensures LocksOk(Next(s, step))
  {
    var t := Next(s, step);
    forall u: nat, l: Lock | u < |s.stacks| ensures HoldsLock(t.stacks[u], l) <==> HoldsLock(s.stacks[u], l) {}
  }

  lemma AcquireKeepsLocks(s: State, step: Step)
    requires LocksOk(s) && Enabled(s, step) && step.Acquire?
    ensures LocksOk(Next(s, step))
  {
    var t := Next(s, step);
    var m := LockOf(Top(s.stacks[step.t]).task);
    forall u: nat, l: Lock | u < |s.stacks|
      ensures HoldsLock(t.stacks[u], l) <==> HoldsLock(s.stacks[u], l) || (u == step.t && l == m)
    {}
    assert !HoldsLock(s.stacks[step.t], m);
  }

  lemma WithTopHolds(stack: seq<Frame>, f: Frame, l: Lock)
    requires 1 <= |stack| <= 2 && !Top(stack).Waiting? && !f.Waiting? && f.task == Top(stack).task
    ensures HoldsLock(WithTop(stack, f), l) <==> HoldsLock(stack, l)
  {
  }

  /** Only the top frame of thread `i` changes, and keeps its lock. */
  lemma SameLocks(s: State, t: State, i: nat, f: Frame)
    requires LocksOk(s) && i < |s.stacks| && s.stacks[i] != [] && Top(s.stacks[i]).Inside?
    requires !f.Waiting? && f.task == Top(s.stacks[i]).task
    requires t.stacks == s.stacks[i := WithTop(s.stacks[i], f)] && t.owners == s.owners
    ensures LocksOk(t)
  {
    assert WellStacked(i, s.stacks[i]);
    forall u: nat, l: Lock | u < |s.stacks| ensures HoldsLock(t.stacks[u], l) <==> HoldsLock(s.stacks[u], l) {
      if u == i { WithTopHolds(s.stacks[i], f, l); }
    }
  }

  lemma WorkKeepsLocks(s: State, step: Step)
    requires LocksOk(s) && Enabled(s, step) && step.Work?
    ensures LocksOk(Next(s, step))
  {
    var t := Next(s, step);
    SameLocks(s, t, step.t, Top(t.stacks[step.t]));
  }

  lemma UnlockKeepsLocks(s: State, step: Step)
    requires LocksOk(s) && Enabled(s, step) && step.Unlock?
    ensures LocksOk(Next(s, step))
  {
    var t := Next(s, step);
    var m := LockOf(Top(s.stacks[step.t]).task);
    assert HoldsLock(s.stacks[step.t], m);
    forall u: nat, l: Lock | u < |s.stacks|
      ensures HoldsLock(t.stacks[u], l) <==> HoldsLock(s.stacks[u], l) && l != m
    {
      assert WellStacked(step.t, s.stacks[step.t]);
      if u != step.t && HoldsLock(s.stacks[u], m) { OneOwner(s, u, step.t, m); }
    }
  }

  lemma {:induction false} StepKeepsLocks(s: State, step: Step)
    requires LocksOk(s) && Enabled(s, step)
    ensures LocksOk(Next(s, step))
  {
    match step
    case Start(_, _) => StartKeepsLocks(s, step);
    case Acquire(_) => AcquireKeepsLocks(s, step);
    case Work(_) => WorkKeepsLocks(s, step);
    case Unlock(_) => UnlockKeepsLocks(s, step);
  }

  // ----- batches -----

  ghost function Uncut(s: State): seq<Pushed> {
    if s.cuts != [] && s.cuts[|s.cuts| - 1] <= |s.pushed| then s.pushed[s.cuts[|s.cuts| - 1]..] else []
  }

  ghost predicate Preparing(s: State) {
    |s.stacks| > 0 && |s.stacks[LOOP]| == 1 && s.stacks[LOOP][0].Inside? && s.stacks[LOOP][0].task.PrepareTask?
  }

  /** The vectors hold the pushes since the last batch, and the batch under way has visited a prefix
      of them. */
  ghost predicate VectorsFollow(s: State) {
    && s.vectors == Collect(Uncut(s))
    && (if Preparing(s)
        then s.stacks[LOOP][0].at <= |InOrder(s.vectors)| && s.current == InOrder(s.vectors)[..s.stacks[LOOP][0].at]
        else s.current == [])
  }

  ghost predicate Chunk(pushed: seq<Pushed>, batches: seq<seq<Pushed>>, cuts: seq<nat>, i: nat)
    requires |cuts| == |batches| + 1 && i < |batches|
  {
    cuts[i] <= cuts[i + 1] <= |pushed| && batches[i] == Batch(pushed[cuts[i]..cuts[i + 1]])
  }

  /** The completed batches are the regroupings of successive chunks of the pushes. */
  ghost predicate BatchesFollow(s: State) {
    && |s.cuts| == |s.batches| + 1 && s.cuts[0] == 0 && s.cuts[|s.batches|] <= |s.pushed|
    && forall i: nat :: i < |s.batches| ==> Chunk(s.pushed, s.batches, s.cuts, i)
  }

  ghost predicate Inv(s: State) {
    LocksOk(s) && VectorsFollow(s) && BatchesFollow(s)
  }

  /** A thread about to append holds the lock, so no batch is under way. */
  lemma PushExcludesBatch(s: State, t: nat)
    requires LocksOk(s) && t < |s.stacks| && s.stacks[t] != []
    requires Top(s.stacks[t]).Inside? && Top(s.stacks[t]).task.PushTask?
    ensures !Preparing(s)
  {
    assert WellStacked(t, s.stacks[t]);
    assert HoldsLock(s.stacks[t], PendingLock);
    if Preparing(s) {
      OneOwner(s, t, LOOP, PendingLock);
    }
  }

  lemma AppendCollects(xs: seq<Pushed>, x: Pushed)
    ensures Collect(xs + [x]) == Append(Collect(xs), x.kind, x)
  {
    assert (xs + [x])[..|xs|] == xs;
  }

  lemma ChunkStays(pushed: seq<Pushed>, more: seq<Pushed>, batches: seq<seq<Pushed>>, cuts: seq<nat>,
                   batches': seq<seq<Pushed>>, cuts': seq<nat>, i: nat)
    requires |cuts| == |batches| + 1 && |cuts'| == |batches'| + 1 && i < |batches| && pushed <= more
    requires cuts <= cuts' && batches <= batches' && Chunk(pushed, batches, cuts, i)
    ensures Chunk(more, batches', cuts', i)
  {
    assert cuts'[i] == cuts[i] && cuts'[i + 1] == cuts[i + 1] && batches'[i] == batches[i];
    assert more[cuts[i]..cuts[i + 1]] == pushed[cuts[i]..cuts[i + 1]];
  }

  lemma BatchesStay(s: State, t: State)
    requires BatchesFollow(s) && s.pushed <= t.pushed && t.batches == s.batches && t.cuts == s.cuts
    ensures BatchesFollow(t)
  {
    forall i: nat | i < |t.batches| ensures Chunk(t.pushed, t.batches, t.cuts, i) {
      ChunkStays(s.pushed, t.pushed, s.batches, s.cuts, t.batches, t.cuts, i);
    }
  }

  lemma PushFollows(s: State, step: Step)
    requires Inv(s) && Enabled(s, step) && step.Work? && Top(s.stacks[step.t]).task.PushTask?
    ensures VectorsFollow(Next(s, step)) && BatchesFollow(Next(s, step))
  {
    var t := Next(s, step);
    var x := Top(s.stacks[step.t]).task.item;
    PushExcludesBatch(s, step.t);
    assert Uncut(t) == Uncut(s) + [x];
    assert Uncut(t)[..|Uncut(t)| - 1] == Uncut(s);
    assert VectorsFollow(t) by { AppendCollects(Uncut(s), x); }
    BatchesStay(s, t);
  }

  lemma VisitOneFollows(s: State, t: State)
    requires VectorsFollow(s) && BatchesFollow(s) && Preparing(s) && Preparing(t)
    requires s.stacks[LOOP][0].at < |InOrder(s.vectors)| && t.stacks[LOOP][0].at == s.stacks[LOOP][0].at + 1
    requires t == s.(stacks := t.stacks, current := s.current + [InOrder(s.vectors)[s.stacks[LOOP][0].at]])
    ensures VectorsFollow(t) && BatchesFollow(t)
  {
    var all, at := InOrder(s.vectors), s.stacks[LOOP][0].at;
    assert all[..at + 1] == all[..at] + [all[at]];
    BatchesStay(s, t);
  }

  lemma ClearFollows(s: State, t: State)
    requires VectorsFollow(s) && BatchesFollow(s) && s.current == InOrder(s.vectors)
    requires !Preparing(t) && t.vectors == Empty() && t.current == [] && t.pushed == s.pushed
    requires t.batches == s.batches + [s.current] && t.cuts == s.cuts + [|s.pushed|]
    ensures VectorsFollow(t) && BatchesFollow(t)
  {
    assert Uncut(t) == [];
    forall i: nat | i < |t.batches| ensures Chunk(t.pushed, t.batches, t.cuts, i) {
      if i < |s.batches| {
        ChunkStays(s.pushed, t.pushed, s.batches, s.cuts, t.batches, t.cuts, i);
      } else {
        assert t.pushed[t.cuts[i]..t.cuts[i + 1]] == Uncut(s);
      }
    }
  }

  lemma VisitFollows(s: State, step: Step)
    requires Inv(s) && Enabled(s, step) && step.Work? && Top(s.stacks[step.t]).task.PrepareTask?
    ensures VectorsFollow(Next(s, step)) && BatchesFollow(Next(s, step))
  {
    var t := Next(s, step);
    assert step.t == LOOP && Preparing(s);
    var at := s.stacks[LOOP][0].at;
    if at < |InOrder(s.vectors)| {
      VisitOneFollows(s, t);
    } else {
      ClearFollows(s, t);
    }
  }

  lemma QuietFollows(s: State, t: State)
    requires VectorsFollow(s) && BatchesFollow(s)
    requires t == s.(stacks := t.stacks, owners := t.owners)
    requires Preparing(t) <==> Preparing(s)
    requires Preparing(s) ==> t.stacks[LOOP] == s.stacks[LOOP]
    ensures VectorsFollow(t) && BatchesFollow(t)
  {
    BatchesStay(s, t);
  }

  lemma BeginBatchFollows(s: State, t: State)
    requires VectorsFollow(s) && BatchesFollow(s) && !Preparing(s)
    requires t == s.(stacks := t.stacks, owners := t.owners)
    requires Preparing(t) ==> t.stacks[LOOP][0].at == 0
    ensures VectorsFollow(t) && BatchesFollow(t)
  {
    BatchesStay(s, t);
  }

  lemma LockStepFollows(s: State, step: Step)
    requires Inv(s) && Enabled(s, step) && !step.Work?
    ensures VectorsFollow(Next(s, step)) && BatchesFollow(Next(s, step))
  {
    var t := Next(s, step);
    if Preparing(s) { QuietFollows(s, t); } else { BeginBatchFollows(s, t); }
  }

  lemma StepKeeps(s: State, step: Step)
    requires Inv(s) && Enabled(s, step)
    ensures Inv(Next(s, step))
  {
    StepKeepsLocks(s, step);
    if !step.Work? {
      LockStepFollows(s, step);
    } else if Top(s.stacks[step.t]).task.PushTask? {
      PushFollows(s, step);
    } else if Top(s.stacks[step.t]).task.PrepareTask? {
      VisitFollows(s, step);
    } else {
      QuietFollows(s, Next(s, step));
    }
  }

  lemma InitHolds(s: State)
    requires Init(s)
    ensures Inv(s)
  {
    assert Uncut(s) == [];
  }

  lemma {:induction false} RunKeeps(states: seq<State>, steps: seq<Step>, i: nat)
    requires IsRun(states, steps) && i < |states|
    ensures Inv(states[i])
  {
    if i == 0 {
      InitHolds(states[0]);
    } else {
      RunKeeps(states, steps, i - 1);
      assert StepAt(states, steps, i - 1);
      StepKeeps(states[i - 1], steps[i - 1]);
    }
  }

  // ----- every push is visited once -----

  ghost function Flatten(batches: seq<seq<Pushed>>): seq<Pushed> {
    if batches == [] then [] else Flatten(batches[..|batches| - 1]) + batches[|batches| - 1]
  }

  /** Everything visited so far, in order. */
  ghost function VisitedSoFar(s: State): seq<Pushed> {
    Flatten(s.batches) + s.current
  }

  /** Pushed and not yet visited, in the order of the next visits if nothing more is pushed. */
  ghost function Remaining(s: State): seq<Pushed> {
    if |s.current| <= |InOrder(s.vectors)| then InOrder(s.vectors)[|s.current|..] else []
  }

  /** One more batch, visited after `flat` and pushed after `front`. */
  lemma PartitionOneMore(flat: seq<Pushed>, front: seq<Pushed>, chunk: seq<Pushed>, k: Kind)
    requires multiset(flat) == multiset(front) && OfKind(flat, k) == OfKind(front, k)
    ensures multiset(flat + Batch(chunk)) == multiset(front + chunk)
    ensures OfKind(flat + Batch(chunk), k) == OfKind(front + chunk, k)
  {
    BatchPermutes(chunk);
    BatchKeepsKind(chunk, k);
    FilterConcat(flat, Batch(chunk), k);
    FilterConcat(front, chunk, k);
  }

  lemma FlattenOneMore(batches: seq<seq<Pushed>>, n: nat)
    requires n < |batches|
    ensures Flatten(batches[..n + 1]) == Flatten(batches[..n]) + batches[n]
  {
    assert batches[..n + 1][..n] == batches[..n];
  }

  /** The first `n` batches have visited the pushes before the `n`-th cut. */
  ghost predicate Partitioned(s: State, n: nat, k: Kind)
    requires |s.cuts| == |s.batches| + 1 && n <= |s.batches|
  {
    && s.cuts[n] <= |s.pushed|
    && multiset(Flatten(s.batches[..n])) == multiset(s.pushed[..s.cuts[n]])
    && OfKind(Flatten(s.batches[..n]), k) == OfKind(s.pushed[..s.cuts[n]], k)
  }

  lemma PartitionNext(s: State, n: nat, k: Kind)
    requires BatchesFollow(s) && n < |s.batches| && Partitioned(s, n, k)
    ensures Partitioned(s, n + 1, k)
  {
    assert Chunk(s.pushed, s.batches, s.cuts, n);
    var front, chunk := s.pushed[..s.cuts[n]], s.pushed[s.cuts[n]..s.cuts[n + 1]];
    assert s.pushed[..s.cuts[n + 1]] == front + chunk;
    FlattenOneMore(s.batches, n);
    PartitionOneMore(Flatten(s.batches[..n]), front, chunk, k);
  }

  lemma {:induction false} BatchesPartition(s: State, n: nat, k: Kind)
    requires BatchesFollow(s) && n <= |s.batches|
    ensures Partitioned(s, n, k)
  {
    if n == 0 {
      assert s.batches[..0] == [] && s.pushed[..0] == [];
    } else {
      BatchesPartition(s, n - 1, k);
      PartitionNext(s, n - 1, k);
    }
  }

  lemma VisitedThenRemaining(s: State)
    requires Inv(s)
    ensures s.current + Remaining(s) == Batch(Uncut(s))
    ensures s.pushed == s.pushed[..s.cuts[|s.batches|]] + Uncut(s)
  {
  }

  lemma SumsMatch(a: seq<Pushed>, b: seq<Pushed>, c: seq<Pushed>, x: seq<Pushed>, y: seq<Pushed>, all: seq<Pushed>)
    requires multiset(a) == multiset(x) && multiset(b + c) == multiset(y) && all == x + y
    ensures multiset(a + b) + multiset(c) == multiset(all)
  {
    assert multiset(b + c) == multiset(b) + multiset(c);
  }

  lemma VisitedPermutes(s: State)
    requires Inv(s)
    ensures multiset(VisitedSoFar(s)) + multiset(Remaining(s)) == multiset(s.pushed)
  {
    BatchesPartition(s, |s.batches|, Accept);
    assert s.batches[..|s.batches|] == s.batches;
    VisitedThenRemaining(s);
    BatchPermutes(Uncut(s));
    SumsMatch(Flatten(s.batches), s.current, Remaining(s), s.pushed[..s.cuts[|s.batches|]], Uncut(s),
              s.pushed);
  }

  lemma Reassociate(a: seq<Pushed>, b: seq<Pushed>, c: seq<Pushed>)
    ensures a + b + c == a + (b + c)
  {
  }

  /** `bc` is visited after `a`, and pushed, as `y`, after `x`. */
  lemma OrdersMatch(a: seq<Pushed>, bc: seq<Pushed>, x: seq<Pushed>, y: seq<Pushed>, k: Kind)
    requires OfKind(a, k) == OfKind(x, k) && OfKind(bc, k) == OfKind(y, k)
    ensures OfKind(a + bc, k) == OfKind(x + y, k)
  {
    FilterConcat(a, bc, k);
    FilterConcat(x, y, k);
  }

  lemma OrderOfParts(a: seq<Pushed>, b: seq<Pushed>, c: seq<Pushed>, x: seq<Pushed>, y: seq<Pushed>,
                     all: seq<Pushed>, k: Kind)
    requires OfKind(a, k) == OfKind(x, k) && b + c == Batch(y) && all == x + y
    ensures OfKind(a + b + c, k) == OfKind(all, k)
  {
    Reassociate(a, b, c);
    BatchKeepsKind(y, k);
    OrdersMatch(a, Batch(y), x, y, k);
  }

  lemma VisitedInOrder(s: State, k: Kind)
    requires Inv(s)
    ensures OfKind(VisitedSoFar(s) + Remaining(s), k) == OfKind(s.pushed, k)
  {
    BatchesPartition(s, |s.batches|, k);
    assert s.batches[..|s.batches|] == s.batches;
    VisitedThenRemaining(s);
    OrderOfParts(Flatten(s.batches), s.current, Remaining(s), s.pushed[..s.cuts[|s.batches|]], Uncut(s),
                 s.pushed, k);
  }

  /** Batches partition the pushes under every interleaving: nothing is lost or visited twice, every
      completed batch is the stable regrouping of the pushes since the previous one, and requests of
      one type are visited in push order within and across batches. */
  lemma EveryPushVisitedOnce(states: seq<State>, steps: seq<Step>, i: nat)
    requires IsRun(states, steps) && i < |states|
    ensures var s := states[i];
            && multiset(VisitedSoFar(s)) + multiset(Remaining(s)) == multiset(s.pushed)
            && (forall k :: OfKind(VisitedSoFar(s) + Remaining(s), k) == OfKind(s.pushed, k))
            && BatchesFollow(s)
  {
    RunKeeps(states, steps, i);
    forall k ensures OfKind(VisitedSoFar(states[i]) + Remaining(states[i]), k) == OfKind(states[i].pushed, k) {
      VisitedInOrder(states[i], k);
    }
    VisitedPermutes(states[i]);
  }

  // ----- deadlock -----

  /** Thread `t` is blocked on a lock that thread `u` owns. */
  ghost predicate WaitsFor(s: State, t: nat, u: nat) {
    && t < |s.stacks| && s.stacks[t] != [] && Top(s.stacks[t]).Waiting?
    && LockOf(Top(s.stacks[t]).task) in s.owners && s.owners[LockOf(Top(s.stacks[t]).task)] == u
  }

  ghost predicate Link(s: State, c: seq<nat>, i: nat)
    requires i < |c|
  {
    WaitsFor(s, c[i], if i + 1 < |c| then c[i + 1] else c[0])
  }

  ghost predicate WaitCycle(s: State, c: seq<nat>) {
    c != [] && forall i: nat :: i < |c| ==> Link(s, c, i)
  }

  /** A callback registers a callback on the very handler that is running it. */
  ghost predicate RegistersOnItself(s: State) {
    && |s.stacks| > 0 && |s.stacks[LOOP]| == 2
    && s.stacks[LOOP][0].Inside? && s.stacks[LOOP][0].task.HandleTask?
    && s.stacks[LOOP][1] == Waiting(RegisterTask(s.stacks[LOOP][0].task.handler))
  }

  /** Only the loop can hold a lock while it waits for another. */
  lemma OwnersDoNotWait(s: State, t: nat, u: nat, v: nat)
    requires LocksOk(s) && WaitsFor(s, t, u) && WaitsFor(s, u, v)
    ensures u == LOOP
  {
    assert HoldsLock(s.stacks[u], LockOf(Top(s.stacks[t]).task));
    assert WellStacked(u, s.stacks[u]);
  }

  lemma WaitingForOneself(s: State)
    requires LocksOk(s)
    ensures WaitsFor(s, LOOP, LOOP) <==> RegistersOnItself(s)
  {
    assert WellStacked(LOOP, s.stacks[LOOP]);
    if RegistersOnItself(s) {
      assert HoldsLock(s.stacks[LOOP], LockOf(s.stacks[LOOP][0].task));
    }
    if WaitsFor(s, LOOP, LOOP) {
      assert HoldsLock(s.stacks[LOOP], LockOf(Top(s.stacks[LOOP]).task));
    }
  }

  lemma CycleIsTheLoop(s: State, c: seq<nat>)
    requires LocksOk(s) && WaitCycle(s, c)
    ensures WaitsFor(s, LOOP, LOOP)
  {
    var n := |c|;
    assert Link(s, c, 0) && Link(s, c, n - 1);
    if n > 1 {
      assert Link(s, c, 1);
      OwnersDoNotWait(s, c[n - 1], c[0], c[1]);
      OwnersDoNotWait(s, c[0], c[1], if 2 < n then c[2] else c[0]);
    } else {
      OwnersDoNotWait(s, c[0], c[0], c[0]);
    }
  }

  /** Deadlock, exactly: in a reachable state threads wait for each other in a cycle if and only if a
      callback is registering on its own handler. */
  lemma DeadlockIffSelfRegistration(states: seq<State>, steps: seq<Step>, i: nat)
    requires IsRun(states, steps) && i < |states|
    ensures (exists c :: WaitCycle(states[i], c)) <==> RegistersOnItself(states[i])
  {
    RunKeeps(states, steps, i);
    var s := states[i];
    WaitingForOneself(s);
    if exists c :: WaitCycle(s, c) {
      var c :| WaitCycle(s, c);
      CycleIsTheLoop(s, c);
    }
    if RegistersOnItself(s) {
      assert Link(s, [LOOP], 0);
      assert WaitCycle(s, [LOOP]);
    }
  }

  ghost predicate CanMove(s: State, t: nat) {
    Enabled(s, Acquire(t)) || Enabled(s, Work(t)) || Enabled(s, Unlock(t))
  }

  lemma MovesUnlessBlocked(s: State, t: nat)
    requires t < |s.stacks| && s.stacks[t] != [] && !CanMove(s, t)
    ensures WaitsFor(s, t, s.owners[LockOf(Top(s.stacks[t]).task)])
  {
  }

  lemma FindMover(s: State, t: nat) returns (mover: nat)
    requires LocksOk(s) && !RegistersOnItself(s) && t < |s.stacks| && s.stacks[t] != []
    ensures CanMove(s, mover) && mover < |s.stacks|
  {
    mover := t;
    if !CanMove(s, mover) {
      MovesUnlessBlocked(s, t);
      var u := s.owners[LockOf(Top(s.stacks[t]).task)];
      mover := u;
      if !CanMove(s, u) {
        MovesUnlessBlocked(s, u);
        var v := s.owners[LockOf(Top(s.stacks[u]).task)];
        OwnersDoNotWait(s, t, u, v);
        mover := v;
        if !CanMove(s, v) {
          MovesUnlessBlocked(s, v);
          OwnersDoNotWait(s, u, v, s.owners[LockOf(Top(s.stacks[v]).task)]);
          WaitingForOneself(s);
          assert false;
        }
      }
    }
  }

  /** Without a self-registration, some thread inside a critical section, or waiting for one, can
      always proceed. */
  lemma SomeThreadMoves(states: seq<State>, steps: seq<Step>, i: nat, t: nat) returns (mover: nat)
    requires IsRun(states, steps) && i < |states| && !RegistersOnItself(states[i])
    requires t < |states[i].stacks| && states[i].stacks[t] != []
    ensures CanMove(states[i], mover) && mover < |states[i].stacks|
  {
    RunKeeps(states, steps, i);
    mover := FindMover(states[i], t);
  }

  lemma BlockedStays(s: State, step: Step)
    requires LocksOk(s) && Enabled(s, step) && RegistersOnItself(s)
    ensures Next(s, step).stacks[LOOP] == s.stacks[LOOP] && |Next(s, step).stacks| == |s.stacks|
  {
    assert HoldsLock(s.stacks[LOOP], LockOf(s.stacks[LOOP][0].task));
  }

  /** A self-registration blocks the loop for good. */
  lemma {:induction false} SelfRegistrationIsFinal(states: seq<State>, steps: seq<Step>, i: nat, j: nat)
    requires IsRun(states, steps) && i <= j < |states| && RegistersOnItself(states[i])
    ensures RegistersOnItself(states[j]) && states[j].stacks[LOOP] == states[i].stacks[LOOP]
  {
    if i < j {
      SelfRegistrationIsFinal(states, steps, i, j - 1);
      RunKeeps(states, steps, j - 1);
      assert StepAt(states, steps, j - 1);
      BlockedStays(states[j - 1], steps[j - 1]);
    }
  }

  const HANDLES: Task := HandleTask(5)
  const REGISTERS: Task := RegisterTask(5)

  lemma HandlerRuns(s: State)
    requires Init(s)
    ensures Enabled(s, Start(LOOP, HANDLES)) && Enabled(Next(s, Start(LOOP, HANDLES)), Acquire(LOOP))
    ensures var t := Next(Next(s, Start(LOOP, HANDLES)), Acquire(LOOP));
            t.stacks == s.stacks[LOOP := [Inside(HANDLES, 0)]]
  {
    var t := Next(s, Start(LOOP, HANDLES));
    assert t.stacks[LOOP] == [Waiting(HANDLES)];
    assert WithTop(t.stacks[LOOP], Inside(HANDLES, 0)) == [Inside(HANDLES, 0)];
  }

  lemma HandlerRegisters(s: State)
    requires |s.stacks| > 0 && s.stacks[LOOP] == [Inside(HANDLES, 0)]
    ensures Enabled(s, Start(LOOP, REGISTERS)) && RegistersOnItself(Next(s, Start(LOOP, REGISTERS)))
  {
  }

  /** A run into it: a callback of handler 5 registers a callback of handler 5. */
  lemma SelfRegistrationRun(s: State) returns (states: seq<State>)
    requires Init(s)
    ensures IsRun(states, [Start(LOOP, HANDLES), Acquire(LOOP), Start(LOOP, REGISTERS)])
    ensures RegistersOnItself(states[3])
  {
    var t := Next(s, Start(LOOP, HANDLES));
    HandlerRuns(s);
    var u := Next(t, Acquire(LOOP));
    HandlerRegisters(u);
    states := [s, t, u, Next(u, Start(LOOP, REGISTERS))];
    var steps := [Start(LOOP, HANDLES), Acquire(LOOP), Start(LOOP, REGISTERS)];
    assert StepAt(states, steps, 0) && StepAt(states, steps, 1) && StepAt(states, steps, 2);
  }
}
