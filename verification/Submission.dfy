/** Preparing a whole batch against a queue of limited capacity. */
module Submission {
  import opened Requests
  import opened Batches
  import opened Protocol
  import opened Lifecycle
  import opened Soundness
  import opened LifecycleSteps
  import opened Runs
  import opened Sending

  /** The requests left to visit, in visiting order. */
  ghost function Left(s: State): seq<Ptr> {
    if s.phase.Preparing? && s.phase.done <= |InOrder(s.pending)|
    then InOrder(s.pending)[s.phase.done..] else []
  }

  /** A submission entry can be obtained for the next request: there is room in the queue, or the
      single in-batch submit makes some. */
  ghost predicate RoomFor(c: Config, s: State, room: nat) {
    |s.sq| < c.sqCapacity || |s.sq| - (if room <= |s.sq| then room else |s.sq|) < c.sqCapacity
  }

  /** Whether the `i`-th next request finds room. */
  ghost function Admitted(c: Config, s: State, rooms: nat -> nat): nat -> bool {
    (i: nat) => RoomFor(c, PrepareMany(c, s, rooms, i), rooms(i))
  }

  /** The first `n` elements for which `keep` is `wanted`. */
  ghost function Select(xs: seq<Ptr>, keep: nat -> bool, wanted: bool, n: nat): seq<Ptr>
    requires n <= |xs|
  {
    if n == 0 then []
    else Select(xs, keep, wanted, n - 1) + (if keep(n - 1) == wanted then [xs[n - 1]] else [])
  }

  ghost predicate Partitions(a: seq<Ptr>, b: seq<Ptr>, all: seq<Ptr>) {
    multiset(a) + multiset(b) == multiset(all)
  }

  lemma AddToEither(a: seq<Ptr>, b: seq<Ptr>, all: seq<Ptr>, x: Ptr)
    requires Partitions(a, b, all)
    ensures Partitions(a + [x], b, all + [x]) && Partitions(a, b + [x], all + [x])
  {
  }

  lemma SelectNext(xs: seq<Ptr>, keep: nat -> bool, n: nat, old': seq<Ptr>, new': seq<Ptr>)
    requires n < |xs| && old' == xs[..n] && new' == xs[..n + 1]
    requires Partitions(Select(xs, keep, true, n), Select(xs, keep, false, n), old')
    ensures Partitions(Select(xs, keep, true, n + 1), Select(xs, keep, false, n + 1), new')
  {
    assert new' == old' + [xs[n]];
    AddToEither(Select(xs, keep, true, n), Select(xs, keep, false, n), old', xs[n]);
    assert Select(xs, keep, !keep(n), n + 1) == Select(xs, keep, !keep(n), n);
  }

  lemma {:induction false} SelectPartitions(xs: seq<Ptr>, keep: nat -> bool, n: nat)
    requires n <= |xs|
    ensures Partitions(Select(xs, keep, true, n), Select(xs, keep, false, n), xs[..n])
  {
    if n > 0 {
      SelectPartitions(xs, keep, n - 1);
      SelectNext(xs, keep, n - 1, xs[..n - 1], xs[..n]);
    }
  }

  lemma {:induction false} SelectAll(xs: seq<Ptr>, keep: nat -> bool, n: nat)
    requires n <= |xs| && forall i: nat :: i < n ==> keep(i)
    ensures Select(xs, keep, true, n) == xs[..n] && Select(xs, keep, false, n) == []
  {
    if n > 0 {
      SelectAll(xs, keep, n - 1);
      assert xs[..n] == xs[..n - 1] + [xs[n - 1]];
    }
  }

  /** The requests among the next `n` that are queued, and those that are dropped. */
  ghost function Queued(c: Config, s: State, rooms: nat -> nat, n: nat): seq<Ptr>
    requires n <= |Left(s)|
  {
    Select(Left(s), Admitted(c, s, rooms), true, n)
  }

  ghost function Lost(c: Config, s: State, rooms: nat -> nat, n: nat): seq<Ptr>
    requires n <= |Left(s)|
  {
    Select(Left(s), Admitted(c, s, rooms), false, n)
  }

  ghost predicate AllPushed(pushes: seq<Push>, ps: seq<Ptr>) {
    forall i :: 0 <= i < |ps| ==> ps[i] < |pushes|
  }

  ghost function EntriesOf(pushes: seq<Push>, ps: seq<Ptr>): seq<Sqe>
    requires AllPushed(pushes, ps)
  {
    seq(|ps|, i requires 0 <= i < |ps| => EntryFor(pushes[ps[i]].kind, pushes[ps[i]].request, ps[i]))
  }

  /** `t` is `s` after preparing `n` more requests. */
  ghost predicate Prepared(c: Config, s: State, t: State, n: nat) {
    && s.phase.Preparing? && t.phase == Preparing(s.phase.done + n) && !t.faulted
    && t.pending == s.pending && t.pushes == s.pushes
  }

  lemma PrepareNextCases(c: Config, s: State, room: nat)
    requires Inv(c, s) && s.phase.Preparing? && !s.faulted && s.phase.done < |InOrder(s.pending)|
    ensures var t, p := PrepareNext(c, s, room), InOrder(s.pending)[s.phase.done];
            && Inv(c, t) && p < |s.pushes| && Prepared(c, s, t, 1)
            && Sent(t) == Sent(s) + (if RoomFor(c, s, room)
                                     then [EntryFor(s.pushes[p].kind, s.pushes[p].request, p)] else [])
            && t.dropped == s.dropped + (if RoomFor(c, s, room) then [] else [p])
  {
    var r := if room <= |s.sq| then room else |s.sq|;
    StepKeepsIff(c, s, PrepareOne(r));
    PrepareReadsThePush(s);
    PrepareSends(c, s, r);
  }

  lemma PreparedOneMore(c: Config, s: State, b: State, n: nat, room: nat)
    requires Prepared(c, s, b, n) && Inv(c, b) && n < |Left(s)|
    ensures var t, p := PrepareNext(c, b, room), Left(s)[n];
            && Inv(c, t) && p < |s.pushes| && Prepared(c, s, t, n + 1)
            && Sent(t) == Sent(b) + (if RoomFor(c, b, room)
                                     then [EntryFor(s.pushes[p].kind, s.pushes[p].request, p)] else [])
            && t.dropped == b.dropped + (if RoomFor(c, b, room) then [] else [p])
  {
    assert InOrder(b.pending)[b.phase.done] == Left(s)[n];
    PrepareNextCases(c, b, room);
  }

  ghost predicate KeptBy(p: nat -> bool, i: nat) {
    p(i) ==> p(i + 1)
  }

  lemma {:induction false} Induction(p: nat -> bool, n: nat)
    requires p(0) && forall i: nat :: i < n ==> KeptBy(p, i)
    ensures p(n)
  {
    if n > 0 {
      Induction(p, n - 1);
      assert KeptBy(p, n - 1);
    }
  }

  ghost predicate StillPrepared(c: Config, s: State, rooms: nat -> nat, i: nat) {
    Inv(c, PrepareMany(c, s, rooms, i)) && Prepared(c, s, PrepareMany(c, s, rooms, i), i)
  }

  lemma StillPreparedNext(c: Config, s: State, rooms: nat -> nat, i: nat)
    requires StillPrepared(c, s, rooms, i) && i < |Left(s)|
    ensures StillPrepared(c, s, rooms, i + 1)
  {
    PreparedOneMore(c, s, PrepareMany(c, s, rooms, i), i, rooms(i));
  }

  lemma PreparedKept(c: Config, s: State, rooms: nat -> nat, i: nat)
    requires i < |Left(s)|
    ensures KeptBy((j: nat) => StillPrepared(c, s, rooms, j), i)
  {
    if StillPrepared(c, s, rooms, i) { StillPreparedNext(c, s, rooms, i); }
  }

  lemma PrepareManyKeeps(c: Config, s: State, rooms: nat -> nat, n: nat)
    requires Inv(c, s) && s.phase.Preparing? && !s.faulted && n <= |Left(s)|
    ensures Inv(c, PrepareMany(c, s, rooms, n)) && Prepared(c, s, PrepareMany(c, s, rooms, n), n)
  {
    var p := (i: nat) => StillPrepared(c, s, rooms, i);
    forall i: nat | i < n ensures KeptBy(p, i) { PreparedKept(c, s, rooms, i); }
    Induction(p, n);
  }

  /** The next request was read through a dangling pointer, and nothing follows. */
  ghost predicate Derailed(s: State) {
    && s.faulted && s.phase.Preparing? && s.phase.done < |InOrder(s.pending)|
    && AddressIn(s.pushes, InOrder(s.pending)[s.phase.done]) !in s.heap
  }

  ghost predicate StillReached(c: Config, s: State, rooms: nat -> nat, i: nat) {
    var t := PrepareMany(c, s, rooms, i);
    Reachable(c, t) && (Prepared(c, s, t, i) || Derailed(t))
  }

  lemma PrepareNextReaches(c: Config, s: State, b: State, n: nat, room: nat)
    requires Reachable(c, b) && Prepared(c, s, b, n) && n < |Left(s)|
    ensures var t := PrepareNext(c, b, room);
            Reachable(c, t) && (Prepared(c, s, t, n + 1) || Derailed(t))
  {
    var r := if room <= |b.sq| then room else |b.sq|;
    StepReaches(c, b, PrepareOne(r));
    PrepareSends(c, b, r);
  }

  lemma StillReachedNext(c: Config, s: State, rooms: nat -> nat, i: nat)
    requires StillReached(c, s, rooms, i) && i < |Left(s)|
    ensures StillReached(c, s, rooms, i + 1)
  {
    var b := PrepareMany(c, s, rooms, i);
    if !Derailed(b) { PrepareNextReaches(c, s, b, i, rooms(i)); }
  }

  lemma ReachedKept(c: Config, s: State, rooms: nat -> nat, i: nat)
    requires i < |Left(s)|
    ensures KeptBy((j: nat) => StillReached(c, s, rooms, j), i)
  {
    if StillReached(c, s, rooms, i) { StillReachedNext(c, s, rooms, i); }
  }

  /** Preparing requests is taking steps of the protocol, until memory is read through a dangling pointer,
      if ever. */
  lemma PrepareManyReaches(c: Config, s: State, rooms: nat -> nat, n: nat)
    requires Reachable(c, s) && s.phase.Preparing? && !s.faulted && n <= |Left(s)|
    ensures var t := PrepareMany(c, s, rooms, n);
            Reachable(c, t) && (Prepared(c, s, t, n) || Derailed(t))
  {
    var p := (i: nat) => StillReached(c, s, rooms, i);
    forall i: nat | i < n ensures KeptBy(p, i) { ReachedKept(c, s, rooms, i); }
    Induction(p, n);
  }

  /** `t` is `s` after sending `queued` and dropping `lost`. */
  ghost predicate Split(s: State, t: State, queued: seq<Ptr>, lost: seq<Ptr>) {
    && AllPushed(s.pushes, queued)
    && Sent(t) == Sent(s) + EntriesOf(s.pushes, queued)
    && t.dropped == s.dropped + lost
  }

  lemma SplitOneMore(s: State, b: State, t: State, queued: seq<Ptr>, lost: seq<Ptr>, p: Ptr, room: bool)
    requires Split(s, b, queued, lost) && p < |s.pushes|
    requires Sent(t) == Sent(b) + (if room then [EntryFor(s.pushes[p].kind, s.pushes[p].request, p)] else [])
    requires t.dropped == b.dropped + (if room then [] else [p])
    ensures Split(s, t, queued + (if room then [p] else []), lost + (if room then [] else [p]))
  {
    assert EntriesOf(s.pushes, queued + [p])
           == EntriesOf(s.pushes, queued) + [EntryFor(s.pushes[p].kind, s.pushes[p].request, p)];
    assert queued + [] == queued;
  }

  ghost predicate StillSplit(c: Config, s: State, rooms: nat -> nat, i: nat) {
    && i <= |Left(s)|
    && Split(s, PrepareMany(c, s, rooms, i), Queued(c, s, rooms, i), Lost(c, s, rooms, i))
  }

  /** What preparing the `n`-th next request does. */
  ghost predicate OneMore(c: Config, s: State, b: State, p: Ptr, room: nat) {
    var t := PrepareNext(c, b, room);
    && p < |s.pushes|
    && Sent(t) == Sent(b) + (if RoomFor(c, b, room)
                             then [EntryFor(s.pushes[p].kind, s.pushes[p].request, p)] else [])
    && t.dropped == b.dropped + (if RoomFor(c, b, room) then [] else [p])
  }

  lemma OneMoreAt(c: Config, s: State, rooms: nat -> nat, n: nat)
    requires Inv(c, s) && s.phase.Preparing? && !s.faulted && n < |Left(s)|
    ensures OneMore(c, s, PrepareMany(c, s, rooms, n), Left(s)[n], rooms(n))
  {
    PrepareManyKeeps(c, s, rooms, n);
    PreparedOneMore(c, s, PrepareMany(c, s, rooms, n), n, rooms(n));
  }

  lemma SplitFrom(c: Config, s: State, b: State, p: Ptr, room: nat, queued: seq<Ptr>, lost: seq<Ptr>)
    requires OneMore(c, s, b, p, room) && Split(s, b, queued, lost)
    ensures Split(s, PrepareNext(c, b, room), queued + (if RoomFor(c, b, room) then [p] else []),
                  lost + (if RoomFor(c, b, room) then [] else [p]))
  {
    SplitOneMore(s, b, PrepareNext(c, b, room), queued, lost, p, RoomFor(c, b, room));
  }

  lemma SplitNext(c: Config, s: State, rooms: nat -> nat, n: nat)
    requires n < |Left(s)| && StillSplit(c, s, rooms, n)
    requires OneMore(c, s, PrepareMany(c, s, rooms, n), Left(s)[n], rooms(n))
    ensures StillSplit(c, s, rooms, n + 1)
  {
    SplitFrom(c, s, PrepareMany(c, s, rooms, n), Left(s)[n], rooms(n),
              Queued(c, s, rooms, n), Lost(c, s, rooms, n));
  }

  lemma BatchSplitStep(c: Config, s: State, rooms: nat -> nat, n: nat)
    requires Inv(c, s) && s.phase.Preparing? && !s.faulted && n < |Left(s)|
    requires StillSplit(c, s, rooms, n)
    ensures StillSplit(c, s, rooms, n + 1)
  {
    OneMoreAt(c, s, rooms, n);
    SplitNext(c, s, rooms, n);
  }

  lemma SplitKept(c: Config, s: State, rooms: nat -> nat, i: nat)
    requires Inv(c, s) && s.phase.Preparing? && !s.faulted && i < |Left(s)|
    ensures KeptBy((j: nat) => StillSplit(c, s, rooms, j), i)
  {
    if StillSplit(c, s, rooms, i) { BatchSplitStep(c, s, rooms, i); }
  }

  lemma BatchSplits(c: Config, s: State, rooms: nat -> nat, n: nat)
    requires Inv(c, s) && s.phase.Preparing? && !s.faulted && n <= |Left(s)|
    ensures StillSplit(c, s, rooms, n)
  {
    var p := (i: nat) => StillSplit(c, s, rooms, i);
    assert EntriesOf(s.pushes, []) == [];
    forall i: nat | i < n ensures KeptBy(p, i) { SplitKept(c, s, rooms, i); }
    Induction(p, n);
  }

  /** What a batch of any length does to the queue: the requests for which an entry was obtained are
      sent in visiting order, the others are dropped, and together they are the whole batch. */
  lemma {:induction false} BatchIsSentOrDropped(c: Config, s: State, rooms: nat -> nat, n: nat)
    requires Inv(c, s) && s.phase.Preparing? && !s.faulted && n <= |Left(s)|
    ensures AllPushed(s.pushes, Queued(c, s, rooms, n))
    ensures var t := PrepareMany(c, s, rooms, n);
            && Sent(t) == Sent(s) + EntriesOf(s.pushes, Queued(c, s, rooms, n))
            && t.dropped == s.dropped + Lost(c, s, rooms, n)
    ensures Partitions(Queued(c, s, rooms, n), Lost(c, s, rooms, n), Left(s)[..n])
  {
    BatchSplits(c, s, rooms, n);
    SelectPartitions(Left(s), Admitted(c, s, rooms), n);
  }

  lemma TakeShortens(s: State, m: nat)
    requires m <= |s.sq|
    ensures |TakeMany(s, m).sq| == |s.sq| - m
  {
    TakeManyFrame(s, m);
  }

  /** The queue never exceeds its capacity. */
  lemma AdmitFits(c: Config, s: State, e: Sqe, room: nat)
    requires c.sqCapacity >= 1 && |s.sq| <= c.sqCapacity && room <= |s.sq|
    ensures |Admit(c, s, e, room).sq| <= c.sqCapacity
  {
    TakeShortens(s, room);
  }

  lemma PrepareFits(c: Config, s: State, room: nat)
    requires c.sqCapacity >= 1 && |s.sq| <= c.sqCapacity && Enabled(c, s, PrepareOne(room))
    ensures |Next(c, s, PrepareOne(room)).sq| <= c.sqCapacity
  {
    var p := InOrder(s.pending)[s.phase.done];
    if AddressIn(s.pushes, p) in s.heap {
      AdmitFits(c, s, EntryFor(KindAt(s.pending, s.phase.done), s.heap[AddressIn(s.pushes, p)].content, p), room);
    }
  }

  lemma QueueFitsStep(c: Config, s: State, step: Step)
    requires c.IsValid() && Enabled(c, s, step) && |s.sq| <= c.sqCapacity
    ensures |Next(c, s, step).sq| <= c.sqCapacity
  {
    if step.PrepareOne? {
      PrepareFits(c, s, step.room);
    } else if step.Cancel? {
      AdmitFits(c, s, CancelEntry(step.fd, LeftInSlot(c, Sent(s))), step.room);
    } else if step.Release? {
      ReleaseFrame(c, s, step);
    }
  }

  lemma QueueFitsAt(c: Config, states: seq<State>, steps: seq<Step>, i: nat)
    requires IsRun(c, states, steps) && i < |steps| && |states[i].sq| <= c.sqCapacity
    ensures |states[i + 1].sq| <= c.sqCapacity
  {
    assert StepAt(c, states, steps, i);
    QueueFitsStep(c, states[i], steps[i]);
  }

  lemma {:induction false} QueueFits(c: Config, states: seq<State>, steps: seq<Step>, i: nat)
    requires IsRun(c, states, steps) && i < |states|
    ensures |states[i].sq| <= c.sqCapacity
  {
    if i > 0 {
      QueueFits(c, states, steps, i - 1);
      QueueFitsAt(c, states, steps, i - 1);
    }
  }

  /** A request that is still in memory is dropped exactly when the queue is full and the in-batch submit
      frees no slot. */
  lemma DroppedIffStuck(c: Config, states: seq<State>, steps: seq<Step>, i: nat)
    requires IsRun(c, states, steps) && i < |steps| && steps[i].PrepareOne?
    ensures var (s, t) := (states[i], states[i + 1]);
            && s.phase.Preparing? && s.phase.done < |InOrder(s.pending)|
            && (t.faulted <==> AddressIn(s.pushes, InOrder(s.pending)[s.phase.done]) !in s.heap)
            && (t.dropped != s.dropped <==> !t.faulted && |s.sq| == c.sqCapacity && steps[i].room == 0)
  {
    QueueFits(c, states, steps, i);
    assert StepAt(c, states, steps, i);
    PrepareSends(c, states[i], steps[i].room);
  }

  lemma NothingLostNext(c: Config, s: State, b: State, n: nat, room: nat)
    requires Prepared(c, s, b, n) && Inv(c, b) && n < |Left(s)|
    requires |b.sq| <= c.sqCapacity && room >= 1
    ensures |PrepareNext(c, b, room).sq| <= c.sqCapacity && RoomFor(c, b, room)
  {
    PreparedOneMore(c, s, b, n, room);
    QueueFitsStep(c, b, PrepareOne(if room <= |b.sq| then room else |b.sq|));
  }

  ghost predicate StillFits(c: Config, s: State, rooms: nat -> nat, i: nat) {
    |PrepareMany(c, s, rooms, i).sq| <= c.sqCapacity
  }

  lemma NothingLostStep(c: Config, s: State, rooms: nat -> nat, n: nat)
    requires Inv(c, s) && s.phase.Preparing? && !s.faulted && n < |Left(s)|
    requires StillFits(c, s, rooms, n) && rooms(n) >= 1
    ensures StillFits(c, s, rooms, n + 1)
    ensures Admitted(c, s, rooms)(n)
  {
    PrepareManyKeeps(c, s, rooms, n);
    NothingLostNext(c, s, PrepareMany(c, s, rooms, n), n, rooms(n));
  }

  lemma FitsKept(c: Config, s: State, rooms: nat -> nat, i: nat)
    requires Inv(c, s) && s.phase.Preparing? && !s.faulted && i < |Left(s)| && rooms(i) >= 1
    ensures KeptBy((j: nat) => StillFits(c, s, rooms, j), i)
  {
    if StillFits(c, s, rooms, i) { NothingLostStep(c, s, rooms, i); }
  }

  lemma AlwaysRoom(c: Config, s: State, rooms: nat -> nat, n: nat)
    requires Inv(c, s) && s.phase.Preparing? && !s.faulted && n < |Left(s)|
    requires |s.sq| <= c.sqCapacity && forall i :: rooms(i) >= 1
    ensures Admitted(c, s, rooms)(n)
  {
    var p := (i: nat) => StillFits(c, s, rooms, i);
    forall i: nat | i < n ensures KeptBy(p, i) { FitsKept(c, s, rooms, i); }
    Induction(p, n);
    NothingLostStep(c, s, rooms, n);
  }

  lemma WholeBatchDone(c: Config, s: State, rooms: nat -> nat)
    requires Inv(c, s) && s.phase.Preparing? && !s.faulted
    ensures PrepareMany(c, s, rooms, |Left(s)|).phase == Preparing(|InOrder(s.pending)|)
  {
    PrepareManyKeeps(c, s, rooms, |Left(s)|);
  }

  lemma WholeBatchQueued(c: Config, s: State, rooms: nat -> nat)
    requires Inv(c, s) && s.phase.Preparing? && !s.faulted
    requires |s.sq| <= c.sqCapacity && forall i :: rooms(i) >= 1
    ensures Queued(c, s, rooms, |Left(s)|) == Left(s) && Lost(c, s, rooms, |Left(s)|) == []
  {
    forall i: nat | i < |Left(s)| ensures Admitted(c, s, rooms)(i) { AlwaysRoom(c, s, rooms, i); }
    SelectAll(Left(s), Admitted(c, s, rooms), |Left(s)|);
    assert Left(s)[..|Left(s)|] == Left(s);
  }

  /** Oversized batches: whatever the length of the batch and the capacity, if every in-batch submit
      frees a slot then no request is dropped and the whole batch is sent in visiting order. */
  lemma OversizedBatchIsSentWhole(c: Config, s: State, rooms: nat -> nat)
    requires Inv(c, s) && s.phase.Preparing? && !s.faulted
    requires |s.sq| <= c.sqCapacity && forall i :: rooms(i) >= 1
    ensures var t := PrepareMany(c, s, rooms, |Left(s)|);
            && AllPushed(s.pushes, Left(s))
            && Sent(t) == Sent(s) + EntriesOf(s.pushes, Left(s))
            && t.dropped == s.dropped
            && t.phase == Preparing(|InOrder(s.pending)|)
  {
    assert s.dropped + [] == s.dropped;
    assert Left(s)[..|Left(s)|] == Left(s);
    WholeBatchQueued(c, s, rooms);
    BatchIsSentOrDropped(c, s, rooms, |Left(s)|);
    WholeBatchDone(c, s, rooms);
  }
}
