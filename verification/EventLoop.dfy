/** The event loop: adding requests, and dispatching completions to their subscribers. */
module EventLoops {
  import opened Bits
  import opened CircularQueue
  import opened Requests
  import opened BufferRings
  import opened Protocol
  import opened Lifecycle
  import opened Soundness
  import opened Runs
  import opened EventHandlers
  import opened SubmissionQueues

  /** A completion in shared memory: its user data is an address, or 0. */
  datatype RawCqe = RawCqe(userData: nat, res: int, flags: nat)

  ghost predicate Shows(pushes: seq<Push>, raw: RawCqe, x: Cqe) {
    raw == RawCqe(UserData(pushes, x.entry.data), x.res, x.flags)
  }

  /** The completion the loop looks at, as shared memory shows it. */
  ghost predicate LooksAt(s: State, raw: RawCqe) {
    s.phase.Reaping? && s.phase.at < |s.cq| && Shows(s.pushes, raw, s.cq[s.phase.at])
  }

  /** What dispatching the current completion reads and decides. */
  ghost predicate DispatchReads(s: State, t: State)
    requires s.phase.Reaping? && s.phase.at < |s.cq|
  {
    var x := s.cq[s.phase.at];
    match x.entry.data
    case None =>
      t == s.(outcomes := s.outcomes + [LoopError(MalformedEntry)], phase := Handling(s.phase.at, false))
    case Some(p) =>
      var a := AddressIn(s.pushes, p);
      && a != 0
      && if a !in s.heap then t == s.(faulted := true)
         else
           && BlockSound(s.heap, s.pushes, a)
           && var (o, g) := DispatchRequest(s.pushes[s.heap[a].birth].request, x, s.store);
              t == s.(outcomes := s.outcomes + [o], phase := Handling(s.phase.at, g))
  }

  lemma AddressIsNotNull(s: State, a: nat)
    requires Typed(s) && a in s.heap
    ensures a != 0
  {
    assert BlockSound(s.heap, s.pushes, a) && WellTagged(s.pushes[s.heap[a].birth]);
  }

  /** Null user data is an error of the loop. Otherwise the user data is an address, and either memory is read
      through a dangling pointer, or the outcome is that of a request pushed at this address. */
  lemma DispatchMeans(c: Config, s: State)
    requires Reachable(c, s) && Enabled(c, s, Dispatch)
    ensures DispatchReads(s, Next(c, s, Dispatch)) && 0 !in s.heap
  {
    ReachableIsSound(c, s);
    CurrentCompletion(c, s);
    forall a: nat | a in s.heap ensures a != 0 { AddressIsNotNull(s, a); }
    var data := s.cq[s.phase.at].entry.data;
    if data.Some? {
      assert WellTagged(s.pushes[data.value]);
      assert AddressIn(s.pushes, data.value) in s.heap ==>
          BlockSound(s.heap, s.pushes, AddressIn(s.pushes, data.value));
    }
  }

  const HANDLE: seq<Step> := [Dispatch] + [GiveBack]

  /** The event has the bytes that the buffer named by the flags holds. */
  ghost predicate HasBytesOf(s: State, outcome: Outcome, flags: nat, res: int)
    requires FromTheRing(outcome)
  {
    IdOf(flags) < |s.store| && outcome.event.data.bytes == Prefix(s.store[IdOf(flags)], res)
  }

  /** The outcome of the current completion has been decided. */
  ghost predicate Decided(c: Config, s: State, outcome: Outcome, giveBack: bool, flags: nat) {
    && Enabled(c, s, Dispatch) && flags == s.cq[s.phase.at].flags
    && Next(c, s, Dispatch)
       == s.(outcomes := s.outcomes + [outcome], phase := Handling(s.phase.at, giveBack))
    && giveBack == FromTheRing(outcome)
    && (giveBack ==> HasBytesOf(s, outcome, flags, s.cq[s.phase.at].res))
  }

  /** The outcome of reading the block at the user data, or of finding none set. */
  ghost predicate DecidedFrom(s: State, raw: RawCqe, outcome: Outcome) {
    && s.phase.Reaping? && s.phase.at < |s.cq|
    && outcome == if raw.userData in s.heap
                  then DispatchRequest(s.heap[raw.userData].content, s.cq[s.phase.at], s.store).0
                  else LoopError(MalformedEntry)
  }

  /** The callback is called in the state `during`, which is the one after `s` in which the completion `raw` has
      been dispatched: the ring is as it was, and the buffer still holds the bytes of the event. */
  ghost predicate CalledDuring(s: State, during: State, outcome: Outcome, raw: RawCqe) {
    && s.phase.Reaping? && during.phase == Handling(s.phase.at, FromTheRing(outcome))
    && during.ring == s.ring && during.store == s.store && during.heap == s.heap
    && during.outcomes == s.outcomes + [outcome]
    && (FromTheRing(outcome) ==> HasBytesOf(during, outcome, raw.flags, raw.res))
  }

  /** The state once its handler has returned and its buffer is back. */
  ghost function AfterHandler(c: Config, s: State, outcome: Outcome, giveBack: bool, flags: nat): State
    requires s.phase.Reaping?
  {
    s.(outcomes := s.outcomes + [outcome], phase := Handled(s.phase.at),
       ring := if giveBack then ReturnBuffer(c, s.ring, IdOf(flags)) else s.ring)
  }

  lemma AfterDecision(c: Config, s: State, outcome: Outcome, giveBack: bool, flags: nat)
    requires Reachable(c, s) && Decided(c, s, outcome, giveBack, flags)
    ensures var t := AfterHandler(c, s, outcome, giveBack, flags);
            Leads(c, s, HANDLE, t) && Reachable(c, t)
  {
    var t, u := Next(c, s, Dispatch), AfterHandler(c, s, outcome, giveBack, flags);
    StepReaches(c, s, Dispatch);
    StepReaches(c, t, GiveBack);
    LeadsOne(c, s, Dispatch, t);
    LeadsOne(c, t, GiveBack, u);
    LeadsOn(c, s, [Dispatch], t, [GiveBack], u);
  }

  /** Handling the current completion adds its outcome, and leaves it to be released. */
  ghost predicate HandledIn(s: State, t: State, outcome: Outcome) {
    && s.phase.Reaping? && t.phase == Handled(s.phase.at) && t.cq == s.cq && t.pushes == s.pushes
    && t.heap == s.heap && t.outcomes == s.outcomes + [outcome]
  }

  /** Only a completion without user data has the null address. */
  lemma HandledIsReleasedNext(c: Config, s: State, t: State, raw: RawCqe, outcome: Outcome)
    requires Reachable(c, s) && !s.faulted && LooksAt(s, raw) && HandledIn(s, t, outcome) && !t.faulted
    ensures if raw.userData == 0 then Enabled(c, t, Step.Release) && Next(c, t, Step.Release) == t.(faulted := true)
            else NextRelease(t, raw.userData)
  {
    DispatchMeans(c, s);
  }

  /** Visiting a completion only adds to the outcomes, and frees blocks. */
  ghost predicate VisitedIn(s: State, t: State, outcome: Outcome) {
    && s.phase.Reaping? && t.phase == Reaping(s.phase.at + 1) && t.cq == s.cq && t.pushes == s.pushes
    && t.outcomes == s.outcomes + [outcome]
    && forall a: nat :: a in t.heap ==> a in s.heap && t.heap[a] == s.heap[a]
  }

  lemma ReleaseLeaves(c: Config, s: State, t: State, outcome: Outcome, addr: nat)
    requires Reachable(c, t) && !t.faulted && NextRelease(t, addr) && HandledIn(s, t, outcome)
    ensures Next(c, t, Step.Release).ring == t.ring && Next(c, t, Step.Release).store == t.store
    ensures VisitedIn(s, Next(c, t, Step.Release), outcome)
  {
    ReleaseCases(c, t, addr);
  }

  const VISIT: seq<Step> := HANDLE + [Step.Release]

  /** Beginning a pass, and visiting `n` completions. */
  ghost function Visits(n: nat): seq<Step> {
    if n == 0 then [BeginReap] else Visits(n - 1) + VISIT
  }

  ghost predicate AllShown(s: State, raws: seq<RawCqe>) {
    |raws| == |s.cq| && forall i :: 0 <= i < |raws| ==> Shows(s.pushes, raws[i], s.cq[i])
  }

  /** A pass begun in `s` has visited completions, with these outcomes. */
  ghost predicate Passing(c: Config, s: State, t: State, outcomes: seq<Outcome>) {
    && Leads(c, s, Visits(|outcomes|), t)
    && t.phase == Reaping(|outcomes|) && t.cq == s.cq && t.pushes == s.pushes
    && t.outcomes == s.outcomes + outcomes
  }

  lemma VisitsOneMore(c: Config, s: State, t: State, u: State, outcomes: seq<Outcome>, outcome: Outcome)
    requires Passing(c, s, t, outcomes) && Leads(c, t, VISIT, u) && VisitedIn(t, u, outcome)
    ensures Passing(c, s, u, outcomes + [outcome])
  {
    LeadsOn(c, s, Visits(|outcomes|), t, VISIT, u);
  }

  /** The pass ends: the head advances past the completions visited. */
  lemma PassEnds(c: Config, s: State, t: State, outcomes: seq<Outcome>)
    requires Reachable(c, t) && !t.faulted && Passing(c, s, t, outcomes) && |outcomes| == |s.cq|
    ensures var u := t.(cq := [], phase := Idle);
            Reachable(c, u) && Leads(c, s, Visits(|outcomes|) + ([EndVisit] + [AdvanceHead]), u)
  {
    var m := t.(phase := Advancing(|outcomes|));
    StepReaches(c, t, EndVisit);
    StepReaches(c, m, AdvanceHead);
    LeadsOne(c, t, EndVisit, m);
    LeadsOne(c, m, AdvanceHead, t.(cq := [], phase := Idle));
    LeadsOn(c, t, [EndVisit], m, [AdvanceHead], t.(cq := [], phase := Idle));
    LeadsOn(c, s, Visits(|outcomes|), t, [EndVisit] + [AdvanceHead], t.(cq := [], phase := Idle));
  }

  /** The registrations made on the subscriber at each address. */
  type Histories = map<nat, seq<Registration>>

  /** A notification reaches the callback in force on its subscriber, for its kind. */
  ghost predicate Invokes(histories: Histories, outcome: Outcome, invoked: Callback) {
    match outcome
    case LoopError(_) => invoked == None
    case Notified(subscriber, e) =>
      && subscriber in histories
      && var history := histories[subscriber];
         && (e.ErrorEvent? ==> invoked == InForce(history, ErrorKind))
         && (e.AcceptEvent? ==> invoked == InForce(history, AcceptKind))
         && (e.ReadEvent? ==> invoked == InForce(history, ReadKind))
         && (e.WriteEvent? ==> invoked == InForce(history, WriteKind))
         && (e.ConnectEvent? ==> invoked == InForce(history, ConnectKind))
  }

  /** A completion for the request in block `b` calls back its subscriber, if it has one: for an error, the
      callback of errors, and otherwise that of the request's own type. A multi-shot read whose flags name no
      buffer calls nobody back. */
  ghost predicate CallsBack(c: Config, histories: Histories, b: Block, raw: RawCqe, invoked: Callback) {
    var subscriber := b.content.header.subscriber;
    if subscriber == 0 || (b.kind.MultiRead? && raw.res >= 0 && IdOf(raw.flags) >= c.Buffers())
    then invoked == None
    else
      && subscriber in histories
      && var history := histories[subscriber];
         if raw.res < 0 then invoked == InForce(history, ErrorKind)
         else
           match b.kind
           case Accept => invoked == InForce(history, AcceptKind)
           case Connect => invoked == InForce(history, ConnectKind)
           case Read => invoked == InForce(history, ReadKind)
           case MultiRead => invoked == InForce(history, ReadKind)
           case Write => invoked == InForce(history, WriteKind)
  }

  /** The visit of a completion calls back for the request at its user data, and nobody if there is none. */
  ghost predicate CalledFor(c: Config, histories: Histories, s: State, raw: RawCqe, invoked: Callback) {
    if raw.userData in s.heap then CallsBack(c, histories, s.heap[raw.userData], raw, invoked)
    else invoked == None
  }

  lemma CalledBack(c: Config, histories: Histories, s: State, raw: RawCqe, outcome: Outcome, invoked: Callback)
    requires Reachable(c, s) && LooksAt(s, raw) && DecidedFrom(s, raw, outcome)
    requires Invokes(histories, outcome, invoked)
    ensures CalledFor(c, histories, s, raw, invoked)
  {
    ReachableIsSound(c, s);
    if raw.userData in s.heap {
      BlockIsTagged(s, raw.userData);
      NotifiesByKind(s.heap[raw.userData].content, s.heap[raw.userData].kind, s.cq[s.phase.at], s.store);
    }
  }

  lemma ExponentIsUnique(j: nat, k: nat)
    requires Pow2(j) == Pow2(k)
    ensures j == k
  {
    if j < k { Pow2Grows(j, k); } else if k < j { Pow2Grows(k, j); }
  }

  lemma StorageFits(c: Config)
    requires c.IsValid()
    ensures 1 <= c.Buffers() <= MAX_ENTRIES && IsPow2(c.Buffers())
  {
    CounterValues();
    if c.k < 15 { Pow2Grows(c.k, 15); }
  }

  method RegisterStorage(ring: BufferRing, c: Config, storage: array<Buffer>, granted: bool)
    requires c.IsValid() && storage.Length == c.Buffers() && ring.OneRing()
    modifies ring
    ensures granted ==>
              && ring.Ready() && ring.k == c.k && ring.buffers == storage && fresh(ring.slots)
              && ring.Model() == Ring(Iota(c.Buffers()), 0, c.Buffers())
  {
    StorageFits(c);
    var ok := ring.SetupBuffers(storage, granted);
    if granted { ExponentIsUnique(ring.k, c.k); }
  }

  class EventLoop {
    const c: Config
    const queue: SubmissionQueue
    const ring: BufferRing
    var subscribers: map<nat, EventHandler>   // the subscriber at each address

    ghost predicate Valid()
      reads this, queue, queue.pool, queue.pending, ring, ring.slots, ring.buffers
    {
      && queue.Valid() && queue.c == c
      && ring.Ready() && ring.k == c.k && ring.Model() == queue.world.ring
      && ring.buffers[..] == queue.world.store
    }

    /** `granted` is the kernel's answer to the registration of the buffers. */
    constructor (config: Config, storage: array<Buffer>, granted: bool, ghost initial: State)
      requires config.IsValid() && Init(config, initial)
      requires storage.Length == config.Buffers() && storage[..] == initial.store
      ensures granted ==> Valid()
      ensures queue.world == initial
    {
      c := config;
      queue := new SubmissionQueue(config, initial);
      ring := new BufferRing();
      subscribers := map[];
      new;
      Register(storage, granted);
    }

    /** Register the buffers with the kernel. */
    method Register(storage: array<Buffer>, granted: bool)
      requires c.IsValid() && queue.Valid() && queue.c == c && ring.OneRing()
      requires storage.Length == c.Buffers() && storage[..] == queue.world.store
      requires queue.world.ring == Ring(Iota(c.Buffers()), 0, c.Buffers())
      modifies ring
      ensures granted ==> Valid()
    {
      RegisterStorage(ring, c, storage, granted);
    }

    /** `add`: set the buffer group and the subscriber, then push. The result is always OK. */
    method Add(kind: Kind, fd: int, length: nat, subscriber: nat, addr: nat)
      requires Valid() && !queue.world.phase.Preparing? && addr != 0 && addr !in queue.pool.types
      modifies queue, queue.pool, queue.pending
      ensures Valid()
      ensures queue.world == Next(c, old(queue.world), PushRequest(addr, kind, fd, length, subscriber))
    {
      var header := Header(HEADER_MAGIC, Tag(kind), 0);
      var group := NO_GROUP;
      if kind.MultiRead? {
        group := BUFFER_GROUP_ID;
      }
      queue.Push(kind, Request(header.(subscriber := subscriber), fd, length, group), addr);
    }

    /** The tests on the header, and the switch on its tag. */
    method Switch(request: Request, res: int, flags: nat, ghost x: Cqe) returns (outcome: Outcome, giveBack: bool)
      requires ring.Ready() && x.res == res && x.flags == flags
      ensures (outcome, giveBack) == DispatchRequest(request, x, ring.buffers[..])
      ensures giveBack ==> IdOf(flags) < ring.buffers.Length
    {
      GetIgnoresTheFlag(x, ring.buffers.Length);
      giveBack := false;
      var subscriber := request.header.subscriber;
      if !request.header.IsValid() {
        return LoopError(InvalidHeader), false;
      }
      if subscriber == 0 {
        return LoopError(NoSubscriber), false;
      }
      if res < 0 {
        return Notified(subscriber, ErrorEvent(-res)), false;
      }
      match KindOfTag(request.header.op) {
        case Some(Accept) => outcome := Notified(subscriber, AcceptEvent(res));
        case Some(Read) => outcome := Notified(subscriber, ReadEvent(request.fd, FromCaller(res)));
        case Some(MultiRead) =>
          var view := ring.View(flags);
          if view.None? {
            outcome := LoopError(InvalidBufferId);
          } else {
            outcome := Notified(subscriber, ReadEvent(request.fd, FromRing(Prefix(view.value, res))));
            giveBack := true;
          }
        case Some(Write) => outcome := Notified(subscriber, WriteEvent(res, request.length));
        case Some(Connect) => outcome := Notified(subscriber, ConnectEvent);
        case None => outcome := LoopError(MalformedEntry);
      }
    }

    /** A notification is for the subscriber of the request at the user data. */
    ghost predicate Addresses(raw: RawCqe, outcome: Outcome)
      reads queue`memory
    {
      outcome.Notified? ==>
        && raw.userData in queue.memory
        && outcome.subscriber == queue.memory[raw.userData].header.subscriber != 0
    }

    /** What the dispatch closure decides before calling anyone; nothing, if it reads the header through a
        dangling pointer. */
    method Decide(raw: RawCqe) returns (outcome: Option<Outcome>, giveBack: bool)
      requires Valid() && LooksAt(queue.world, raw)
      ensures outcome.None? <==> raw.userData != 0 && raw.userData !in queue.memory
      ensures outcome.None? ==> Next(c, queue.world, Dispatch) == queue.world.(faulted := true)
      ensures outcome.Some? ==>
                && Decided(c, queue.world, outcome.value, giveBack, raw.flags)
                && DecidedFrom(queue.world, raw, outcome.value)
      ensures outcome.Some? ==> Addresses(raw, outcome.value)
    {
      DispatchMeans(c, queue.world);
      if raw.userData == 0 {
        return Some(LoopError(MalformedEntry)), false;
      }
      if raw.userData !in queue.memory {
        return None, false;
      }
      ghost var x := queue.world.cq[queue.world.phase.at];
      var decision;
      decision, giveBack := Switch(queue.memory[raw.userData], raw.res, raw.flags, x);
      DispatchReturns(queue.memory[raw.userData], x, queue.world.store);
      outcome := Some(decision);
    }

    /** A subscriber must outlive the completions of its requests. */
    ghost predicate SubscribersAlive()
      reads this, queue`memory, subscribers.Values
    {
      forall a :: a in queue.memory ==>
        var subscriber := queue.memory[a].header.subscriber;
        subscriber != 0 ==> subscriber in subscribers && subscribers[subscriber].Valid()
    }

    /** What has been registered on each subscriber. */
    ghost function Histories(): Histories
      reads this, subscribers.Values
    {
      map a | a in subscribers :: subscribers[a].history
    }

    /** Release the provided buffer, if the arm taken ends so. */
    method Return(giveBack: bool, flags: nat)
      requires ring.Ready() && ring.k == c.k && (giveBack ==> IdOf(flags) < ring.buffers.Length)
      modifies ring`tail, ring.slots
      ensures ring.Ready()
      ensures ring.Model() == if giveBack then ReturnBuffer(c, old(ring.Model()), IdOf(flags))
                              else old(ring.Model())
    {
      if giveBack {
        ring.Release(flags);
      }
    }

    /** Call `handle` on the subscriber of a notification, in the state `during`; errors of the loop have
        none. */
    method Notify(outcome: Outcome, ghost raw: RawCqe) returns (invoked: Callback, ghost during: State)
      requires Valid()
      requires SubscribersAlive() && Addresses(raw, outcome)
      ensures Invokes(Histories(), outcome, invoked)
      ensures during == queue.world && during.ring == ring.Model() && during.store == ring.buffers[..]
    {
      during := queue.world;
      invoked := None;
      if outcome.Notified? {
        invoked := subscribers[outcome.subscriber].Handle(outcome.event);
      }
    }

    /** The outcome has been decided; the callback comes next. */
    ghost method BeginHandling(outcome: Outcome, giveBack: bool, flags: nat)
      requires Valid() && Decided(c, queue.world, outcome, giveBack, flags)
      modifies queue`world
      ensures Valid() && queue.world == Next(c, old(queue.world), Dispatch)
    {
      StepReaches(c, queue.world, Dispatch);
      queue.MoveOn(Next(c, queue.world, Dispatch));
    }

    /** After the callback has returned. */
    method Finish(outcome: Outcome, giveBack: bool, flags: nat, ghost s: State)
      requires Valid() && Reachable(c, s) && Decided(c, s, outcome, giveBack, flags)
      requires queue.world == Next(c, s, Dispatch)
      modifies ring`tail, ring.slots, queue`world
      ensures Valid() && HandledIn(s, queue.world, outcome)
      ensures Leads(c, s, HANDLE, queue.world)
    {
      AfterDecision(c, s, outcome, giveBack, flags);
      Return(giveBack, flags);
      queue.MoveOn(AfterHandler(c, s, outcome, giveBack, flags));
    }

    /** Call the subscriber. */
    method Call(outcome: Outcome, giveBack: bool, raw: RawCqe) returns (invoked: Callback, ghost during: State)
      requires Valid() && LooksAt(queue.world, raw) && Decided(c, queue.world, outcome, giveBack, raw.flags)
      requires DecidedFrom(queue.world, raw, outcome) && Addresses(raw, outcome) && SubscribersAlive()
      modifies queue`world
      ensures Valid() && queue.world == Next(c, old(queue.world), Dispatch)
      ensures CalledFor(c, old(Histories()), old(queue.world), raw, invoked)
      ensures CalledDuring(old(queue.world), during, outcome, raw)
    {
      ghost var s, histories := queue.world, Histories();
      BeginHandling(outcome, giveBack, raw.flags);
      invoked, during := Notify(outcome, raw);
      CalledBack(c, histories, s, raw, outcome, invoked);
    }

    /** Call the subscriber, then give the buffer back. */
    method Deliver(outcome: Outcome, giveBack: bool, raw: RawCqe) returns (invoked: Callback, ghost during: State)
      requires Valid() && LooksAt(queue.world, raw) && Decided(c, queue.world, outcome, giveBack, raw.flags)
      requires DecidedFrom(queue.world, raw, outcome) && Addresses(raw, outcome) && SubscribersAlive()
      modifies ring`tail, ring.slots, queue`world
      ensures Valid() && SubscribersAlive() && HandledIn(old(queue.world), queue.world, outcome)
      ensures CalledFor(c, old(Histories()), old(queue.world), raw, invoked)
      ensures CalledDuring(old(queue.world), during, outcome, raw)
      ensures Leads(c, old(queue.world), HANDLE, queue.world)
    {
      ghost var s := queue.world;
      invoked, during := Call(outcome, giveBack, raw);
      Finish(outcome, giveBack, raw.flags, s);
    }

    /** The header is read through a dangling pointer. */
    ghost method Derail()
      requires Enabled(c, queue.world, Dispatch)
      requires Next(c, queue.world, Dispatch) == queue.world.(faulted := true)
      modifies queue`world
      ensures Leads(c, old(queue.world), [Dispatch], queue.world)
      ensures queue.world == old(queue.world).(faulted := true)
    {
      LeadsOne(c, queue.world, Dispatch, queue.world.(faulted := true));
      queue.Fault();
    }

    /** The dispatch closure: decide, call the subscriber, give the buffer back. `invoked` is the
        callback that the event reaches, and `during` the state in which it is called. */
    method Handle(raw: RawCqe) returns (outcome: Option<Outcome>, invoked: Callback, ghost during: State)
      requires Valid() && LooksAt(queue.world, raw) && SubscribersAlive()
      modifies ring`tail, ring.slots, queue`world
      ensures outcome.None? <==> raw.userData != 0 && raw.userData !in queue.memory
      ensures outcome.None? ==>
                && Leads(c, old(queue.world), [Dispatch], queue.world)
                && queue.world == old(queue.world).(faulted := true)
      ensures outcome.Some? ==>
                && Valid() && SubscribersAlive() && Leads(c, old(queue.world), HANDLE, queue.world)
                && HandledIn(old(queue.world), queue.world, outcome.value)
                && CalledDuring(old(queue.world), during, outcome.value, raw)
                && CalledFor(c, old(Histories()), old(queue.world), raw, invoked)
    {
      var giveBack;
      invoked, during := Option<nat>.None, queue.world;
      outcome, giveBack := Decide(raw);
      if outcome.Some? {
        invoked, during := Deliver(outcome.value, giveBack, raw);
      } else {
        Derail();
      }
    }

    /** `release` of the completion just handled, which does not test its user data. */
    method ReleaseUnguarded(raw: RawCqe, ghost s: State, ghost outcome: Outcome) returns (faulted: bool)
      requires Valid() && Reachable(c, s) && !s.faulted && LooksAt(s, raw) && HandledIn(s, queue.world, outcome)
      requires SubscribersAlive()
      modifies queue, queue.pool
      ensures Leads(c, old(queue.world), [Step.Release], queue.world)
      ensures (faulted <==> queue.world.faulted) && (faulted <==> raw.userData == 0)
      ensures faulted ==> queue.world == old(queue.world).(faulted := true)
      ensures !faulted ==> Valid() && VisitedIn(s, queue.world, outcome) && SubscribersAlive()
    {
      ghost var t := queue.world;
      HandledIsReleasedNext(c, s, t, raw, outcome);
      faulted := raw.userData == 0;
      LeadsOne(c, t, Step.Release, Next(c, t, Step.Release));
      if faulted {
        queue.Fault();
      } else {
        ReleaseLeaves(c, s, t, outcome, raw.userData);
        queue.Release(raw.userData);
      }
    }

    method ReleaseHandled(raw: RawCqe, ghost s: State, ghost outcome: Outcome) returns (faulted: bool)
      requires Valid() && Reachable(c, s) && !s.faulted && LooksAt(s, raw) && HandledIn(s, queue.world, outcome)
      requires SubscribersAlive() && Leads(c, s, HANDLE, queue.world)
      modifies queue, queue.pool
      ensures Leads(c, s, VISIT, queue.world) && queue.world.outcomes == s.outcomes + [outcome]
      ensures (faulted <==> queue.world.faulted) && (faulted <==> raw.userData == 0)
      ensures !faulted ==> Valid() && VisitedIn(s, queue.world, outcome) && SubscribersAlive()
    {
      ghost var t := queue.world;
      faulted := ReleaseUnguarded(raw, s, outcome);
      LeadsOn(c, s, HANDLE, t, [Step.Release], queue.world);
    }

    /** One iteration of the completion pass: the dispatch closure, then `release`. The first reads the header
        through a dangling pointer, or the second through a null one, exactly if the user data is no address
        of a block: then `faulted`. */
    method Visit(raw: RawCqe)
      returns (outcome: Option<Outcome>, invoked: Callback, faulted: bool, ghost during: State)
      requires Valid() && LooksAt(queue.world, raw) && SubscribersAlive()
      modifies ring`tail, ring.slots, queue, queue.pool
      ensures faulted <==> queue.world.faulted
      ensures faulted <==> raw.userData == 0 || raw.userData !in old(queue.memory)
      ensures outcome.None? <==> raw.userData != 0 && raw.userData !in old(queue.memory)
      ensures outcome.None? ==> Leads(c, old(queue.world), [Dispatch], queue.world)
      ensures outcome.Some? ==>
                && Leads(c, old(queue.world), VISIT, queue.world)
                && CalledDuring(old(queue.world), during, outcome.value, raw)
                && queue.world.outcomes == old(queue.world).outcomes + [outcome.value]
                && CalledFor(c, old(Histories()), old(queue.world), raw, invoked)
      ensures !faulted ==>
                Valid() && SubscribersAlive() && VisitedIn(old(queue.world), queue.world, outcome.value)
    {
      ghost var s := queue.world;
      outcome, invoked, during := Handle(raw);
      faulted := outcome.None?;
      if !faulted {
        faulted := ReleaseHandled(raw, s, outcome.value);
      }
    }

    ghost method BeginPass()
      requires Valid() && queue.world.phase.Idle?
      modifies queue`world
      ensures Valid() && Passing(c, old(queue.world), queue.world, [])
    {
      ghost var s := queue.world;
      StepReaches(c, s, BeginReap);
      LeadsOne(c, s, BeginReap, s.(phase := Reaping(0)));
      queue.MoveOn(s.(phase := Reaping(0)));
    }

    method VisitNext(raw: RawCqe, outcomes: seq<Outcome>, ghost s: State)
      returns (outcomes': seq<Outcome>, faulted: bool)
      requires Valid() && SubscribersAlive() && Passing(c, s, queue.world, outcomes)
      requires LooksAt(queue.world, raw)
      modifies ring`tail, ring.slots, queue, queue.pool
      ensures faulted <==> queue.world.faulted
      ensures !faulted ==>
                && Valid() && SubscribersAlive()
                && |outcomes'| == |outcomes| + 1 && Passing(c, s, queue.world, outcomes')
    {
      ghost var t := queue.world;
      ghost var during;
      var outcome, invoked;
      outcome, invoked, faulted, during := Visit(raw);
      outcomes' := outcomes;
      if !faulted {
        VisitsOneMore(c, s, t, queue.world, outcomes, outcome.value);
        outcomes' := outcomes + [outcome.value];
      }
    }

    /** The head advances past the completions visited. */
    ghost method EndPass(s: State, outcomes: seq<Outcome>)
      requires Valid() && Passing(c, s, queue.world, outcomes) && |outcomes| == |s.cq|
      modifies queue`world
      ensures Valid() && queue.world == old(queue.world).(cq := [], phase := Idle)
      ensures Leads(c, s, Visits(|outcomes|) + ([EndVisit] + [AdvanceHead]), queue.world)
    {
      PassEnds(c, s, queue.world, outcomes);
      queue.MoveOn(queue.world.(cq := [], phase := Idle));
    }

    /** One pass over the completions, as long as no fault occurs: each is visited once, in order, and the head
        advances past them. */
    method Pass(raws: seq<RawCqe>) returns (outcomes: seq<Outcome>, faulted: bool)
      requires Valid() && queue.world.phase.Idle? && AllShown(queue.world, raws) && SubscribersAlive()
      modifies ring`tail, ring.slots, queue, queue.pool
      ensures faulted <==> queue.world.faulted
      ensures !faulted ==>
                && Valid() && |outcomes| == |raws| && queue.world.cq == [] && queue.world.phase.Idle?
                && Leads(c, old(queue.world), Visits(|raws|) + ([EndVisit] + [AdvanceHead]), queue.world)
                && queue.world.outcomes == old(queue.world).outcomes + outcomes
    {
      ghost var s := queue.world;
      BeginPass();
      outcomes, faulted := [], false;
      for i := 0 to |raws|
        invariant |outcomes| == i && !faulted && Valid() && SubscribersAlive()
        invariant Passing(c, s, queue.world, outcomes)
      {
        outcomes, faulted := VisitNext(raws[i], outcomes, s);
        if faulted {
          return;
        }
      }
      EndPass(s, outcomes);
    }
  }
}
