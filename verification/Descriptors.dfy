/** Who owns which descriptor, over any sequence of constructions, moves, swap-assignments and
    destructions of FileDescriptors, of the objects that have one as a member, and of Connections. */
module Descriptors {
  import opened Custody

  /** A descriptor object is on its own, the socket of a Connector or an Acceptor, or the socket of a
      Connection. The last two cancel their socket before it is closed. */
  datatype Role = Free | Member | Conn

  datatype Owner = Owner(role: Role, fd: Raw)

  datatype World = World(owners: map<nat, Owner>, calls: seq<Call>)

  datatype Step =
    | Open(id: nat, fd: Raw)              // FileDescriptor{ ::socket(...) }, or of an accepted client
    | Default(id: nat, role: Role)        // an object without a descriptor
    | MoveConstruct(id: nat, from: nat)
    | Adopt(id: nat, from: nat)           // Connection{ loop, std::move(socket) }
    | MoveAssign(to: nat, from: nat)
    | Destroy(id: nat)

  // ----- what the code does -----

  /** Move construction: the new descriptor, and the one left behind. */
  function Moved(fd: Raw): (Raw, Raw) { (fd, INVALID) }

  /** Move assignment exchanges the two. */
  function Exchanged(to: Raw, from: Raw): (Raw, Raw) { (from, to) }

  /** The calls a destructor makes. */
  function Farewell(role: Role, fd: Raw): seq<Call> {
    if fd > 0 then (if role.Free? then [] else [Cancelled(fd)]) + [Closed(fd)] else []
  }

  /** A negative number is no descriptor. */
  function Noted(calls: seq<Call>, call: Call): seq<Call> {
    if call.fd >= 0 then calls + [call] else calls
  }

  /** The system hands out descriptors that are not open, or a negative number. An object moves
      only to one of its own class. */
  predicate Enabled(w: World, step: Step) {
    match step
    case Open(id, fd) => id !in w.owners && (fd >= 0 ==> StageOf(w.calls, fd).Shut?)
    case Default(id, role) => id !in w.owners
    case MoveConstruct(id, from) => id !in w.owners && from in w.owners
    case Adopt(id, from) => id !in w.owners && from in w.owners && !w.owners[from].role.Conn?
    case MoveAssign(to, from) =>
      to in w.owners && from in w.owners && (w.owners[to].role.Conn? <==> w.owners[from].role.Conn?)
    case Destroy(id) => id in w.owners
  }

  function Left(w: World, id: nat): World
    requires id in w.owners
  {
    w.(owners := w.owners[id := w.owners[id].(fd := Moved(w.owners[id].fd).1)])
  }

  /** A step that cannot be taken changes nothing. */
  function Next(w: World, step: Step): World {
    if !Enabled(w, step) then w
    else
      match step
      case Open(id, fd) =>
        World(w.owners[id := Owner(Free, fd)], Noted(w.calls, Opened(fd)))
      case Default(id, role) => w.(owners := w.owners[id := Owner(role, INVALID)])
      case MoveConstruct(id, from) =>
        var role := if w.owners[from].role.Conn? then Conn else Free;
        w.(owners := Left(w, from).owners[id := Owner(role, Moved(w.owners[from].fd).0)])
      case Adopt(id, from) =>
        var fd := Moved(w.owners[from].fd).0;
        World(Left(w, from).owners[id := Owner(Conn, fd)], Noted(w.calls, Adopted(fd)))
      case MoveAssign(to, from) =>
        var (x, y) := Exchanged(w.owners[to].fd, w.owners[from].fd);
        w.(owners := w.owners[to := w.owners[to].(fd := x)][from := w.owners[from].(fd := y)])
      case Destroy(id) =>
        World(w.owners - {id}, w.calls + Farewell(w.owners[id].role, w.owners[id].fd))
  }

  function End(steps: seq<Step>): World {
    if steps == [] then World(map[], []) else Next(End(steps[..|steps| - 1]), steps[|steps| - 1])
  }

  // ----- the invariant -----

  ghost predicate Owns(w: World, id: nat, fd: Raw) {
    id in w.owners && w.owners[id].fd == fd
  }

  function RoleStage(role: Role): Stage {
    if role.Conn? then InConnection else Held
  }

  /** Every owned descriptor is open, in the stage that fits its owner. */
  ghost predicate OwnedAreOpen(w: World) {
    forall id, fd :: Owns(w, id, fd) && fd >= 0 ==> StageOf(w.calls, fd) == RoleStage(w.owners[id].role)
  }

  ghost predicate OneOwner(w: World) {
    forall a, b, fd :: Owns(w, a, fd) && Owns(w, b, fd) && fd >= 0 ==> a == b
  }

  ghost predicate OpenIsOwned(w: World, fd: Raw) {
    fd > 0 && !StageOf(w.calls, fd).Shut? ==> exists id :: Owns(w, id, fd)
  }

  ghost predicate Orderly(calls: seq<Call>, fd: Raw) {
    StageOf(calls, fd) != Misused
  }

  predicate OnlyPositive(calls: seq<Call>) {
    forall call :: call in calls && (call.Cancelled? || call.Closed?) ==> call.fd > 0
  }

  ghost predicate Inv(w: World) {
    && OwnedAreOpen(w) && OneOwner(w)
    && (forall fd :: OpenIsOwned(w, fd)) && (forall fd :: Orderly(w.calls, fd))
    && OnlyPositive(w.calls) && CancelsThenCloses(w.calls)
  }

  // ----- every step keeps it -----

  lemma NotedKeeps(calls: seq<Call>, call: Call, fd: Raw)
    requires call.Opened? || call.Adopted?
    ensures StageOf(Noted(calls, call), fd)
            == if call.fd == fd && fd >= 0 then After(StageOf(calls, fd), call) else StageOf(calls, fd)
    ensures CancelsThenCloses(calls) && OnlyPositive(calls) ==>
              CancelsThenCloses(Noted(calls, call)) && OnlyPositive(Noted(calls, call))
  {
    StageAfter(calls, call, fd);
    if CancelsThenCloses(calls) { CancelsThenClosesMore(calls, [call]); }
  }

  lemma OpenKeeps(w: World, step: Step)
    requires Inv(w) && step.Open? && Enabled(w, step)
    ensures Inv(Next(w, step))
  {
    var t := Next(w, step);
    NotedKeeps(w.calls, Opened(step.fd), step.fd);
    forall fd ensures StageOf(t.calls, fd) == if fd == step.fd && fd >= 0 then Held else StageOf(w.calls, fd) {
      NotedKeeps(w.calls, Opened(step.fd), fd);
    }
    forall id, fd | id != step.id ensures Owns(t, id, fd) <==> Owns(w, id, fd) {}
    assert Owns(t, step.id, step.fd);
    forall fd ensures OpenIsOwned(t, fd) && Orderly(t.calls, fd) {
      assert OpenIsOwned(w, fd) && Orderly(w.calls, fd);
      if id :| Owns(w, id, fd) && id != step.id { assert Owns(t, id, fd); }
    }
  }

  /** Descriptors change hands, each from `origin(id)` to `id`, and with `entered` into a Connection. */
  lemma RelabelKeeps(w: World, t: World, origin: map<nat, nat>, entered: Raw)
    requires Inv(w) && CancelsThenCloses(t.calls) && OnlyPositive(t.calls)
    requires forall fd :: StageOf(t.calls, fd)
                          == if fd == entered && fd >= 0 then InConnection else StageOf(w.calls, fd)
    requires entered >= 0 ==> StageOf(w.calls, entered).Held?
    requires origin.Keys == t.owners.Keys
    requires forall a, b :: a in origin && b in origin && origin[a] == origin[b] && t.owners[a].fd >= 0 ==>
                              a == b || t.owners[b].fd < 0
    requires forall a :: a in origin && t.owners[a].fd >= 0 ==>
                           && Owns(w, origin[a], t.owners[a].fd)
                           && (t.owners[a].role.Conn? <==>
                                 w.owners[origin[a]].role.Conn? || t.owners[a].fd == entered)
    requires forall id :: id in w.owners && w.owners[id].fd > 0 ==>
                            exists a :: Owns(t, a, w.owners[id].fd)
    ensures Inv(t)
  {
    forall a, fd | Owns(t, a, fd) && fd >= 0 ensures StageOf(t.calls, fd) == RoleStage(t.owners[a].role) {
      assert Owns(w, origin[a], fd);
    }
    forall a, b, fd | Owns(t, a, fd) && Owns(t, b, fd) && fd >= 0 ensures a == b {
      assert Owns(w, origin[a], fd) && Owns(w, origin[b], fd);
    }
    forall fd ensures OpenIsOwned(t, fd) && Orderly(t.calls, fd) {
      assert OpenIsOwned(w, fd) && Orderly(w.calls, fd);
      if id :| Owns(w, id, fd) && fd > 0 { assert w.owners[id].fd == fd; }
    }
  }

  function Identity(owners: map<nat, Owner>): map<nat, nat> {
    map id | id in owners :: id
  }

  lemma MoveKeeps(w: World, step: Step)
    requires Inv(w) && (step.MoveConstruct? || step.Default?) && Enabled(w, step)
    ensures Inv(Next(w, step))
  {
    var t := Next(w, step);
    var origin := Identity(t.owners)[step.id := if step.MoveConstruct? then step.from else step.id];
    forall id | id in w.owners && w.owners[id].fd > 0 ensures exists a :: Owns(t, a, w.owners[id].fd) {
      assert Owns(t, if step.MoveConstruct? && id == step.from then step.id else id, w.owners[id].fd);
    }
    RelabelKeeps(w, t, origin, INVALID);
  }

  lemma ExchangeKeeps(w: World, step: Step)
    requires Inv(w) && step.MoveAssign? && Enabled(w, step)
    ensures Inv(Next(w, step))
  {
    var t := Next(w, step);
    forall id | id in w.owners && w.owners[id].fd > 0 ensures exists a :: Owns(t, a, w.owners[id].fd) {
      assert Owns(t, if id == step.from then step.to else if id == step.to then step.from else id,
                  w.owners[id].fd);
    }
    RelabelKeeps(w, t, Identity(t.owners)[step.to := step.from][step.from := step.to], INVALID);
  }

  lemma AdoptKeeps(w: World, step: Step)
    requires Inv(w) && step.Adopt? && Enabled(w, step)
    ensures Inv(Next(w, step))
  {
    var t, moved := Next(w, step), w.owners[step.from].fd;
    assert Owns(w, step.from, moved);
    NotedKeeps(w.calls, Adopted(moved), moved);
    forall fd ensures StageOf(t.calls, fd)
                      == if fd == moved && fd >= 0 then InConnection else StageOf(w.calls, fd) {
      NotedKeeps(w.calls, Adopted(moved), fd);
    }
    forall id | id in w.owners && w.owners[id].fd > 0 ensures exists a :: Owns(t, a, w.owners[id].fd) {
      assert Owns(t, if id == step.from then step.id else id, w.owners[id].fd);
    }
    forall a | a in t.owners && t.owners[a].fd == moved >= 0 ensures a == step.id {
      if a != step.id { assert Owns(w, a, moved); }
    }
    RelabelKeeps(w, t, Identity(t.owners)[step.id := step.from], moved);
  }

  /** After the calls of a destructor the descriptor is shut, and no other is concerned. */
  lemma FarewellShuts(calls: seq<Call>, role: Role, mine: Raw, fd: Raw)
    requires mine > 0 ==> StageOf(calls, mine) == RoleStage(role)
    ensures StageOf(calls + Farewell(role, mine), fd)
            == if fd == mine && fd > 0 then Shut else StageOf(calls, fd)
  {
    if mine > 0 {
      if role.Free? {
        assert Farewell(role, mine) == [Closed(mine)];
        StageAfter(calls, Closed(mine), fd);
      } else {
        assert Farewell(role, mine) == [Cancelled(mine), Closed(mine)];
        StageAfterTwo(calls, Cancelled(mine), Closed(mine), fd);
      }
    } else {
      assert calls + [] == calls;
    }
  }

  lemma FarewellIsTidy(calls: seq<Call>, role: Role, fd: Raw)
    requires CancelsThenCloses(calls) && OnlyPositive(calls)
    ensures CancelsThenCloses(calls + Farewell(role, fd)) && OnlyPositive(calls + Farewell(role, fd))
  {
    var more := Farewell(role, fd);
    assert forall i: nat :: i < |more| && more[i].Cancelled? ==> ClosedNext(more, i);
    CancelsThenClosesMore(calls, more);
  }

  lemma DestroyKeeps(w: World, step: Step)
    requires Inv(w) && step.Destroy? && Enabled(w, step)
    ensures Inv(Next(w, step))
  {
    var t, o := Next(w, step), w.owners[step.id];
    assert Owns(w, step.id, o.fd);
    forall fd ensures StageOf(t.calls, fd) == if fd == o.fd && fd > 0 then Shut else StageOf(w.calls, fd) {
      FarewellShuts(w.calls, o.role, o.fd, fd);
    }
    FarewellIsTidy(w.calls, o.role, o.fd);
    forall id, fd ensures Owns(t, id, fd) <==> Owns(w, id, fd) && id != step.id {}
    forall fd ensures OpenIsOwned(t, fd) && Orderly(t.calls, fd) {
      assert OpenIsOwned(w, fd) && Orderly(w.calls, fd);
      if id :| Owns(w, id, fd) && id != step.id {
        assert Owns(t, id, fd);
      }
    }
  }

  lemma StepKeeps(w: World, step: Step)
    requires Inv(w)
    ensures Inv(Next(w, step))
  {
    if Enabled(w, step) {
      match step
      case Open(_, _) => OpenKeeps(w, step);
      case Default(_, _) => MoveKeeps(w, step);
      case MoveConstruct(_, _) => MoveKeeps(w, step);
      case Adopt(_, _) => AdoptKeeps(w, step);
      case MoveAssign(_, _) => ExchangeKeeps(w, step);
      case Destroy(_) => DestroyKeeps(w, step);
    }
  }

  lemma {:induction false} RunKeeps(steps: seq<Step>)
    ensures Inv(End(steps))
  {
    if steps != [] {
      RunKeeps(steps[..|steps| - 1]);
      StepKeeps(End(steps[..|steps| - 1]), steps[|steps| - 1]);
    }
  }

  // ----- what it gives, over every run -----

  /** A positive descriptor is open exactly while one object owns it, and that object is alone. */
  lemma OpenIffOwned(steps: seq<Step>, fd: Raw)
    requires fd > 0
    ensures var w := End(steps);
            && (!StageOf(w.calls, fd).Shut? <==> exists id :: Owns(w, id, fd))
            && (forall a, b :: Owns(w, a, fd) && Owns(w, b, fd) ==> a == b)
            && (forall id :: Owns(w, id, fd) ==> StageOf(w.calls, fd) == RoleStage(w.owners[id].role))
  {
    RunKeeps(steps);
    assert OpenIsOwned(End(steps), fd);
  }

  /** It is closed once for each time it was opened, less one while an object owns it. */
  lemma ClosedWhenLastOwnerDies(steps: seq<Step>, fd: Raw)
    requires fd > 0
    ensures var w := End(steps);
            Count(w.calls, Opened(fd))
            == Count(w.calls, Closed(fd)) + if exists id :: Owns(w, id, fd) then 1 else 0
  {
    RunKeeps(steps);
    OpenIffOwned(steps, fd);
    assert Orderly(End(steps).calls, fd);
    ClosedOncePerOpening(End(steps).calls, fd);
  }

  /** A descriptor that a Connection took is cancelled exactly once before it is closed, right
      before, whatever Connections it went through. */
  lemma CancelPrecedesClose(steps: seq<Step>, fd: Raw, i: nat, j: nat)
    requires var calls := End(steps).calls;
             && i < j < |calls| && calls[i] == Adopted(fd) && calls[j] == Closed(fd)
             && forall k :: i < k < j ==> calls[k] != Closed(fd)
    ensures var calls := End(steps).calls;
            && i < j - 1 && calls[j - 1] == Cancelled(fd)
            && forall k :: i < k < j - 1 ==> calls[k] != Cancelled(fd)
  {
    RunKeeps(steps);
    assert Orderly(End(steps).calls, fd);
    AdoptedIsCancelledOnce(End(steps).calls, fd, i, j);
  }

  lemma {:induction false} NotCounted(calls: seq<Call>, call: Call)
    requires call !in calls
    ensures Count(calls, call) == 0
  {
    if calls != [] { NotCounted(calls[..|calls| - 1], call); }
  }

  /** Descriptor 0 counts as invalid: once opened it is never cancelled, closed nor opened again. */
  lemma ZeroLeaks(steps: seq<Step>)
    ensures var calls := End(steps).calls;
            && Closed(0) !in calls && Cancelled(0) !in calls && Count(calls, Opened(0)) <= 1
  {
    RunKeeps(steps);
    var calls := End(steps).calls;
    assert Orderly(calls, 0);
    ClosedOncePerOpening(calls, 0);
    NotCounted(calls, Closed(0));
  }

  lemma ZeroOpened()
    ensures End([Open(1, 0)]) == World(map[1 := Owner(Free, 0)], [Opened(0)])
  {
    var start := World(map[], []);
    assert [Open(1, 0)][..0] == [];
    assert End([]) == start;
    assert Noted([], Opened(0)) == [Opened(0)];
    assert Next(start, Open(1, 0)) == World(map[1 := Owner(Free, 0)], [Opened(0)]);
  }

  /** A descriptor object that received 0 and is gone: 0 stays open, and nobody owns it. */
  lemma ZeroLeaksInARun()
    ensures End([Open(1, 0), Destroy(1)]) == World(map[], [Opened(0)])
    ensures StageOf([Opened(0)], 0).Held?
  {
    assert [Open(1, 0), Destroy(1)][..1] == [Open(1, 0)];
    ZeroOpened();
    assert map[1 := Owner(Free, 0)] - {1} == map[];
    assert Farewell(Free, 0) == [] && [Opened(0)] + [] == [Opened(0)];
    StageAfter([], Opened(0), 0);
    assert [] + [Opened(0)] == [Opened(0)];
  }

  // ----- the calls of destructors -----

  /** In every run, destroying an object makes no call unless its descriptor is above 0; a descriptor on its own
      is closed, while the socket of a Connector, an Acceptor or a Connection is cancelled, then closed. */
  lemma DestroyCalls(steps: seq<Step>, id: nat)
    requires id in End(steps).owners
    ensures var (w, t) := (End(steps), End(steps + [Destroy(id)]));
            && id !in t.owners
            && var fd := w.owners[id].fd;
               if fd <= 0 then t.calls == w.calls
               else
                 match w.owners[id].role
                 case Free => t.calls == w.calls + [Closed(fd)]
                 case Member => t.calls == w.calls + [Cancelled(fd), Closed(fd)]
                 case Conn => t.calls == w.calls + [Cancelled(fd), Closed(fd)]
  {
    assert (steps + [Destroy(id)])[..|steps|] == steps;
    assert End(steps).calls + [] == End(steps).calls;
  }

  /** What a new object is: moved from a Connection it is one, and moved from anything else it is a descriptor on
      its own, unless a Connection takes it. */
  lemma NewRole(w: World, step: Step)
    requires Enabled(w, step)
    ensures var t := Next(w, step);
            && (step.Open? ==> t.owners[step.id] == Owner(Free, step.fd))
            && (step.Default? ==> t.owners[step.id] == Owner(step.role, INVALID))
            && (step.Adopt? ==> t.owners[step.id] == Owner(Conn, w.owners[step.from].fd))
            && (step.MoveConstruct? ==>
                  t.owners[step.id]
                  == Owner(if w.owners[step.from].role == Conn then Conn else Free, w.owners[step.from].fd))
  {
  }

  // ----- moved-from objects -----

  /** Destroying an object that another was constructed from makes no call. */
  lemma MovedFromIsSilent(w: World, id: nat, from: nat)
    requires Enabled(w, MoveConstruct(id, from)) || Enabled(w, Adopt(id, from))
    ensures Enabled(w, MoveConstruct(id, from)) ==>
              Next(Next(w, MoveConstruct(id, from)), Destroy(from)).calls == w.calls
    ensures Enabled(w, Adopt(id, from)) ==>
              Next(Next(w, Adopt(id, from)), Destroy(from)).calls == Next(w, Adopt(id, from)).calls
  {
    assert w.calls + [] == w.calls;
  }

  /** Assignment is an exchange: destroying the source afterwards is silent exactly when the target
      owned nothing before; otherwise it is the target's old descriptor that goes. */
  lemma AssignedFromIsSilentIff(w: World, to: nat, from: nat)
    requires Enabled(w, MoveAssign(to, from)) && to != from
    ensures var t := Next(Next(w, MoveAssign(to, from)), Destroy(from));
            && (t.calls == w.calls <==> w.owners[to].fd <= 0)
            && t.calls == w.calls + Farewell(w.owners[from].role, w.owners[to].fd)
            && Owns(t, to, w.owners[from].fd)
  {
    assert w.calls + [] == w.calls;
  }

  // ----- `socket = ::socket(...)` -----

  /** The calls made when the answer of `socket` replaces the descriptor `former`: the temporary that
      received the answer is destroyed with `former` in it. */
  function Replaced(calls: seq<Call>, answer: Raw, former: Raw): seq<Call> {
    Noted(calls, Opened(answer)) + Farewell(Free, former)
  }

  function End3(w: World, a: Step, b: Step, c: Step): World {
    Next(Next(Next(w, a), b), c)
  }

  /** These are the calls of the three steps that the assignment consists of. */
  lemma ReplacedIsThreeSteps(w: World, id: nat, temporary: nat, answer: Raw)
    requires id in w.owners && !w.owners[id].role.Conn? && Enabled(w, Open(temporary, answer))
    ensures var steps := End3(w, Open(temporary, answer), MoveAssign(id, temporary), Destroy(temporary));
            && steps.calls == Replaced(w.calls, answer, w.owners[id].fd)
            && steps.owners == w.owners[id := w.owners[id].(fd := answer)]
  {
    assert w.owners - {temporary} == w.owners;
  }

  /** The new descriptor is held, the former one shut, and the others are as they were. */
  lemma ReplacedStages(calls: seq<Call>, answer: Raw, former: Raw, fd: Raw)
    requires former > 0 ==> StageOf(calls, former).Held?
    requires answer >= 0 ==> StageOf(calls, answer).Shut?
    ensures StageOf(Replaced(calls, answer, former), fd)
            == if fd == answer && fd >= 0 then Held else if fd == former && fd > 0 then Shut else StageOf(calls, fd)
  {
    NotedKeeps(calls, Opened(answer), fd);
    NotedKeeps(calls, Opened(answer), former);
    FarewellShuts(Noted(calls, Opened(answer)), Free, former, fd);
  }

  lemma ReplacedIsTidy(calls: seq<Call>, answer: Raw, former: Raw)
    requires CancelsThenCloses(calls) && OnlyPositive(calls)
    ensures CancelsThenCloses(Replaced(calls, answer, former)) && OnlyPositive(Replaced(calls, answer, former))
  {
    NotedKeeps(calls, Opened(answer), answer);
    FarewellIsTidy(Noted(calls, Opened(answer)), Free, former);
  }

  // ----- an object with a socket, and the Connections it makes -----

  /** The socket is held, and no other descriptor above 0 is but the `lost` ones, which nobody owns. */
  ghost predicate HoldsAt(calls: seq<Call>, socket: Raw, lost: set<Raw>, fd: Raw) {
    && (fd >= 0 && fd == socket ==> StageOf(calls, fd).Held? && fd !in lost)
    && (fd in lost ==> fd >= 0 && StageOf(calls, fd).Held?)
    && (fd > 0 && StageOf(calls, fd).Held? ==> fd == socket || fd in lost)
    && StageOf(calls, fd) != Misused && StageOf(calls, fd) != Cancelling
  }

  ghost predicate Holds(calls: seq<Call>, socket: Raw, lost: set<Raw>) {
    (forall fd :: HoldsAt(calls, socket, lost, fd)) && CancelsThenCloses(calls) && OnlyPositive(calls)
  }

  lemma ReplacedHolds(calls: seq<Call>, answer: Raw, socket: Raw, lost: set<Raw>)
    requires Holds(calls, socket, lost) && (answer >= 0 ==> StageOf(calls, answer).Shut?)
    ensures Holds(Replaced(calls, answer, socket), answer, lost)
  {
    assert HoldsAt(calls, socket, lost, socket) && HoldsAt(calls, socket, lost, answer);
    forall fd ensures HoldsAt(Replaced(calls, answer, socket), answer, lost, fd) {
      assert HoldsAt(calls, socket, lost, fd);
      ReplacedStages(calls, answer, socket, fd);
    }
    ReplacedIsTidy(calls, answer, socket);
  }

  lemma HandedOverHolds(calls: seq<Call>, socket: Raw, lost: set<Raw>)
    requires Holds(calls, socket, lost)
    ensures Holds(Noted(calls, Adopted(socket)), INVALID, lost)
  {
    forall fd ensures HoldsAt(Noted(calls, Adopted(socket)), INVALID, lost, fd) {
      assert HoldsAt(calls, socket, lost, fd);
      NotedKeeps(calls, Adopted(socket), fd);
    }
    NotedKeeps(calls, Adopted(socket), socket);
  }

  lemma AcceptedHolds(calls: seq<Call>, client: Raw, heard: bool, socket: Raw, lost: set<Raw>)
    requires Holds(calls, socket, lost) && client >= 0 && StageOf(calls, client).Shut?
    ensures var received := Noted(calls, Opened(client));
            if heard then Holds(Noted(received, Adopted(client)), socket, lost)
            else Holds(received, socket, lost + {client})
  {
    var received := Noted(calls, Opened(client));
    var after := if heard then Noted(received, Adopted(client)) else received;
    var unowned := if heard then lost else lost + {client};
    assert HoldsAt(calls, socket, lost, socket) && HoldsAt(calls, socket, lost, client);
    forall fd ensures HoldsAt(after, socket, unowned, fd) {
      assert HoldsAt(calls, socket, lost, fd);
      NotedKeeps(calls, Opened(client), fd);
      NotedKeeps(received, Adopted(client), fd);
    }
    NotedKeeps(calls, Opened(client), client);
    NotedKeeps(received, Adopted(client), client);
  }

  /** A Connection dies, or, with `mine` the socket, the object itself. */
  lemma FarewellHolds(calls: seq<Call>, role: Role, mine: Raw, socket: Raw, lost: set<Raw>)
    requires Holds(calls, socket, lost)
    requires if role.Conn? then mine > 0 && StageOf(calls, mine).InConnection? else role.Member? && mine == socket
    ensures Holds(calls + Farewell(role, mine), if role.Conn? then socket else INVALID, lost)
  {
    var after, kept := calls + Farewell(role, mine), if role.Conn? then socket else INVALID;
    assert HoldsAt(calls, socket, lost, mine);
    forall fd ensures HoldsAt(after, kept, lost, fd) {
      assert HoldsAt(calls, socket, lost, fd);
      FarewellShuts(calls, role, mine, fd);
    }
    FarewellIsTidy(calls, role, mine);
  }
}
