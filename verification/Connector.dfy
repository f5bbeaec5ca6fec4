/** The status machine of a Connector, between a single-threaded caller and the kernel. */
module Connectors {
  import opened Custody
  import opened Descriptors
  import opened Requests
  import opened Sockets
  import opened Connections

  datatype Status = Disconnected | Pending | Connected

  /** What a connect request refers to: the socket, and one writing of `resolved_address`. */
  datatype Target = Target(fd: Raw, address: nat)

  /** `address` counts the writings of `resolved_address`. `calling` holds from the moment that
      `asyncConnect` has added its request until it sets the status: the loop thread may complete the
      request in between. `handingOver` holds while the user's callback runs. `calls` also has those
      of the Connections handed over. */
  datatype State = State(
    alive: bool,
    status: Status,
    socket: Raw,
    address: nat,
    calling: bool,
    handingOver: bool,
    outstanding: seq<Target>,
    calls: seq<Call>)

  function Start(): State { State(true, Disconnected, INVALID, 0, false, false, [], []) }

  datatype Attempt =
    /** `asyncConnect` up to the request, also from inside the callback: whether the name resolves,
        the answer of `socket`, and whether the option can be set. */
    | AsyncConnect(resolves: bool, answer: Raw, optionSet: bool)
    | CallReturns                          // the rest of `asyncConnect`: the status is set
    | KernelRefuses                        // negative completion: an error event
    | KernelConnects(heard: bool)          // completion; `heard` when a connect callback is set
    | CallbackReturns
    | ConnectionDies(fd: Raw)
    | Farewells                            // the destructor

  predicate Possible(s: State, a: Attempt) {
    match a
    case AsyncConnect(_, answer, _) =>
      s.alive && !s.calling && (answer >= 0 ==> StageOf(s.calls, answer).Shut?)
    case CallReturns => s.calling
    case KernelRefuses => s.alive && s.outstanding != []
    case KernelConnects(_) => s.alive && s.outstanding != []
    case CallbackReturns => s.handingOver
    case ConnectionDies(fd) => fd > 0 && StageOf(s.calls, fd).InConnection?
    // the callback must not destroy the Connector, which writes its status after it
    case Farewells => s.alive && !s.calling && !s.handingOver
  }

  function Connect(s: State, resolves: bool, answer: Raw, optionSet: bool): State {
    if s.status.Pending? then s
    else
      var t := s.(address := s.address + 1);
      if !resolves then t
      else
        var u := t.(socket := answer, calls := Replaced(t.calls, answer, t.socket));
        if !optionSet then u
        else u.(outstanding := u.outstanding + [Target(answer, u.address)], calling := true)
  }

  /** An attempt that is not possible changes nothing. */
  function Following(s: State, a: Attempt): State {
    if !Possible(s, a) then s
    else
      match a
      case AsyncConnect(resolves, answer, optionSet) => Connect(s, resolves, answer, optionSet)
      case CallReturns => s.(status := Pending, calling := false)
      case KernelRefuses => s.(outstanding := s.outstanding[1..])
      case KernelConnects(heard) =>
        var t := s.(outstanding := s.outstanding[1..]);
        if !heard then t
        else t.(socket := Moved(s.socket).1, handingOver := true, calls := Noted(s.calls, Adopted(s.socket)))
      case CallbackReturns => s.(status := Connected, handingOver := false)
      case ConnectionDies(fd) => s.(calls := s.calls + Farewell(Conn, fd))
      case Farewells => s.(alive := false, socket := INVALID, calls := s.calls + Farewell(Member, s.socket))
  }

  function Run(run: seq<Attempt>): State {
    if run == [] then Start() else Following(Run(run[..|run| - 1]), run[|run| - 1])
  }

  // ----- the invariant -----

  predicate OneAtATime(s: State) {
    && |s.outstanding| <= 1
    && (s.alive && s.outstanding != [] ==>
          && (s.status.Pending? || s.calling) && !s.handingOver
          && s.outstanding == [Target(s.socket, s.address)])
    && (s.handingOver ==>
          s.alive && (s.status.Pending? || s.calling) && s.outstanding == [] && s.socket == INVALID)
    && (s.calling ==> s.alive && !s.status.Pending?)
    && (!s.alive ==> s.socket == INVALID)
  }

  /** The Connector holds its socket, and no other descriptor above 0. */
  ghost predicate Inv(s: State) {
    OneAtATime(s) && Holds(s.calls, s.socket, {})
  }

  lemma FollowingKeeps(s: State, a: Attempt)
    requires Inv(s)
    ensures Inv(Following(s, a))
  {
    if Possible(s, a) {
      match a
      case AsyncConnect(_, answer, _) => ReplacedHolds(s.calls, answer, s.socket, {});
      case KernelConnects(_) => HandedOverHolds(s.calls, s.socket, {});
      case ConnectionDies(fd) => FarewellHolds(s.calls, Conn, fd, s.socket, {});
      case Farewells => FarewellHolds(s.calls, Member, s.socket, s.socket, {});
      case _ =>
    }
  }

  lemma {:induction false} RunKeeps(run: seq<Attempt>)
    ensures Inv(Run(run))
  {
    if run != [] {
      RunKeeps(run[..|run| - 1]);
      FollowingKeeps(Run(run[..|run| - 1]), run[|run| - 1]);
    }
  }

  // ----- what it gives, over every run -----

  /** At most one connect request is outstanding; while it is, the status is pending or about to be
      set by the call that added it, and the request still refers to the Connector's socket and to the
      latest writing of its address. */
  lemma OneConnectInPlace(run: seq<Attempt>)
    ensures var s := Run(run);
            && |s.outstanding| <= 1
            && (s.alive && s.outstanding != [] ==>
                  (s.status == Pending || s.calling) && s.outstanding[0] == Target(s.socket, s.address))
  {
    RunKeeps(run);
  }

  predicate Completes(a: Attempt) {
    a.KernelRefuses? || a.KernelConnects?
  }

  /** Until the outstanding request completes or the Connector is destroyed, further calls, and the
      deaths of earlier Connections, leave the socket, the address and the request as they are. */
  lemma {:induction false} NothingMovesWhileOutstanding(run: seq<Attempt>, more: seq<Attempt>)
    requires Run(run).alive && Run(run).outstanding != []
    requires forall a :: a in more ==> !Completes(a) && !a.Farewells?
    ensures var s, t := Run(run), Run(run + more);
            && t.alive && t.socket == s.socket && t.address == s.address
            && t.outstanding == s.outstanding == [Target(s.socket, s.address)]
    decreases |more|
  {
    RunKeeps(run);
    if more == [] {
      assert run + more == run;
    } else {
      var m := |more| - 1;
      NothingMovesWhileOutstanding(run, more[..m]);
      RunKeeps(run + more[..m]);
      assert (run + more)[..|run + more| - 1] == run + more[..m];
      assert more[m] in more;
    }
  }

  /** A call has an effect exactly when the status is not pending; it adds a request, for the
      descriptor just opened, exactly when the name also resolves and the option is set. */
  lemma {:induction false} CallActsIffNotPending(run: seq<Attempt>, resolves: bool, answer: Raw, optionSet: bool)
    requires Possible(Run(run), AsyncConnect(resolves, answer, optionSet))
    ensures var s, t := Run(run), Following(Run(run), AsyncConnect(resolves, answer, optionSet));
            && (t != s <==> !s.status.Pending?)
            && (t.outstanding != s.outstanding <==> !s.status.Pending? && resolves && optionSet)
            && (t.outstanding != s.outstanding ==>
                  t.outstanding == [Target(answer, t.address)] && t.socket == answer && t.address > s.address)
  {
    RunKeeps(run);
  }

  /** Pending, with nothing to wait for. */
  predicate Stuck(s: State) {
    s.status.Pending? && s.outstanding == [] && !s.handingOver
  }

  /** A call leaves the status as it is, and so whether a callback is running, whatever the answers; one that
      adds no request also leaves the request outstanding, if any. It opens a socket, and closes the former one
      without cancelling it, exactly when the status is not pending and the name resolves. */
  lemma {:induction false} CallLeavesStatus(run: seq<Attempt>, resolves: bool, answer: Raw, optionSet: bool)
    requires Possible(Run(run), AsyncConnect(resolves, answer, optionSet))
    ensures var (s, t) := (Run(run), Run(run + [AsyncConnect(resolves, answer, optionSet)]));
            && t.status == s.status && t.handingOver == s.handingOver && t.alive && (Stuck(t) ==> Stuck(s))
            && (s.status.Pending? || !resolves || !optionSet ==> t.outstanding == s.outstanding && !t.calling)
            && (if !s.status.Pending? && resolves
                then
                  && t.socket == answer
                  && t.calls == s.calls + (if answer >= 0 then [Opened(answer)] else [])
                                + (if s.socket > 0 then [Closed(s.socket)] else [])
                else t.socket == s.socket && t.calls == s.calls)
  {
    var a := AsyncConnect(resolves, answer, optionSet);
    assert (run + [a])[..|run|] == run;
    assert Run(run).calls + [] == Run(run).calls;
  }

  /** Hence after a call that fails while the status is not pending, the next call that resolves and is
      configured adds a request. */
  lemma FailedCallIsRetried(run: seq<Attempt>, failed: Attempt, answer: Raw)
    requires failed.AsyncConnect? && Possible(Run(run), failed) && (!failed.resolves || !failed.optionSet)
    requires !Run(run).status.Pending?
    requires answer >= 0 ==> StageOf(Run(run + [failed]).calls, answer).Shut?
    ensures var (t, u) := (Run(run + [failed]), Run(run + [failed] + [AsyncConnect(true, answer, true)]));
            && t.outstanding == [] && u.calling && u.outstanding == [Target(answer, u.address)]
  {
    var retry := AsyncConnect(true, answer, true);
    CallLeavesStatus(run, failed.resolves, failed.answer, failed.optionSet);
    RunKeeps(run);
    assert (run + [failed] + [retry])[..|run| + 1] == run + [failed];
  }

  /** The status starts as disconnected. It becomes pending only when a call that added a request returns, and
      connected only when a callback returns. */
  lemma StatusChanges(run: seq<Attempt>, a: Attempt)
    ensures Run([]).status == Disconnected
    ensures var (s, t) := (Run(run), Run(run + [a]));
            && (t.status != s.status && t.status == Pending ==> a == CallReturns && s.calling)
            && (t.status != s.status && t.status == Connected ==> a == CallbackReturns && s.handingOver)
            && (t.status == Disconnected ==> s.status == Disconnected)
  {
    assert (run + [a])[..|run|] == run;
  }

  /** Destruction cancels a socket above 0, also while its connect is outstanding, and then closes it; the death
      of a Connection does the same. No other call is made. */
  lemma DestructionCancels(run: seq<Attempt>)
    requires Possible(Run(run), Farewells)
    ensures var (s, t) := (Run(run), Run(run + [Farewells]));
            && !t.alive && t.socket == INVALID
            && t.calls == if s.socket > 0 then s.calls + [Cancelled(s.socket), Closed(s.socket)] else s.calls
    ensures forall fd :: Possible(Run(run), ConnectionDies(fd)) ==>
              Following(Run(run), ConnectionDies(fd)).calls == Run(run).calls + [Cancelled(fd), Closed(fd)]
  {
    assert (run + [Farewells])[..|run|] == run;
    assert Run(run).calls + [] == Run(run).calls;
  }

  /** With a callback set, a successful completion moves the socket into a Connection. */
  lemma {:induction false} ConnectedSocketMoves(run: seq<Attempt>)
    requires Possible(Run(run), KernelConnects(true))
    ensures var s, t := Run(run), Following(Run(run), KernelConnects(true));
            && t.socket == INVALID && t.handingOver && t.outstanding == []
            && t.status == s.status && t.address == s.address && t.calling == s.calling
            && t.calls == s.calls + (if s.socket >= 0 then [Adopted(s.socket)] else [])
            && (s.socket >= 0 ==> StageOf(s.calls, s.socket).Held? && StageOf(t.calls, s.socket).InConnection?)
  {
    var s := Run(run);
    RunKeeps(run);
    assert HoldsAt(s.calls, s.socket, {}, s.socket);
    assert s.calls + [] == s.calls;
    NotedKeeps(s.calls, Adopted(s.socket), s.socket);
  }

  /** A descriptor handed over to a Connection is only ever cancelled and closed by that Connection. */
  lemma HandedOverIsLeftAlone(run: seq<Attempt>, a: Attempt, fd: Raw)
    requires StageOf(Run(run).calls, fd).InConnection? && a != ConnectionDies(fd)
    ensures StageOf(Following(Run(run), a).calls, fd).InConnection?
  {
    var s := Run(run);
    RunKeeps(run);
    assert HoldsAt(s.calls, s.socket, {}, fd) && HoldsAt(s.calls, s.socket, {}, s.socket);
    if Possible(s, a) {
      match a
      case AsyncConnect(_, answer, _) => ReplacedStages(s.calls, answer, s.socket, fd);
      case KernelConnects(_) => NotedKeeps(s.calls, Adopted(s.socket), fd);
      case ConnectionDies(other) => FarewellShuts(s.calls, Conn, other, fd);
      case Farewells => FarewellShuts(s.calls, Member, s.socket, fd);
      case _ =>
    }
  }

  /** Nothing leaks: a descriptor above 0 is open only as the Connector's own socket or in a
      Connection, so it is closed once for each time it was opened, less one while it is open. */
  lemma EveryAttemptIsClosed(run: seq<Attempt>, fd: Raw)
    requires fd > 0
    ensures var s := Run(run);
            && (StageOf(s.calls, fd).Shut? || StageOf(s.calls, fd).InConnection? || (s.alive && fd == s.socket))
            && Count(s.calls, Opened(fd)) == Count(s.calls, Closed(fd)) + if StageOf(s.calls, fd).Shut? then 0 else 1
  {
    RunKeeps(run);
    assert HoldsAt(Run(run).calls, Run(run).socket, {}, fd);
    ClosedOncePerOpening(Run(run).calls, fd);
  }

  /** Once it is stuck no later call connects: no request is added, and the socket stays until destruction. */
  lemma {:induction false} StuckForGood(run: seq<Attempt>, more: seq<Attempt>)
    requires Stuck(Run(run))
    ensures var s, t := Run(run), Run(run + more);
            Stuck(t) && t.address == s.address && (t.alive ==> t.socket == s.socket)
    decreases |more|
  {
    if more == [] {
      assert run + more == run;
    } else {
      var m := |more| - 1;
      StuckForGood(run, more[..m]);
      assert (run + more)[..|run + more| - 1] == run + more[..m];
    }
  }

  /** A refusal, or a completion that no callback hears, leaves the Connector stuck, at the latest
      when the call returns. */
  lemma UnheardIsStuck(run: seq<Attempt>, a: Attempt)
    requires Completes(a) && (a.KernelRefuses? || !a.heard) && Possible(Run(run), a)
    ensures var t := Following(Run(run), a);
            t == Run(run).(outstanding := []) && Stuck(if t.calling then Following(t, CallReturns) else t)
  {
    RunKeeps(run);
  }

  /** A callback that is running ends in a connected status exactly when the call that added the
      request has returned first; otherwise that call overwrites the status, and the Connector is
      stuck. */
  lemma ConnectedIffCallReturnedFirst(run: seq<Attempt>)
    requires Run(run).handingOver
    ensures var s := Run(run);
            var t := Following(s, CallbackReturns);
            && t.status == Connected
            && (s.calling <==> Possible(t, CallReturns))
            && (s.calling ==> Stuck(Following(t, CallReturns)))
            && (s.calling ==> Following(Following(s, CallReturns), CallbackReturns).status == Connected)
  {
    RunKeeps(run);
  }

  /** The call that added the request, or the callback, has not returned yet. */
  predicate Unsettled(s: State) {
    s.calling || s.handingOver
  }

  /** The `i`-th attempt is the return of a callback before that of the call. */
  predicate Overtakes(run: seq<Attempt>, i: nat) {
    && i < |run| && run[i].CallbackReturns?
    && Run(run[..i]).handingOver && Run(run[..i]).calling
  }

  /** The `m`-th attempt, a completion, was a refusal or unheard, or its callback has been overtaken before
      the `n`-th. */
  ghost predicate Doomed(run: seq<Attempt>, m: nat, n: nat)
    requires m < |run|
  {
    || run[m].KernelRefuses? || run[m] == KernelConnects(false)
    || exists i: nat :: m < i < n && Overtakes(run, i)
  }

  /** What holds from a completion until call and callback have returned. */
  predicate Settling(s: State, doomed: bool) {
    && s.alive && s.outstanding == []
    && (s.handingOver ==> !doomed && (s.calling || s.status.Pending?))
    && (s.calling && !s.handingOver ==> doomed)
    && (!Unsettled(s) ==> (s.status.Pending? <==> doomed))
  }

  lemma SettlingStep(s: State, a: Attempt, doomed: bool)
    requires Settling(s, doomed) && Unsettled(s)
    ensures Settling(Following(s, a), doomed || (a.CallbackReturns? && s.handingOver && s.calling))
  {
  }

  lemma {:induction false} SettlesFrom(run: seq<Attempt>, m: nat, n: nat)
    requires m < n <= |run| && Completes(run[m]) && Possible(Run(run[..m]), run[m])
    requires forall i: nat :: m < i < n ==> Unsettled(Run(run[..i]))
    ensures Settling(Run(run[..n]), Doomed(run, m, n))
  {
    var before := run[..n - 1];
    assert run[..n] == before + [run[n - 1]] && run[..n][..n - 1] == before;
    RunKeeps(before);
    if n > m + 1 {
      SettlesFrom(run, m, n - 1);
      SettlingStep(Run(before), run[n - 1], Doomed(run, m, n - 1));
      assert Doomed(run, m, n) <==> Doomed(run, m, n - 1) || Overtakes(run, n - 1);
    }
  }

  /** Once the call that added the request, and the callback if there is one, have returned, a completed
      attempt has left the Connector stuck exactly when it was refused, or unheard, or its callback returned
      before the call did. */
  lemma StuckIff(run: seq<Attempt>, m: nat)
    requires m < |run| && Completes(run[m]) && Possible(Run(run[..m]), run[m])
    requires forall i: nat :: m < i < |run| ==> Unsettled(Run(run[..i]))
    requires !Unsettled(Run(run))
    ensures Stuck(Run(run)) <==>
              || run[m].KernelRefuses? || run[m] == KernelConnects(false)
              || exists i: nat :: m < i < |run| && Overtakes(run, i)
  {
    SettlesFrom(run, m, |run|);
    assert run[..|run|] == run;
  }

  // ----- runs in which it happens -----

  lemma FirstConnect()
    ensures var s := Run([AsyncConnect(true, 5, true)]);
            s == Start().(socket := 5, address := 1, calling := true, outstanding := [Target(5, 1)],
                          calls := [Opened(5)])
  {
    assert [AsyncConnect(true, 5, true)][..0] == [];
    assert Replaced([], 5, INVALID) == [Opened(5)];
  }

  /** A refused connect leaves the Connector stuck. */
  lemma RefusedRun()
    ensures Stuck(Run([AsyncConnect(true, 5, true), CallReturns, KernelRefuses]))
  {
    var run := [AsyncConnect(true, 5, true), CallReturns, KernelRefuses];
    assert run[..2] == [AsyncConnect(true, 5, true), CallReturns];
    assert run[..2][..1] == [AsyncConnect(true, 5, true)];
    FirstConnect();
  }

  /** The loop thread connects, and the callback returns, before the call that asked for it: the
      Connector is stuck although the socket went into a Connection. */
  lemma OvertakenRun()
    ensures var s := Run([AsyncConnect(true, 5, true), KernelConnects(true), CallbackReturns, CallReturns]);
            Stuck(s) && StageOf(s.calls, 5).InConnection?
  {
    var run := [AsyncConnect(true, 5, true), KernelConnects(true), CallbackReturns, CallReturns];
    assert run[..3] == [AsyncConnect(true, 5, true), KernelConnects(true), CallbackReturns];
    assert run[..3][..2] == [AsyncConnect(true, 5, true), KernelConnects(true)];
    assert run[..3][..2][..1] == [AsyncConnect(true, 5, true)];
    FirstConnect();
    StageAfter([], Opened(5), 5);
    assert [] + [Opened(5)] == [Opened(5)];
    StageAfter([Opened(5)], Adopted(5), 5);
  }

  // ----- the object -----

  class Connector {
    const out: Outside
    const subscriber: nat
    var status: Status
    const socket: FileDescriptor
    var address: nat
    ghost var alive: bool
    ghost var calling: bool
    ghost var handingOver: bool
    ghost var outstanding: seq<Target>

    ghost function Model(): State
      reads this, socket, out
    {
      State(alive, status, socket.fd, address, calling, handingOver, outstanding, out.calls)
    }

    constructor (outside: Outside, ownSubscriber: nat)
      requires outside.calls == []
      ensures Model() == Start() && out == outside && fresh(socket) && subscriber == ownSubscriber
    {
      out, subscriber, status, address := outside, ownSubscriber, Disconnected, 0;
      socket := new FileDescriptor.Default();
      alive, calling, handingOver, outstanding := true, false, false, [];
    }

    /** `asyncConnect` up to the request; `added` tells whether one was added. */
    method BeginConnect(resolves: bool, answer: Raw, optionSet: bool) returns (added: bool)
      requires Possible(Model(), Attempt.AsyncConnect(resolves, answer, optionSet))
      modifies this, socket, out
      ensures Model() == Following(old(Model()), Attempt.AsyncConnect(resolves, answer, optionSet))
      ensures added <==> !old(status).Pending? && resolves && optionSet
      ensures status == old(status) && handingOver == old(handingOver) && calling == added
      ensures outstanding == if added then old(outstanding) + [Target(answer, address)] else old(outstanding)
      ensures out.added == if added then old(out.added) + [AsAdded(Connect, answer, 0, subscriber)] else old(out.added)
    {
      if status == Pending {
        return false;
      }
      address := address + 1;
      if !resolves {
        return false;
      }
      var fd := out.Socket(answer);
      var temporary := new FileDescriptor(fd);
      socket.Assign(temporary);
      temporary.Destroy(out);
      if !optionSet {
        return false;
      }
      var result := out.Add(Connect, socket.fd, 0, subscriber);
      outstanding := outstanding + [Target(socket.fd, address)];
      calling := true;
      return result != QueueFull;
    }

    /** The rest of `asyncConnect`. */
    method EndConnect()
      requires Possible(Model(), CallReturns)
      modifies this
      ensures Model() == Following(old(Model()), CallReturns)
    {
      status := Pending;
      calling := false;
    }

    /** The connect handler, up to the user's callback, which receives the Connection. */
    method BeginHandOver(connectionSubscriber: nat) returns (connection: Connection)
      requires Possible(Model(), KernelConnects(true))
      modifies this, socket, out
      ensures Model() == Following(old(Model()), KernelConnects(true))
      ensures fresh(connection) && connection.socket.fd == connection.endpoint == old(socket.fd)
      ensures connection.subscriber == connectionSubscriber && connection.out == out
    {
      outstanding := outstanding[1..];
      handingOver := true;
      connection := new Connection(out, socket, connectionSubscriber);
    }

    /** The connect handler, once the callback has returned. */
    method EndHandOver()
      requires Possible(Model(), CallbackReturns)
      modifies this
      ensures Model() == Following(old(Model()), CallbackReturns)
    {
      status := Connected;
      handingOver := false;
    }

    method Destroy()
      requires Possible(Model(), Farewells)
      modifies this, socket, out
      ensures Model() == Following(old(Model()), Farewells)
      ensures out.calls == if old(socket.fd) > 0
                           then old(out.calls) + [Cancelled(old(socket.fd)), Closed(old(socket.fd))]
                           else old(out.calls)
    {
      alive := false;
      if socket.IsSet() {
        out.Cancel(socket.fd);
      }
      socket.Destroy(out);
    }
  }
}
