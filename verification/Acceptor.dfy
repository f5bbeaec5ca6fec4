/** The status machine of an Acceptor, between a single-threaded caller and the kernel. */
module Acceptors {
  import opened Custody
  import opened Descriptors
  import opened Requests
  import opened Sockets
  import opened Connections

  /** `requests` are the descriptors in the accept requests pushed so far, `unheard` the accepted
      clients for which no callback was set. `calling` holds from the moment that `listen` has added its
      request until it sets the status: the loop thread may accept clients in between. `calls` also has
      those of the Connections accepted. */
  datatype State = State(
    alive: bool,
    listening: bool,
    calling: bool,
    socket: Raw,
    requests: seq<Raw>,
    unheard: set<Raw>,
    calls: seq<Call>)

  function Start(): State { State(true, false, false, INVALID, [], {}, []) }

  datatype Attempt =
    /** `listen` up to the request: whether the name resolves, the answer of `socket`, and which calls
        succeed. */
    | Listen(resolves: bool, answer: Raw, optionSet: bool, bound: bool, listens: bool)
    | CallReturns                                // the rest of `listen`: the status is set
    | KernelAccepts(client: Raw, heard: bool)    // completion of the accept request
    | ConnectionDies(fd: Raw)
    | Farewells                                  // the destructor

  predicate Possible(s: State, a: Attempt) {
    match a
    case Listen(_, answer, _, _, _) =>
      s.alive && !s.calling && (answer >= 0 ==> StageOf(s.calls, answer).Shut?)
    case CallReturns => s.calling
    case KernelAccepts(client, _) =>
      s.alive && s.requests != [] && client >= 0 && StageOf(s.calls, client).Shut?
    case ConnectionDies(fd) => fd > 0 && StageOf(s.calls, fd).InConnection?
    case Farewells => s.alive && !s.calling
  }

  /** An attempt that is not possible changes nothing. */
  function Following(s: State, a: Attempt): State {
    if !Possible(s, a) then s
    else
      match a
      case Listen(resolves, answer, optionSet, bound, listens) =>
        if s.listening || !resolves then s
        else
          var t := s.(socket := answer, calls := Replaced(s.calls, answer, s.socket));
          if optionSet && bound && listens then t.(requests := t.requests + [answer], calling := true) else t
      case CallReturns => s.(listening := true, calling := false)
      case KernelAccepts(client, heard) =>
        var t := s.(calls := Noted(s.calls, Opened(client)));
        if heard then t.(calls := Noted(t.calls, Adopted(client))) else t.(unheard := t.unheard + {client})
      case ConnectionDies(fd) => s.(calls := s.calls + Farewell(Conn, fd))
      case Farewells => s.(alive := false, socket := INVALID, calls := s.calls + Farewell(Member, s.socket))
  }

  function Run(run: seq<Attempt>): State {
    if run == [] then Start() else Following(Run(run[..|run| - 1]), run[|run| - 1])
  }

  // ----- the invariant -----

  /** The Acceptor holds its socket, and no other descriptor above 0 but those of unheard clients. */
  ghost predicate Inv(s: State) {
    && |s.requests| == (if s.listening || s.calling then 1 else 0)
    && !(s.listening && s.calling)
    && (s.alive && s.requests != [] ==> s.requests == [s.socket])
    && (s.calling ==> s.alive) && (!s.alive ==> s.socket == INVALID)
    && Holds(s.calls, s.socket, s.unheard)
  }

  lemma FollowingKeeps(s: State, a: Attempt)
    requires Inv(s)
    ensures Inv(Following(s, a))
  {
    if Possible(s, a) {
      match a
      case Listen(_, answer, _, _, _) => ReplacedHolds(s.calls, answer, s.socket, s.unheard);
      case KernelAccepts(client, heard) => AcceptedHolds(s.calls, client, heard, s.socket, s.unheard);
      case ConnectionDies(fd) => FarewellHolds(s.calls, Conn, fd, s.socket, s.unheard);
      case Farewells => FarewellHolds(s.calls, Member, s.socket, s.socket, s.unheard);
      case CallReturns =>
    }
  }

  lemma {:induction false} RunKeeps(run: seq<Attempt>)
    ensures Inv(Run(run))
  {
    if run != [] {
      RunKeeps(run[..|run| - 1]);
      FollowingKeeps(Run(run[..|run| - 1]), run[|run| - 1]);
    }
  }

  // ----- what it gives, over every run -----

  /** At most one accept request is ever pushed, and it carries the descriptor the Acceptor holds. The
      status is listening exactly when the request was pushed and the call that pushed it has
      returned; a caller never sees the two disagree, while the loop thread may, in between. */
  lemma {:induction false} ListeningIffOneRequest(run: seq<Attempt>)
    ensures var s := Run(run);
            && |s.requests| <= 1
            && (s.listening <==> |s.requests| == 1 && !s.calling)
            && (s.calling ==> |s.requests| == 1)
            && (s.alive && s.requests != [] ==> s.requests == [s.socket])
  {
    RunKeeps(run);
  }

  /** A call pushes a request, for the descriptor just opened, exactly when the Acceptor was not
      listening and no system call fails, and makes it listen when it returns; the former descriptor
      is then shut. */
  lemma {:induction false} ListensIff(run: seq<Attempt>, resolves: bool, answer: Raw, optionSet: bool, bound: bool,
                                      listens: bool)
    requires Possible(Run(run), Listen(resolves, answer, optionSet, bound, listens))
    ensures var s, t := Run(run), Following(Run(run), Listen(resolves, answer, optionSet, bound, listens));
            && (t.requests != s.requests <==> !s.listening && resolves && optionSet && bound && listens)
            && (t.requests != s.requests ==> t.requests == [answer] && Following(t, CallReturns).listening)
            && (s.listening || !resolves ==> t == s)
            && (!s.listening && resolves ==>
                  && t.socket == answer
                  && (s.socket > 0 ==> StageOf(s.calls, s.socket).Held? && StageOf(t.calls, s.socket).Shut?))
  {
    var s := Run(run);
    RunKeeps(run);
    assert HoldsAt(s.calls, s.socket, s.unheard, s.socket);
    ReplacedStages(s.calls, answer, s.socket, s.socket);
  }

  /** A call leaves the status as it is, whatever the answers. It opens a socket, and closes the former one
      without cancelling it, exactly when the Acceptor was not listening and the name resolves. */
  lemma {:induction false} CallLeavesStatus(run: seq<Attempt>, a: Attempt)
    requires a.Listen? && Possible(Run(run), a)
    ensures var (s, t) := (Run(run), Run(run + [a]));
            && t.listening == s.listening && t.alive && t.unheard == s.unheard
            && (t.calling <==> t.requests != s.requests)
            && (if !s.listening && a.resolves
                then
                  && t.socket == a.answer
                  && t.calls == s.calls + (if a.answer >= 0 then [Opened(a.answer)] else [])
                                + (if s.socket > 0 then [Closed(s.socket)] else [])
                else t == s)
  {
    assert (run + [a])[..|run|] == run;
    assert Run(run).calls + [] == Run(run).calls;
  }

  /** Destruction cancels a socket above 0, also while it is listening, and then closes it; the death of a
      Connection does the same. No other call is made. */
  lemma DestructionCancels(run: seq<Attempt>)
    requires Possible(Run(run), Farewells)
    ensures var (s, t) := (Run(run), Run(run + [Farewells]));
            && !t.alive && t.socket == INVALID
            && t.calls == if s.socket > 0 then s.calls + [Cancelled(s.socket), Closed(s.socket)] else s.calls
    ensures forall fd :: Possible(Run(run), ConnectionDies(fd)) ==>
              Following(Run(run), ConnectionDies(fd)).calls == Run(run).calls + [Cancelled(fd), Closed(fd)]
  {
    assert (run + [Farewells])[..|run|] == run;
    assert Run(run).calls + [] == Run(run).calls;
  }

  /** Once a request is pushed, no call pushes another or replaces the descriptor it carries. */
  lemma {:induction false} ListeningStays(run: seq<Attempt>, more: seq<Attempt>)
    requires Run(run).requests != []
    ensures var s, t := Run(run), Run(run + more);
            && t.requests == s.requests && (s.listening ==> t.listening)
            && (t.alive ==> s.alive && t.socket == s.socket)
    decreases |more|
  {
    if more == [] {
      assert run + more == run;
    } else {
      var m := |more| - 1;
      ListeningStays(run, more[..m]);
      RunKeeps(run + more[..m]);
      assert (run + more)[..|run + more| - 1] == run + more[..m];
    }
  }

  /** A descriptor above 0 that is open is the Acceptor's current one, or a client's: those of failed
      attempts were closed when replaced. Each is closed once for each time it was opened, less one
      while it is open. */
  lemma FailedAttemptsAreClosed(run: seq<Attempt>, fd: Raw)
    requires fd > 0
    ensures var s := Run(run);
            && (!StageOf(s.calls, fd).Shut? ==>
                  (s.alive && fd == s.socket) || StageOf(s.calls, fd).InConnection? || fd in s.unheard)
            && Count(s.calls, Opened(fd)) == Count(s.calls, Closed(fd)) + if StageOf(s.calls, fd).Shut? then 0 else 1
  {
    RunKeeps(run);
    assert HoldsAt(Run(run).calls, Run(run).socket, Run(run).unheard, fd);
    ClosedOncePerOpening(Run(run).calls, fd);
  }

  /** A client accepted while no callback is set is never closed: nobody owns its descriptor. */
  lemma {:induction false} UnheardClientsLeak(run: seq<Attempt>, more: seq<Attempt>, fd: Raw)
    requires fd in Run(run).unheard
    ensures StageOf(Run(run + more).calls, fd).Held? && fd in Run(run + more).unheard
    decreases |more|
  {
    RunKeeps(run + more);
    assert HoldsAt(Run(run + more).calls, Run(run + more).socket, Run(run + more).unheard, fd);
    if more == [] {
      assert run + more == run;
    } else {
      var m := |more| - 1;
      UnheardClientsLeak(run, more[..m], fd);
      assert (run + more)[..|run + more| - 1] == run + more[..m];
    }
  }

  /** An accepted client ends up in a Connection exactly when a callback was set. */
  lemma {:induction false} AcceptedIffHeard(run: seq<Attempt>, client: Raw, heard: bool)
    requires Possible(Run(run), KernelAccepts(client, heard))
    ensures var calls := Following(Run(run), KernelAccepts(client, heard)).calls;
            (StageOf(calls, client).InConnection? <==> heard) && (StageOf(calls, client).Held? <==> !heard)
    ensures var (s, t) := (Run(run), Following(Run(run), KernelAccepts(client, heard)));
            && t.calls == s.calls + [Opened(client)] + (if heard then [Adopted(client)] else [])
            && t.unheard == (if heard then s.unheard else s.unheard + {client})
            && t.socket == s.socket && t.requests == s.requests && t.listening == s.listening
  {
    var calls := Run(run).calls;
    NotedKeeps(calls, Opened(client), client);
    NotedKeeps(Noted(calls, Opened(client)), Adopted(client), client);
  }

  // ----- a run in which it happens -----

  const LISTENS: Attempt := Listen(true, 5, true, true, true)

  lemma FirstListen()
    ensures Run([LISTENS, CallReturns]) == State(true, true, false, 5, [5], {}, [Opened(5)])
  {
    assert [LISTENS, CallReturns][..1] == [LISTENS] && [LISTENS][..0] == [];
    assert Replaced([], 5, INVALID) == [Opened(5)];
    assert Run([LISTENS]) == State(true, false, true, 5, [5], {}, [Opened(5)]);
  }

  /** A client that connects while no callback is set. */
  lemma UnheardRun()
    ensures Run([LISTENS, CallReturns, KernelAccepts(6, false)]).unheard == {6}
  {
    var run := [LISTENS, CallReturns, KernelAccepts(6, false)];
    assert run[..2] == [LISTENS, CallReturns];
    FirstListen();
    assert [] + [Opened(5)] == [Opened(5)];
    StageAfter([], Opened(5), 6);
  }

  // ----- the object -----

  class Acceptor {
    const out: Outside
    const subscriber: nat
    var listening: bool
    const socket: FileDescriptor
    ghost var alive: bool
    ghost var calling: bool
    ghost var requests: seq<Raw>
    ghost var unheard: set<Raw>

    ghost function Model(): State
      reads this, socket, out
    {
      State(alive, listening, calling, socket.fd, requests, unheard, out.calls)
    }

    constructor (outside: Outside, ownSubscriber: nat)
      requires outside.calls == []
      ensures Model() == Start() && out == outside && fresh(socket) && subscriber == ownSubscriber
    {
      out, subscriber, listening := outside, ownSubscriber, false;
      socket := new FileDescriptor.Default();
      alive, calling, requests, unheard := true, false, [], {};
    }

    /** `listen` up to the request; `added` tells whether one was added. */
    method BeginListen(resolves: bool, answer: Raw, optionSet: bool, bound: bool, listens: bool)
      returns (added: bool)
      requires Possible(Model(), Listen(resolves, answer, optionSet, bound, listens))
      modifies this, socket, out
      ensures Model() == Following(old(Model()), Listen(resolves, answer, optionSet, bound, listens))
      ensures added <==> !old(listening) && resolves && optionSet && bound && listens
      ensures listening == old(listening) && calling == added
      ensures requests == if added then old(requests) + [answer] else old(requests)
      ensures out.added
              == if added then old(out.added) + [AsAdded(Accept, answer, 0, subscriber)] else old(out.added)
    {
      if listening || !resolves {
        return false;
      }
      var fd := out.Socket(answer);
      var temporary := new FileDescriptor(fd);
      socket.Assign(temporary);
      temporary.Destroy(out);
      if !optionSet {
        return false;
      }
      if !bound {
        return false;
      }
      if !listens {
        return false;
      }
      var result := out.Add(Accept, socket.fd, 0, subscriber);
      requests := requests + [socket.fd];
      calling := true;
      return result != QueueFull;
    }

    /** The rest of `listen`. */
    method EndListen()
      requires Possible(Model(), CallReturns)
      modifies this
      ensures Model() == Following(old(Model()), CallReturns)
    {
      listening := true;
      calling := false;
    }

    /** The accept handler, up to the user's callback, which receives the Connection. */
    method Accepted(client: Raw, connectionSubscriber: nat) returns (connection: Connection)
      requires Possible(Model(), KernelAccepts(client, true))
      modifies this, out
      ensures Model() == Following(old(Model()), KernelAccepts(client, true))
      ensures fresh(connection) && connection.socket.fd == connection.endpoint == client
      ensures connection.subscriber == connectionSubscriber && connection.out == out
    {
      var fd := out.Socket(client);
      var descriptor := new FileDescriptor(fd);
      connection := new Connection(out, descriptor, connectionSubscriber);
    }

    method Destroy()
      requires Possible(Model(), Farewells)
      modifies this, socket, out
      ensures Model() == Following(old(Model()), Farewells)
      ensures out.calls == if old(socket.fd) > 0
                           then old(out.calls) + [Cancelled(old(socket.fd)), Closed(old(socket.fd))]
                           else old(out.calls)
    {
      alive := false;
      if socket.IsSet() {
        out.Cancel(socket.fd);
      }
      socket.Destroy(out);
    }
  }
}
