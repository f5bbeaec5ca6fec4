/** A run in which one accept request serves two clients. */
module AcceptRun {
  import opened Bits
  import opened Requests
  import opened Batches
  import opened Protocol
  import opened FailingRuns

  const ACCEPT_SENT: seq<Step> :=
    [PushRequest(1, Accept, 3, 0, 7)] + [BeginPrepare] + [PrepareOne(0)] + [EndPrepare] + [KernelTake]
  const TWO_CLIENTS: seq<Step> := [KernelShot(0, 5, 0)] + [KernelShot(0, 6, 0)] + [BeginReap]
  const VISITED: seq<Step> := [Dispatch] + [GiveBack] + [Step.Release]

  function AcceptBlock(): Block {
    Block(0, Accept, AsAdded(Accept, 3, 0, 7))
  }

  function AcceptEntry(): Sqe {
    EntryFor(Accept, AsAdded(Accept, 3, 0, 7), 0)
  }

  ghost function AcceptPushed(s: State): State {
    s.(heap := map[1 := AcceptBlock()], pending := Append(Empty(), Accept, 0),
       pushes := [Push(1, Accept, AsAdded(Accept, 3, 0, 7))])
  }

  ghost function AcceptArmed(s: State): State {
    AcceptPushed(s).(pending := Empty(), armed := [AcceptEntry()], received := [AcceptEntry()])
  }

  ghost function ClientsPosted(s: State): State {
    Post(Post(AcceptArmed(s), Cqe(AcceptEntry(), 5, 0), []), Cqe(AcceptEntry(), 6, 0), [])
  }

  ghost function BothNotified(s: State): State {
    ClientsPosted(s).(phase := Reaping(2), outcomes := [Notified(7, AcceptEvent(5)), Notified(7, AcceptEvent(6))])
  }

  lemma SendsAccept(c: Config, s: State)
    requires Usable(c) && Init(c, s)
    ensures Leads(c, s, ACCEPT_SENT, AcceptArmed(s))
  {
    var a := AcceptPushed(s);
    var t, u := a.(phase := Preparing(0)), a.(sq := [AcceptEntry()], phase := Preparing(1));
    var v := u.(pending := Empty(), phase := Idle);
    var push := [PushRequest(1, Accept, 3, 0, 7)];
    assert InOrder(a.pending) == [0] && KindAt(a.pending, 0) == Accept;
    LeadsOne(c, s, push[0], a);
    LeadsStep(c, s, push, a, BeginPrepare, t);
    LeadsStep(c, s, push + [BeginPrepare], t, PrepareOne(0), u);
    LeadsStep(c, s, push + [BeginPrepare] + [PrepareOne(0)], u, EndPrepare, v);
    assert v.sq[1..] == [];
    LeadsStep(c, s, push + [BeginPrepare] + [PrepareOne(0)] + [EndPrepare], v, KernelTake, AcceptArmed(s));
  }

  lemma PostsClients(c: Config, s: State)
    requires Usable(c) && c.cqCapacity >= 2 && Init(c, s)
    ensures Leads(c, AcceptArmed(s), TWO_CLIENTS, ClientsPosted(s).(phase := Reaping(0)))
  {
    var a, t := AcceptArmed(s), Post(AcceptArmed(s), Cqe(AcceptEntry(), 5, 0), []);
    assert And(0, F_BUFFER) == 0;
    LeadsOne(c, a, KernelShot(0, 5, 0), t);
    LeadsStep(c, a, [KernelShot(0, 5, 0)], t, KernelShot(0, 6, 0), ClientsPosted(s));
    LeadsStep(c, a, [KernelShot(0, 5, 0)] + [KernelShot(0, 6, 0)], ClientsPosted(s), BeginReap,
              ClientsPosted(s).(phase := Reaping(0)));
  }

  /** The visit of one client's completion notifies, and frees nothing. */
  lemma VisitsClient(c: Config, s: State, j: nat, client: nat)
    requires s.heap == map[1 := AcceptBlock()] && s.pushes == [Push(1, Accept, AcceptBlock().content)]
    requires !s.faulted && s.phase == Reaping(j) && j < |s.cq| && s.cq[j] == Cqe(AcceptEntry(), client, 0)
    ensures Leads(c, s, VISITED,
                  s.(phase := Reaping(j + 1), outcomes := s.outcomes + [Notified(7, AcceptEvent(client))]))
  {
    var t := s.(phase := Handling(j, false), outcomes := s.outcomes + [Notified(7, AcceptEvent(client))]);
    LeadsOne(c, s, Dispatch, t);
    LeadsStep(c, s, [Dispatch], t, GiveBack, t.(phase := Handled(j)));
    LeadsStep(c, s, [Dispatch] + [GiveBack], t.(phase := Handled(j)), Step.Release, t.(phase := Reaping(j + 1)));
  }

  lemma VisitsBoth(c: Config, s: State)
    requires Usable(c) && Init(c, s)
    ensures Leads(c, ClientsPosted(s).(phase := Reaping(0)), VISITED + VISITED, BothNotified(s))
  {
    var a := ClientsPosted(s).(phase := Reaping(0));
    var t := a.(phase := Reaping(1), outcomes := [Notified(7, AcceptEvent(5))]);
    assert a.outcomes + [Notified(7, AcceptEvent(5))] == t.outcomes;
    assert t.outcomes + [Notified(7, AcceptEvent(6))] == BothNotified(s).outcomes;
    VisitsClient(c, a, 0, 5);
    VisitsClient(c, t, 1, 6);
    LeadsOn(c, a, VISITED, t, VISITED, BothNotified(s));
  }

  const ACCEPTS_TWICE: seq<Step> := ACCEPT_SENT + TWO_CLIENTS + (VISITED + VISITED)

  /** Both clients are notified, and the block of the request is still there. */
  lemma AcceptsTwice(c: Config, s: State) returns (states: seq<State>)
    requires Usable(c) && c.cqCapacity >= 2 && Init(c, s)
    ensures IsRun(c, states, ACCEPTS_TWICE)
    ensures var t := states[|ACCEPTS_TWICE|];
            && t.outcomes == [Notified(7, AcceptEvent(5)), Notified(7, AcceptEvent(6))]
            && t.heap == map[1 := AcceptBlock()] && t.freed == []
  {
    SendsAccept(c, s);
    PostsClients(c, s);
    VisitsBoth(c, s);
    LeadsOn(c, s, ACCEPT_SENT, AcceptArmed(s), TWO_CLIENTS, ClientsPosted(s).(phase := Reaping(0)));
    LeadsOn(c, s, ACCEPT_SENT + TWO_CLIENTS, ClientsPosted(s).(phase := Reaping(0)), VISITED + VISITED,
            BothNotified(s));
    states := LeadsIsRun(c, s, ACCEPTS_TWICE, BothNotified(s));
  }
}
