/** Every state of every run is sound, and what each kind of step leaves as it is. */
module Runs {
  import opened Protocol
  import opened Lifecycle
  import opened Soundness

  lemma SoundAt(c: Config, states: seq<State>, steps: seq<Step>, i: nat)
    requires IsRun(c, states, steps) && i < |steps|
    ensures Sound(c, states[i]) ==> Sound(c, states[i + 1])
  {
    assert StepAt(c, states, steps, i);
    if Sound(c, states[i]) { StepIsSound(c, states[i], steps[i]); }
  }

  lemma RunIsSound(c: Config, states: seq<State>, steps: seq<Step>, i: nat)
    requires IsRun(c, states, steps) && i < |states|
    ensures Sound(c, states[i])
  {
    var keep := (s: State) => Sound(c, s);
    InitIsSound(c, states[0]);
    forall j: nat | j + 1 < |states| ensures KeptAt(keep, states, j) { SoundAt(c, states, steps, j); }
    KeptThroughout(keep, states, i);
  }

  // ----- reachable states -----

  ghost predicate Reaches(c: Config, states: seq<State>, steps: seq<Step>, s: State) {
    IsRun(c, states, steps) && states[|steps|] == s
  }

  /** Some run leads to `s`. */
  ghost predicate Reachable(c: Config, s: State) {
    exists states, steps :: Reaches(c, states, steps, s)
  }

  lemma StartIsReachable(c: Config, s: State)
    requires c.IsValid() && Init(c, s)
    ensures Reachable(c, s)
  {
    assert Reaches(c, [s], [], s);
  }

  lemma RunExtends(c: Config, states: seq<State>, steps: seq<Step>, step: Step)
    requires IsRun(c, states, steps) && Enabled(c, states[|steps|], step)
    ensures IsRun(c, states + [Next(c, states[|steps|], step)], steps + [step])
  {
    var states', steps' := states + [Next(c, states[|steps|], step)], steps + [step];
    forall i: nat | i < |steps'| ensures StepAt(c, states', steps', i) {
      if i < |steps| { assert StepAt(c, states, steps, i); }
    }
  }

  lemma StepReaches(c: Config, s: State, step: Step)
    requires Reachable(c, s) && Enabled(c, s, step)
    ensures Reachable(c, Next(c, s, step))
  {
    var states, steps :| Reaches(c, states, steps, s);
    RunExtends(c, states, steps, step);
    assert Reaches(c, states + [Next(c, s, step)], steps + [step], Next(c, s, step));
  }

  lemma ReachableIsSound(c: Config, s: State)
    requires Reachable(c, s)
    ensures Sound(c, s)
  {
    var states, steps :| Reaches(c, states, steps, s);
    RunIsSound(c, states, steps, |steps|);
  }

  // ----- what is kept as long as each step is lossless -----

  /** At a step, what is held and what is owed are kept or lost together. */
  ghost predicate LostTogether(held: nat -> bool, owed: nat -> bool, lossless: nat -> bool, i: nat) {
    && (held(i) ==> (held(i + 1) <==> lossless(i)))
    && (owed(i + 1) <==> owed(i) && lossless(i))
  }

  lemma {:induction false} LostTogetherUpTo(held: nat -> bool, owed: nat -> bool, lossless: nat -> bool, m: nat)
    requires held(0) && owed(0)
    requires forall i: nat :: i < m ==> LostTogether(held, owed, lossless, i)
    ensures (forall i: nat :: i <= m ==> held(i)) <==> owed(m)
  {
    if m > 0 {
      LostTogetherUpTo(held, owed, lossless, m - 1);
      assert LostTogether(held, owed, lossless, m - 1);
    }
  }

  // ----- what steps leave as it is -----

  lemma UserStepsMoveNoCompletion(c: Config, s: State, step: Step)
    requires Enabled(c, s, step) && (step.PrepareOne? || step.Cancel?)
    ensures var t := Next(c, s, step);
            && t == s.(sq := t.sq, flying := t.flying, armed := t.armed, received := t.received,
                       dropped := t.dropped, phase := t.phase, faulted := t.faulted)
            && (step.Cancel? ==> t.phase == s.phase && !t.faulted)
            && (step.PrepareOne? ==> t.phase.Preparing?) && Released(t) == Released(s)
  {
    TakeManyFrame(s, step.room);
  }

  /** Completions, buffers and freed requests are as they were. */
  ghost predicate SameRecords(s: State, t: State) {
    && t.posted == s.posted && t.wire == s.wire && t.freed == s.freed && t.dropped == s.dropped
    && t.ring == s.ring && t.store == s.store
    && Released(t) <= |t.cq| && Unreleased(t) == Unreleased(s) && (t.phase.Handled? <==> s.phase.Handled?)
  }

  /** The submission entries are where they were. */
  ghost predicate SameEntries(s: State, t: State) {
    t.sq == s.sq && t.flying == s.flying && t.armed == s.armed && t.received == s.received
  }

  /** Histories only grow. */
  ghost predicate HistoryExtends(s: State, t: State) {
    s.pushes <= t.pushes && s.posted <= t.posted && s.wire <= t.wire && s.outcomes <= t.outcomes
  }

  ghost predicate QuietUser(step: Step) {
    step.PushRequest? || step.BeginPrepare? || step.EndPrepare?
  }

  ghost predicate QuietLoop(step: Step) {
    step.BeginReap? || step.Dispatch? || step.EndVisit? || step.AdvanceHead?
  }

  lemma QuietUserFrame(c: Config, s: State, step: Step)
    requires Bounded(c, s) && Enabled(c, s, step) && QuietUser(step)
    ensures SameRecords(s, Next(c, s, step)) && SameEntries(s, Next(c, s, step))
    ensures HistoryExtends(s, Next(c, s, step)) && Next(c, s, step).outcomes == s.outcomes
  {
  }

  lemma AdvanceFrame(s: State, t: State)
    requires s.phase.Advancing? && s.phase.at <= |s.cq| && t == s.(cq := s.cq[s.phase.at..], phase := Idle)
    ensures SameRecords(s, t)
  {
    assert t.cq[0..] == t.cq;
  }

  /** The loop moves on to another completion, or looks at one. */
  lemma PhaseFrame(s: State, t: State)
    requires Released(s) <= |s.cq| && t == s.(phase := t.phase, outcomes := t.outcomes, faulted := t.faulted)
    requires Released(t) == Released(s) && (t.phase.Handled? <==> s.phase.Handled?)
    ensures SameRecords(s, t)
  {
  }

  lemma QuietLoopFrame(c: Config, s: State, step: Step)
    requires Bounded(c, s) && Enabled(c, s, step) && QuietLoop(step)
    ensures SameRecords(s, Next(c, s, step)) && SameEntries(s, Next(c, s, step))
    ensures HistoryExtends(s, Next(c, s, step)) && Next(c, s, step).pushes == s.pushes
    ensures !step.Dispatch? ==> Next(c, s, step).outcomes == s.outcomes
  {
    if step.AdvanceHead? { AdvanceFrame(s, Next(c, s, step)); } else { PhaseFrame(s, Next(c, s, step)); }
  }

  lemma TakeFrame(c: Config, s: State, step: Step)
    requires Bounded(c, s) && Enabled(c, s, step) && step.KernelTake?
    ensures SameRecords(s, Next(c, s, step)) && HistoryExtends(s, Next(c, s, step))
    ensures Next(c, s, step).outcomes == s.outcomes
  {
  }

  lemma ReleaseFrame(c: Config, s: State, step: Step)
    requires Enabled(c, s, step) && step.Release?
    ensures var t := Next(c, s, step);
            t == s.(heap := t.heap, freed := t.freed, phase := t.phase, faulted := t.faulted)
            && t.phase == if t.faulted then s.phase else Reaping(s.phase.at + 1)
  {
  }
}
