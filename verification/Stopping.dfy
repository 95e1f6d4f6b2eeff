/** Stopping the real-time loop: from the stop request on, every step of the loop brings it nearer its end. */
module Stopping {
  import opened Types
  import opened Protocol
  import opened Shape

  /** Once the stop flag is up, a queued loop is cancelled and a held listen is doomed. */
  ghost predicate Stoppable(s: State) {
    && Inv(s)
    && (s.stop ==> !s.started)
    && (s.stop && s.tasks[0].pc.Queued? ==> s.tasks[0].cancel)
    && (s.stop && s.handle.Some? ==> Doomed(s.handle.value))
    && (Alive(s.tasks[0].pc) && !s.started ==> s.stop)
  }

  lemma HolderStepStoppable(s: State, l: Label)
    requires Stoppable(s) && IsHolderStep(l) && Enabled(s, l)
    ensures Stoppable(Next(s, l)) && Next(s, l).tasks[0] == s.tasks[0]
  {
    HolderStepKeeps(s, l);
  }

  lemma StopIsStoppable(s: State)
    requires Stoppable(s)
    ensures Stoppable(StopNext(s))
  {
    StopKeeps(s);
  }

  lemma LoopStepStoppable(s: State, l: Label)
    requires Stoppable(s) && Enabled(s, l) && IsLoopStep(l)
    ensures Stoppable(Next(s, l))
  {
    LoopStepKeeps(s, l);
  }

  lemma ServeStoppable(s: State, l: Label)
    requires Stoppable(s) && Enabled(s, l) && (l.Grant? || l.Leave?)
    ensures Stoppable(Next(s, l))
  {
    match l
    case Grant => GrantKeeps(s);
    case Leave(i) => LeaveKeeps(s, i);
  }

  lemma SpawnStoppable(s: State, job: Job, barge: bool)
    requires Stoppable(s) && Enabled(s, Spawn(job, barge))
    ensures Stoppable(SpawnNext(s, job, barge))
  {
    SpawnKeeps(s, job, barge);
  }

  lemma CancelStoppable(s: State, t: nat)
    requires Stoppable(s) && t < |s.tasks|
    ensures Stoppable(CancelTask(s, t))
  {
    CancelTaskKeeps(s, t);
  }

  lemma KeepsStoppable(s: State, l: Label)
    requires Stoppable(s) && Enabled(s, l)
    ensures Stoppable(Next(s, l))
  {
    if IsHolderStep(l) {
      HolderStepStoppable(s, l);
    } else if IsLoopStep(l) {
      LoopStepStoppable(s, l);
    } else if l.Grant? || l.Leave? {
      ServeStoppable(s, l);
    } else {
      match l
      case Spawn(job, barge) => SpawnStoppable(s, job, barge);
      case StartLoop => StartKeeps(s);
      case Stop => StopIsStoppable(s);
      case AskCancel(t) => CancelStoppable(s, t);
      case See(_) =>
      case Hear(_) =>
    }
  }

  // ---- the rank of a stopping loop ----

  /** How many steps of its own a stopping loop is away from its end. */
  function LoopRank(s: State): nat
    requires |s.tasks| > 0
  {
    match s.tasks[0].pc
    case Pausing => 1
    case Queued => 1
    case Listening =>
      if s.handle.None? || s.handle.value.phase.Over? then 2
      else if s.handle.value.phase.Closing? then 3 else 4
    case _ => 0
  }

  predicate MovesLoop(s: State, l: Label) {
    IsLoopStep(l) || (l.Grant? && s.waiters != [] && s.waiters[0] == 0)
    || (l.Leave? && l.index < |s.waiters| && s.waiters[l.index] == 0)
  }

  predicate Nears(s: State, l: Label, s1: State) {
    && |s.tasks| > 0 && |s1.tasks| > 0
    && s1.stop && !s1.tasks[0].pc.Idle?
    && LoopRank(s1) + (if MovesLoop(s, l) then 1 else 0) <= LoopRank(s)
  }

  /** A stopping loop comes nearer its end with each of its steps, and no other step sets it back. */
  lemma StoppingRanks(s: State, l: Label)
    requires Stoppable(s) && s.stop && Enabled(s, l) && !s.tasks[0].pc.Idle?
    ensures Nears(s, l, Next(s, l))
  {
    if IsHolderStep(l) {
      HolderStepRanks(s, l);
    } else if IsLoopStep(l) {
      LoopStepRanks(s, l);
    } else if l.Grant? || l.Leave? {
      ServeRanks(s, l);
    } else {
      match l
      case Spawn(job, barge) => SpawnRanks(s, job, barge);
      case Stop => CancelRanks(s, l);
      case AskCancel(_) => CancelRanks(s, l);
      case See(_) =>
      case Hear(_) =>
    }
  }

  lemma HolderStepRanks(s: State, l: Label)
    requires Stoppable(s) && s.stop && IsHolderStep(l) && Enabled(s, l) && !s.tasks[0].pc.Idle?
    ensures Nears(s, l, Next(s, l))
  {
    MovesOk(s, l);
  }

  lemma ServeRanks(s: State, l: Label)
    requires Stoppable(s) && s.stop && Enabled(s, l) && (l.Grant? || l.Leave?)
    ensures var s1 := Next(s, l);
            s1.stop && |s1.tasks| > 0 && (s.tasks[0].pc.Idle? <==> s1.tasks[0].pc.Idle?)
            && LoopRank(s1) + (if MovesLoop(s, l) then 1 else 0) <= LoopRank(s)
  {
  }

  lemma LoopStepRanks(s: State, l: Label)
    requires Stoppable(s) && s.stop && Enabled(s, l) && IsLoopStep(l)
    ensures var s1 := Next(s, l);
            s1.stop && |s1.tasks| > 0 && !s1.tasks[0].pc.Idle? && LoopRank(s1) < LoopRank(s)
  {
  }

  lemma SpawnRanks(s: State, job: Job, barge: bool)
    requires Stoppable(s) && Enabled(s, Spawn(job, barge))
    ensures var s1 := SpawnNext(s, job, barge);
            s1.stop == s.stop && |s1.tasks| > 0 && s1.tasks[0] == s.tasks[0] && LoopRank(s1) == LoopRank(s)
  {
  }

  lemma CancelRanks(s: State, l: Label)
    requires Stoppable(s) && s.stop && Enabled(s, l) && (l.Stop? || l.AskCancel?)
    ensures var s1 := Next(s, l);
            s1.stop && |s1.tasks| > 0 && s1.tasks[0].pc == s.tasks[0].pc && LoopRank(s1) == LoopRank(s)
  {
  }

  /** A stopping loop that has not ended always has a step to take. */
  lemma StoppingLoopCanMove(s: State)
    requires Stoppable(s) && s.stop && Alive(s.tasks[0].pc)
    ensures exists l :: Enabled(s, l) && MovesLoop(s, l)
  {
    var pc := s.tasks[0].pc;
    var l: Label;
    if pc.Pausing? {
      l := if s.tasks[0].cancel then LoopCancel else LoopWake(true);
    } else if pc.Queued? {
      assert 0 in s.waiters;
      var i :| 0 <= i < |s.waiters| && s.waiters[i] == 0;
      l := Leave(i);
    } else {
      assert Holds(pc) && pc.Listening?;
      var inner := s.handle.value;
      l := if inner.phase.Over? then LoopResume else if inner.cancel then ListenCancel else ListenStep(HungUp);
    }
    assert Enabled(s, l) && MovesLoop(s, l);
  }

  /** The loop's own steps in a run. */
  ghost function LoopMoves(s: State, run: seq<Label>): nat
    requires IsRun(s, run)
    decreases |run|
  {
    if run == [] then 0
    else (if MovesLoop(s, run[0]) then 1 else 0) + LoopMoves(Next(s, run[0]), run[1..])
  }

  /** From a stop request on, in every run the loop takes at most LoopRank (never more than four) steps. */
  lemma {:induction false} StopBoundsLoop(s: State, run: seq<Label>)
    requires Stoppable(s) && s.stop && !s.tasks[0].pc.Idle? && IsRun(s, run)
    ensures Stoppable(After(s, run)) && After(s, run).stop && !After(s, run).tasks[0].pc.Idle?
    ensures LoopMoves(s, run) + LoopRank(After(s, run)) <= LoopRank(s) <= 4
    decreases |run|
  {
    if run != [] {
      StoppingRanks(s, run[0]);
      KeepsStoppable(s, run[0]);
      StopBoundsLoop(Next(s, run[0]), run[1..]);
    }
  }

  // ---- preemption never ends the loop ----

  /** The loop runs, nobody asked it to stop and nobody cancelled its task. */
  predicate RunsOn(s: State) {
    |s.tasks| > 0 && !s.stop && !s.tasks[0].cancel && !s.tasks[0].pc.Done?
  }

  lemma PreemptedLoopRunsOn(s: State, l: Label)
    requires Inv(s) && RunsOn(s) && Enabled(s, l) && l != Stop && l != AskCancel(0)
    ensures RunsOn(Next(s, l))
  {
    if IsLoopStep(l) {
      LoopStepRunsOn(s, l);
    } else if l.Grant? || l.Leave? {
      ServeRunsOn(s, l);
    }
  }

  lemma ServeRunsOn(s: State, l: Label)
    requires Inv(s) && RunsOn(s) && Enabled(s, l) && (l.Grant? || l.Leave?)
    ensures RunsOn(Next(s, l))
  {
  }

  lemma LoopStepRunsOn(s: State, l: Label)
    requires Inv(s) && RunsOn(s) && Enabled(s, l) && IsLoopStep(l)
    ensures RunsOn(Next(s, l))
  {
  }
}
