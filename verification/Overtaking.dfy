/** When a listen window overtakes a waiting job: exactly when the loop queued before it, and a run where it does. */
module Overtaking {
  import opened Types
  import opened Trace
  import opened Protocol
  import opened Shape
  import opened Order
  import opened Arrivals
  import opened Theorems

  // ---- exactly when ----

  /** The step takes the cancelled loop out of the queue. */
  predicate LeavesLoop(s: State, l: Label) {
    l.Leave? && l.index < |s.waiters| && s.waiters[l.index] == 0
  }

  /** In no step of the run the loop leaves the queue by cancellation. */
  ghost predicate LoopStays(s: State, run: seq<Label>)
    requires IsRun(s, run)
    decreases |run|
  {
    run == [] || (!LeavesLoop(s, run[0]) && LoopStays(Next(s, run[0]), run[1..]))
  }

  /** What the log says of the loop at a job's arrival is not changed by later steps. */
  lemma StepRemembersArrival(s: State, l: Label, t: nat)
    requires Inv(s) && Enabled(s, l) && t < |s.tasks| && !LeavesLoop(s, l)
    ensures t < |Next(s, l).tasks|
    ensures LoopWasAhead(Next(s, l).log, t) == LoopWasAhead(s.log, t)
    ensures LoopLeft(Next(s, l).log, t) == LoopLeft(s.log, t)
  {
    if l.Spawn? {
      if !(l.job.BackgroundRead? && !s.bluetooth.reachable) {
        SpawnRecords(s, l.job, l.barge);
      }
    } else {
      NobodyArrives(s, l);
    }
  }

  lemma {:induction false} RunRemembersArrival(s: State, run: seq<Label>, t: nat)
    requires Inv(s) && IsRun(s, run) && t < |s.tasks| && LoopStays(s, run)
    ensures LoopWasAhead(After(s, run).log, t) == LoopWasAhead(s.log, t)
    ensures LoopLeft(After(s, run).log, t) == LoopLeft(s.log, t)
    decreases |run|
  {
    if run != [] {
      StepRemembersArrival(s, run[0], t);
      Keeps(s, run[0]);
      RunRemembersArrival(Next(s, run[0]), run[1..], t);
    }
  }

  /** The loop is not ahead of the job at the head of the queue. */
  lemma NobodyAheadOfHead(s: State, t: nat)
    requires Inv(s) && |s.waiters| > 0 && s.waiters[0] == t
    ensures !LoopAhead(s, t)
  {
  }

  lemma ArrivalIsRecorded(s: State, job: Job)
    requires Inv(s) && Enabled(s, Spawn(job, false)) && !(job.BackgroundRead? && !s.bluetooth.reachable)
    ensures var s1 := SpawnNext(s, job, false);
            && |s1.tasks| == |s.tasks| + 1
            && LoopWasAhead(s1.log, |s.tasks|) == (0 in s.waiters) && !LoopLeft(s1.log, |s.tasks|)
  {
  }

  /** A job that queues and reaches its turn, in a run in which the loop is not cancelled in the queue, was
      overtaken by exactly one listen window if the loop queued when it was called, else by none. */
  lemma OvertakenIffLoopQueued(s: State, job: Job, run: seq<Label>)
    requires Reachable(s) && Enabled(s, Spawn(job, false)) && !(job.BackgroundRead? && !s.bluetooth.reachable)
    requires IsRun(Next(s, Spawn(job, false)), run) && LoopStays(Next(s, Spawn(job, false)), run)
    requires var s2 := After(Next(s, Spawn(job, false)), run);
             Waiting(s2, |s.tasks|) && s2.waiters != [] && s2.waiters[0] == |s.tasks|
    ensures WindowsSince(After(Next(s, Spawn(job, false)), run).log, |s.tasks|) == One(0 in s.waiters)
  {
    var t, s1 := |s.tasks|, Next(s, Spawn(job, false));
    ReachableFair(s);
    KeepsFair(s, Spawn(job, false));
    ArrivalIsRecorded(s, job);
    RunRemembersArrival(s1, run, t);
    RunFair(s1, run);
    var s2 := After(s1, run);
    assert Bounded(s2, t);
    NobodyAheadOfHead(s2, t);
  }

  // ---- a run where it does ----

  /** An unlock is in its client call, with the loop and then a lock call queued behind it. */
  predicate LoopQueuedAhead(s: State, phase: Phase) {
    && s.tasks == [Task(RealtimeLoop, Queued, false),
                   Task(Actuate(false), InCall(Session(Operate(false), phase, 0), 0), false),
                   Task(Actuate(true), Queued, false)]
    && s.holder == Some(1) && s.waiters == [0, 2] && s.handle == None && WindowsSince(s.log, 2) == 0
  }

  predicate UnlockRuns(s: State, loop: Pc, waiters: seq<nat>) {
    && s.tasks == [Task(RealtimeLoop, loop, false),
                   Task(Actuate(false), InCall(Session(Operate(false), Dialing, 0), 0), false)]
    && s.holder == Some(1) && s.waiters == waiters && s.handle == None && !s.stop && s.bluetooth.reachable
  }

  lemma UnlockStarts(cfg: Config, b: BluetoothState)
    requires b.reachable
    ensures Enabled(Init(cfg, b), StartLoop)
    ensures var s := Next(Init(cfg, b), StartLoop);
            Enabled(s, Spawn(Actuate(false), true)) && UnlockRuns(Next(s, Spawn(Actuate(false), true)), Pausing, [])
  {
  }

  lemma LoopQueues(s: State)
    requires UnlockRuns(s, Pausing, [])
    ensures Enabled(s, LoopWake(false)) && UnlockRuns(Next(s, LoopWake(false)), Queued, [0])
  {
  }

  lemma LockArrives(s: State)
    requires UnlockRuns(s, Queued, [0])
    ensures Enabled(s, Spawn(Actuate(true), false)) && LoopQueuedAhead(Next(s, Spawn(Actuate(true), false)), Dialing)
  {
  }

  lemma UnlockDials(s: State)
    requires LoopQueuedAhead(s, Dialing)
    ensures Enabled(s, Step(1, Dialed)) && LoopQueuedAhead(Next(s, Step(1, Dialed)), Live)
  {
  }

  lemma UnlockAnswers(s: State)
    requires LoopQueuedAhead(s, Live)
    ensures Enabled(s, Step(1, Answered(Nothing)))
    ensures LoopQueuedAhead(Next(s, Step(1, Answered(Nothing))), Closing(Nothing))
  {
  }

  /** The unlock is over; the loop and the lock call still queue. */
  predicate LoopIsNext(s: State) {
    && |s.tasks| == 3
    && s.tasks[0] == Task(RealtimeLoop, Queued, false)
    && s.tasks[2] == Task(Actuate(true), Queued, false)
    && s.holder == None && s.waiters == [0, 2] && WindowsSince(s.log, 2) == 0
  }

  lemma UnlockEnds(s: State)
    requires LoopQueuedAhead(s, Closing(Nothing))
    ensures Enabled(s, Step(1, HungUp)) && LoopIsNext(Next(s, Step(1, HungUp)))
  {
  }

  lemma LoopIsGranted(s: State)
    requires LoopIsNext(s)
    ensures Enabled(s, Grant)
    ensures var s1 := Next(s, Grant);
            && Waiting(s1, 2) && WindowsSince(s1.log, 2) == 1
            && s1.handle == Some(Inner(Fresh, false)) && s1.holder == Some(0)
  {
  }

  /** A run in which a fresh, uncancelled listen window starts between a job's arrival and its turn: the
      loop queues while an unlock runs, a lock call arrives behind it, and the unlock ends. */
  lemma AWindowCanOvertake(cfg: Config, b: BluetoothState) returns (s: State, t: nat)
    requires cfg.attempts >= 1 && b.reachable
    ensures Reachable(s) && Waiting(s, t) && WindowsSince(s.log, t) == 1
    ensures s.handle == Some(Inner(Fresh, false)) && s.holder == Some(0)
  {
    t := 2;
    ReachInit(cfg, b);
    UnlockStarts(cfg, b);
    s := Reach(Init(cfg, b), StartLoop);
    s := Reach(s, Spawn(Actuate(false), true));
    LoopQueues(s);
    s := Reach(s, LoopWake(false));
    LockArrives(s);
    s := Reach(s, Spawn(Actuate(true), false));
    UnlockDials(s);
    s := Reach(s, Step(1, Dialed));
    UnlockAnswers(s);
    s := Reach(s, Step(1, Answered(Nothing)));
    UnlockEnds(s);
    s := Reach(s, Step(1, HungUp));
    LoopIsGranted(s);
    s := Reach(s, Grant);
  }
}
