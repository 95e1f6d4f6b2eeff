/** What holds in every run of the coordinator, from its construction on, under any interleaving
    of operations, reads, listens, cancellations, stop requests and Bluetooth changes. */
module Theorems {
  import opened Types
  import opened Cache
  import opened Trace
  import opened Protocol
  import opened Shape
  import opened Discipline
  import opened Facts
  import opened Ladder
  import opened Order
  import opened Stopping
  import opened Service

  // ---- the invariants along runs ----

  lemma {:induction false} RunAgrees(s: State, run: seq<Label>)
    requires Agrees(s) && IsRun(s, run)
    ensures Agrees(After(s, run))
    decreases |run|
  {
    if run != [] {
      KeepsAgreeing(s, run[0]);
      RunAgrees(Next(s, run[0]), run[1..]);
    }
  }

  lemma {:induction false} RunHonest(s: State, run: seq<Label>)
    requires Honest(s) && IsRun(s, run)
    ensures Honest(After(s, run))
    decreases |run|
  {
    if run != [] {
      KeepsHonest(s, run[0]);
      RunHonest(Next(s, run[0]), run[1..]);
    }
  }

  lemma {:induction false} RunCareful(s: State, run: seq<Label>)
    requires Careful(s) && IsRun(s, run)
    ensures Careful(After(s, run))
    decreases |run|
  {
    if run != [] {
      KeepsCareful(s, run[0]);
      RunCareful(Next(s, run[0]), run[1..]);
    }
  }

  lemma {:induction false} RunFair(s: State, run: seq<Label>)
    requires Fair(s) && IsRun(s, run)
    ensures Fair(After(s, run))
    decreases |run|
  {
    if run != [] {
      KeepsFair(s, run[0]);
      RunFair(Next(s, run[0]), run[1..]);
    }
  }

  lemma {:induction false} RunStoppable(s: State, run: seq<Label>)
    requires Stoppable(s) && IsRun(s, run)
    ensures Stoppable(After(s, run))
    decreases |run|
  {
    if run != [] {
      KeepsStoppable(s, run[0]);
      RunStoppable(Next(s, run[0]), run[1..]);
    }
  }

  ghost predicate Leads(cfg: Config, b: BluetoothState, run: seq<Label>, s: State) {
    cfg.attempts >= 1 && IsRun(Init(cfg, b), run) && After(Init(cfg, b), run) == s
  }

  /** A state some run of the coordinator reaches. */
  ghost predicate Reachable(s: State) {
    exists cfg, b, run :: Leads(cfg, b, run, s)
  }

  lemma Reach(s: State, l: Label) returns (s1: State)
    requires Reachable(s) && Enabled(s, l)
    ensures s1 == Next(s, l) && Reachable(s1)
  {
    s1 := Next(s, l);
    ReachNext(s, l);
  }

  lemma ReachInit(cfg: Config, b: BluetoothState)
    requires cfg.attempts >= 1
    ensures Reachable(Init(cfg, b))
  {
    assert Leads(cfg, b, [], Init(cfg, b));
  }

  lemma {:induction false} AfterAppend(s: State, run: seq<Label>, l: Label)
    requires IsRun(s, run) && Enabled(After(s, run), l)
    ensures IsRun(s, run + [l]) && After(s, run + [l]) == Next(After(s, run), l)
    decreases |run|
  {
    if run == [] {
      assert (run + [l])[1..] == [];
    } else {
      AfterAppend(Next(s, run[0]), run[1..], l);
      assert (run + [l])[1..] == run[1..] + [l];
    }
  }

  lemma ReachNext(s: State, l: Label)
    requires Reachable(s) && Enabled(s, l)
    ensures Reachable(Next(s, l))
  {
    var cfg, b, run :| Leads(cfg, b, run, s);
    AfterAppend(Init(cfg, b), run, l);
    assert Leads(cfg, b, run + [l], Next(s, l));
  }

  lemma ReachableAgrees(s: State)
    requires Reachable(s)
    ensures Agrees(s)
  {
    var cfg, b, run :| Leads(cfg, b, run, s);
    RunAgrees(Init(cfg, b), run);
  }

  lemma InitIsHonest(cfg: Config, b: BluetoothState)
    requires cfg.attempts >= 1
    ensures Honest(Init(cfg, b))
  {
    forall n: ReadName ensures Known(UNREAD, n) == AsFact(LastReport(Empty, n)) {
      match n { case _ => }
    }
  }

  lemma ReachableHonest(s: State)
    requires Reachable(s)
    ensures Honest(s)
  {
    var cfg, b, run :| Leads(cfg, b, run, s);
    InitIsHonest(cfg, b);
    RunHonest(Init(cfg, b), run);
  }

  lemma ReachableCareful(s: State)
    requires Reachable(s)
    ensures Careful(s)
  {
    var cfg, b, run :| Leads(cfg, b, run, s);
    RunCareful(Init(cfg, b), run);
  }

  lemma ReachableFair(s: State)
    requires Reachable(s)
    ensures Fair(s)
  {
    var cfg, b, run :| Leads(cfg, b, run, s);
    RunFair(Init(cfg, b), run);
  }

  lemma ReachableStoppable(s: State)
    requires Reachable(s)
    ensures Stoppable(s)
  {
    var cfg, b, run :| Leads(cfg, b, run, s);
    RunStoppable(Init(cfg, b), run);
  }

  // ---- one BLE session at a time ----

  /** In every run at most one task holds the lock, at most one client call and one connection are
      open, calls run only under the lock, and every connection is closed before its call ends and
      before the lock is released. The listen handle exists only while the loop holds the lock. */
  lemma OneSessionAtATime(s: State)
    requires Reachable(s)
    ensures Disciplined(s.log)
    ensures forall t, u | 0 <= t < |s.tasks| && 0 <= u < |s.tasks| ::
              Holds(s.tasks[t].pc) && Holds(s.tasks[u].pc) ==> t == u
    ensures Owner(s.log) == s.holder && (s.holder.Some? ==> s.holder.value < |s.tasks|)
    ensures InFlight(s.log) == FlightOf(s) && Linked(s.log) == LinkOf(s)
    ensures s.handle.Some? <==> s.holder == Some(0)
  {
    ReachableAgrees(s);
    assert PcOk(s.tasks[0].job, s.tasks[0].pc, s.cfg);
  }

  // ---- the cache and the snapshot ----

  /** Every cached value is the last one the lock reported under its name: by an ended read, a
      completed actuation (observed position, else the commanded one) or a pushed event. */
  lemma CacheIsLastReported(s: State, n: ReadName)
    requires Reachable(s)
    ensures Known(s.core.values, n) == AsFact(LastReport(s.log, n))
  {
    ReachableHonest(s);
  }

  /** The bolt position is the last reported one, in the order the lock was held. */
  lemma BoltIsLinearised(s: State)
    requires Reachable(s)
    ensures s.core.values.isLocked ==
            match LastReport(s.log, BoltState) case Some(SawBolt(locked)) => Some(locked) case _ => None
  {
    CacheIsLastReported(s, BoltState);
    LastReportIsNamed(s.log, BoltState);
  }

  lemma {:induction false} LastReportIsNamed(log: Log, n: ReadName)
    ensures LastReport(log, n).Some? ==> LastReport(log, n).value.Name() == n
    decreases log
  {
    if log.Then? {
      LastReportIsNamed(log.past, n);
    }
  }

  lemma {:induction false} LogOnlyGrows(s: State, run: seq<Label>, n: ReadName)
    requires IsRun(s, run) && LastReport(s.log, n).Some?
    ensures LastReport(After(s, run).log, n).Some?
    decreases |run|
  {
    if run != [] {
      StepGrowsLog(s, run[0]);
      LogOnlyGrows(Next(s, run[0]), run[1..], n);
    }
  }

  lemma StepGrowsLog(s: State, l: Label)
    requires Enabled(s, l)
    ensures Next(s, l).log == s.log || (Next(s, l).log.Then? && Next(s, l).log.past == s.log)
  {
    if IsHolderStep(l) {
      assert Next(s, l) == Commit(s, l.tid, MoveOf(s, l));
    }
  }

  /** Once a value is known it never becomes unknown again. */
  lemma KnownStaysKnown(s: State, run: seq<Label>, n: ReadName)
    requires Reachable(s) && IsRun(s, run)
    requires Known(s.core.values, n).Some?
    ensures Known(After(s, run).core.values, n).Some?
  {
    ReachableHonest(s);
    RunHonest(s, run);
    assert Known(s.core.values, n) == AsFact(LastReport(s.log, n));
    LogOnlyGrows(s, run, n);
    assert Known(After(s, run).core.values, n) == AsFact(LastReport(After(s, run).log, n));
  }

  /** The published snapshot always is the current one up to the error type, and is it entirely unless
      a background read was rejected since the last push and the snapshot does not say so yet. */
  lemma SnapshotIsCoherent(s: State)
    requires Reachable(s)
    ensures var now := BuildSnapshot(s.core, s.bluetooth);
            && s.data == now.(lastErrorType := s.data.lastErrorType)
            && (s.data == now <==> (AuthLag(s.log) ==> s.data.lastErrorType == Some(AuthenticationError)))
  {
    ReachableHonest(s);
  }

  /** What entities are shown under every name is the last value the lock reported, at every moment. */
  lemma PublishedIsLastReported(s: State, n: ReadName)
    requires Reachable(s)
    ensures Shown(s.data, n) == AsFact(LastReport(s.log, n))
  {
    SnapshotIsCoherent(s);
    CacheIsLastReported(s, n);
    SnapshotShowsCache(s.core.(lastErrorType := s.data.lastErrorType), s.bluetooth);
    assert s.data == BuildSnapshot(s.core.(lastErrorType := s.data.lastErrorType), s.bluetooth);
  }

  /** The busy flag and its published copy are up exactly while an operation holds the lock, and
      the last operation then names the holder. */
  lemma BusyWhileHeld(s: State)
    requires Reachable(s)
    ensures s.core.operationInProgress == s.data.operationInProgress == Busy(s)
    ensures Busy(s) ==> s.core.lastOperation == s.data.lastOperation == Some(s.tasks[s.holder.value].job)
  {
    ReachableHonest(s);
  }

  /** The credential count never reads zero: an emptied table is not told apart from an unanswered
      read, so deleting the last credential leaves the previous count in place. */
  lemma CountNeverReachesZero(s: State)
    requires Reachable(s)
    ensures s.core.values.credentialCount != Some(0) && s.data.credentialCount != Some(0)
  {
    ReachableHonest(s);
  }

  // ---- presence ----

  /** Every presence-gated call begins right after a front-panel read of the same task that returned
      True; a ladder makes at most 1 + attempts front-panel reads; it asks once exactly when the
      first check was answered with anything but True. */
  lemma GatedCallsFollowPresence(s: State, t: nat)
    requires Reachable(s) && 0 < t < |s.tasks|
    ensures PresenceSafe(s.log)
    ensures FrontReads(s.log, t) <= 1 + s.cfg.attempts
    ensures Asks(s.log, t) == if Asleep(FirstFront(s.log, t)) then 1 else 0
  {
    ReachableCareful(s);
    assert PcOk(s.tasks[t].job, s.tasks[t].pc, s.cfg);
    assert Climb(s.cfg, s.tasks[t].pc, FrontReads(s.log, t), Asks(s.log, t), FirstFront(s.log, t));
  }

  /** With the windows the coordinator runs with, a ladder makes at most eleven front-panel reads: the first
      check and as many polls as fit into the window. */
  lemma ShippedLaddersAreShort(s: State, t: nat, wakeSwitch: bool)
    requires Reachable(s) && 0 < t < |s.tasks| && s.cfg == Shipped(wakeSwitch)
    ensures FrontReads(s.log, t) <= 1 + Polls(DATA_PRESENCE_WINDOW_SECONDS, PRESENCE_POLL_SECONDS) == 11
  {
    GatedCallsFollowPresence(s, t);
  }

  /** The shared keypad notification shows only while a presence wait or a language change is in
      flight; when every task is done it is gone. */
  lemma NotificationIsNeverLeftBehind(s: State)
    requires Reachable(s)
    ensures s.notified ==> exists t :: 0 <= t < |s.tasks| && InScope(s.tasks[t].job, s.tasks[t].pc)
    ensures (forall t | 0 <= t < |s.tasks| :: s.tasks[t].pc.Done?) ==> !s.notified
  {
    ReachableCareful(s);
  }

  // ---- order of service ----

  /** Client calls of one-shot jobs begin in the order the jobs arrived. A job that waits was overtaken
      by at most one listen window: the loop that queued when it arrived still queues ahead of it, or
      left the queue, or opened that window, and one that did not queue then overtakes nobody. A listen
      that was running when the job arrived is on its way out. */
  lemma FirstComeFirstServed(s: State, t: nat)
    requires Reachable(s)
    ensures InArrivalOrder(s.log)
    ensures Waiting(s, t) ==>
              WindowsSince(s.log, t) + One(LoopAhead(s, t)) + One(LoopLeft(s.log, t)) == One(LoopWasAhead(s.log, t))
    ensures Waiting(s, t) ==> WindowsSince(s.log, t) <= 1
    ensures Waiting(s, t) && WindowsSince(s.log, t) == 1 ==> LoopWasAhead(s.log, t)
    ensures Waiting(s, t) && s.handle.Some? && WindowsSince(s.log, t) == 0 ==> Doomed(s.handle.value)
  {
    ReachableFair(s);
    if Waiting(s, t) {
      assert Bounded(s, t);
    }
  }

  /** While a job waits some step serves it, and its budget bounds how many such steps a run can
      make before it is its turn. */
  lemma NobodyStarves(s: State, run: seq<Label>, t: nat)
    requires Reachable(s) && IsRun(s, run) && Waiting(s, t)
    ensures Fair(s)
    ensures exists l :: Enabled(s, l) && Serves(s, l, Place(s, t))
    ensures WaitsThroughout(s, run, t) ==> Services(s, run, t) <= Budget(s, Place(s, t))
  {
    ReachableFair(s);
    WaitingIsServed(s, t, Place(s, t));
    if WaitsThroughout(s, run, t) {
      WaitingIsBounded(s, run, t);
    }
  }

  /** Whoever holds the lock can take a step, and releases it by step 5 * attempts + 19 of its own at the
      latest, in every run. */
  lemma HoldsEnd(s: State, run: seq<Label>, t: nat)
    requires Reachable(s) && s.holder == Some(t) && IsRun(s, run)
    ensures exists l :: Enabled(s, l) && IsHoldersMove(l)
    ensures HoldsThroughout(s, run, t) ==> HoldersMoves(s, run) < 5 * s.cfg.attempts + 19
  {
    ReachableFair(s);
    var l: Label;
    if t == 0 {
      l := LoopCanMove(s);
    } else {
      l := HolderCanMove(s);
    }
    assert Enabled(s, l) && IsHoldersMove(l);
    if HoldsThroughout(s, run, t) {
      HoldingIsBounded(s, run, t);
      HeldAtEnd(s, run, t);
      RankIsBounded(After(s, run));
      RankIsBounded(s);
    }
  }

  lemma {:induction false} HeldAtEnd(s: State, run: seq<Label>, t: nat)
    requires IsRun(s, run) && HoldsThroughout(s, run, t)
    ensures After(s, run).holder == Some(t)
    decreases |run|
  {
    if run != [] {
      HeldAtEnd(Next(s, run[0]), run[1..], t);
    }
  }

  // ---- stopping ----

  /** After a stop request the loop takes at most four more steps of its own, can always take one
      until it has ended, and once ended holds neither the lock nor a listen handle. */
  lemma StopEndsTheLoop(s: State, run: seq<Label>)
    requires Reachable(s) && |s.tasks| > 0 && s.stop && !s.tasks[0].pc.Idle? && IsRun(s, run)
    ensures LoopMoves(s, run) <= 4
    ensures var s1 := After(s, run);
            |s1.tasks| > 0
            && (s1.tasks[0].pc.Done? || exists l :: Enabled(s1, l) && MovesLoop(s1, l))
            && (s1.tasks[0].pc.Done? ==> s1.holder != Some(0) && s1.handle == None && 0 !in s1.waiters)
  {
    ReachableStoppable(s);
    StopBoundsLoop(s, run);
    var s1 := After(s, run);
    if !s1.tasks[0].pc.Done? {
      StoppingLoopCanMove(s1);
    }
  }

  /** In a run without a stop request and without a cancellation of the loop's own task, the loop never
      ends, however often it is preempted. */
  lemma {:induction false} PreemptionNeverEndsTheLoop(s: State, run: seq<Label>)
    requires Inv(s) && RunsOn(s) && IsRun(s, run)
    requires forall i | 0 <= i < |run| :: run[i] != Stop && run[i] != AskCancel(0)
    ensures Inv(After(s, run)) && RunsOn(After(s, run))
    decreases |run|
  {
    if run != [] {
      Keeps(s, run[0]);
      PreemptedLoopRunsOn(s, run[0]);
      PreemptionNeverEndsTheLoop(Next(s, run[0]), run[1..]);
    }
  }
}
