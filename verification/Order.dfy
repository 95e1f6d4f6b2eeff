/** First come, first served; and at most one fresh listen window overtakes a waiting job. */
module Order {
  import opened Types
  import opened Trace
  import opened Protocol
  import opened Shape
  import Discipline

  /** A one-shot job that queues for the lock and has not been cancelled. */
  predicate Waiting(s: State, t: nat) {
    0 < t < |s.tasks| && s.tasks[t].pc.Queued? && !s.tasks[t].cancel
  }

  ghost predicate InOrder(s: State) {
    && InArrivalOrder(s.log)
    && LastStarter(s.log) < |s.tasks|
    && (s.holder.Some? && s.holder.value > 0 ==>
          LastStarter(s.log) <= s.holder.value && forall t | Waiting(s, t) :: s.holder.value < t)
    && (forall t | Waiting(s, t) :: LastStarter(s.log) < t)
    && (forall i, j | 0 <= i < j < |s.waiters| && s.waiters[i] > 0 && s.waiters[j] > 0 :: s.waiters[i] < s.waiters[j])
  }

  ghost predicate LoopAhead(s: State, t: nat) {
    exists i, j :: 0 <= i < j < |s.waiters| && s.waiters[i] == 0 && s.waiters[j] == t
  }

  function One(b: bool): nat {
    if b then 1 else 0
  }

  /** Where the loop went that stood ahead of task t when it arrived: it still queues ahead, it opened a
      window, or it left the queue. Nothing else has overtaken t or will. */
  ghost predicate Bounded(s: State, t: nat) {
    && WindowsSince(s.log, t) + One(LoopAhead(s, t)) + One(LoopLeft(s.log, t)) == One(LoopWasAhead(s.log, t))
    && (s.handle.Some? && WindowsSince(s.log, t) == 0 ==> Doomed(s.handle.value))
  }

  ghost predicate Fair(s: State) {
    Inv(s) && InOrder(s) && forall t | Waiting(s, t) :: Bounded(s, t)
  }

  lemma HolderStepFair(s: State, l: Label)
    requires Fair(s) && IsHolderStep(l) && Enabled(s, l)
    ensures Fair(Next(s, l))
  {
    MovesOk(s, l);
    Discipline.MovesLegal(s, l);
    HolderStepKeeps(s, l);
    CommitFair(s, l.tid, MoveOf(s, l));
  }

  lemma CommitFair(s: State, t: nat, m: Move)
    requires Fair(s) && 0 < t < |s.tasks| && s.holder == Some(t)
    requires m.burst.tid == t && m.burst.arrived == None && !m.burst.granted && m.burst.started != Some(Listen)
    requires !m.pc.Queued?
    ensures var s1 := Commit(s, t, m); InOrder(s1) && forall u | Waiting(s1, u) :: Bounded(s1, u)
  {
    var s1 := Commit(s, t, m);
    forall u | Waiting(s1, u) ensures Bounded(s1, u) {
      assert Waiting(s, u);
      assert LoopAhead(s1, u) <==> LoopAhead(s, u);
    }
    forall u | Waiting(s1, u) ensures LastStarter(s1.log) < u && t < u {
      assert Waiting(s, u);
    }
  }

  /** Task t takes the free lock ahead of every job that still waits. */
  lemma EnterFair(s: State, t: nat, b: Burst)
    requires 0 < t < |s.tasks| && InOrder(s) && s.holder == None && !s.tasks[t].job.RealtimeLoop?
    requires s.tasks[t].pc.Queued? && b == Quiet(t).(arrived := b.arrived)
    requires LastStarter(s.log) <= t
    requires forall u | Waiting(s, u) && u != t :: t < u && Bounded(s, u)
    ensures var s1 := Commit(s, t, Enter(s.tasks[t].job, s.core, s.bluetooth.reachable, b));
            InOrder(s1) && forall u | Waiting(s1, u) :: Bounded(s1, u)
  {
    var m := Enter(s.tasks[t].job, s.core, s.bluetooth.reachable, b);
    var s1 := Commit(s, t, m);
    assert m.burst.started != Some(Listen) && !m.pc.Queued?;
    forall u | Waiting(s1, u) ensures Bounded(s1, u) && LastStarter(s1.log) < u && t < u {
      assert Waiting(s, u) && u != t;
      assert LoopAhead(s1, u) <==> LoopAhead(s, u);
    }
  }

  /** Whoever may take the lock past the queue overtakes nobody. */
  lemma NobodyWaits(s: State)
    requires Inv(s) && MayTake(s)
    ensures forall u: nat :: !Waiting(s, u)
  {
    forall u: nat ensures !Waiting(s, u) {
      if u < |s.tasks| && s.tasks[u].pc.Queued? {
        assert u in s.waiters;
      }
    }
  }

  lemma BargeFair(s: State, job: Job)
    requires Fair(s) && MayTake(s) && !job.RealtimeLoop?
    ensures var t := |s.tasks|;
            var b := Quiet(t).(arrived := Some(0 in s.waiters));
            var s1 := Commit(Arrive(s, job), t, Enter(job, s.core, s.bluetooth.reachable, b));
            InOrder(s1) && forall u | Waiting(s1, u) :: Bounded(s1, u)
  {
    var t, s0 := |s.tasks|, Arrive(s, job);
    NobodyWaits(s);
    forall u: nat | Waiting(s0, u) && u != t ensures Waiting(s, u) {
    }
    assert LastStarter(s0.log) < t;
    EnterFair(s0, t, Quiet(t).(arrived := Some(0 in s.waiters)));
  }

  lemma EnqueueAhead(s: State, t: nat, u: nat)
    requires t !in s.waiters
    ensures var s1 := s.(waiters := s.waiters + [t]);
            LoopAhead(s1, u) <==> if u == t then 0 in s.waiters else LoopAhead(s, u)
  {
    var q := s.waiters + [t];
    if LoopAhead(s, u) {
      var i, j :| 0 <= i < j < |s.waiters| && s.waiters[i] == 0 && s.waiters[j] == u;
      assert q[i] == 0 && q[j] == u;
    }
    if u == t && 0 in s.waiters {
      var i :| 0 <= i < |s.waiters| && s.waiters[i] == 0;
      assert q[i] == 0 && q[|s.waiters|] == t;
    }
    if i, j :| 0 <= i < j < |q| && q[i] == 0 && q[j] == u {
      assert s.waiters[i] == 0;
      assert u != t ==> s.waiters[j] == u;
    }
  }

  lemma EnqueueBounded(s: State, job: Job, s1: State, u: nat)
    requires Fair(s) && Waiting(s1, u)
    requires s1 == Arrive(s, job).(waiters := s.waiters + [|s.tasks|],
                                   log := Then(s.log, Did(Quiet(|s.tasks|).(arrived := Some(0 in s.waiters)))))
    ensures Bounded(s1, u)
  {
    EnqueueAhead(s, |s.tasks|, u);
    assert LoopAhead(s1, u) <==> LoopAhead(s.(waiters := s1.waiters), u);
    if u != |s.tasks| {
      assert Waiting(s, u);
      assert Bounded(s, u);
    }
  }

  lemma EnqueueFair(s: State, job: Job)
    requires Fair(s) && !job.RealtimeLoop?
    ensures var t := |s.tasks|;
            var b := Quiet(t).(arrived := Some(0 in s.waiters));
            var s1 := Arrive(s, job).(waiters := s.waiters + [t], log := Then(s.log, Did(b)));
            InOrder(s1) && forall u | Waiting(s1, u) :: Bounded(s1, u)
  {
    var t := |s.tasks|;
    var b := Quiet(t).(arrived := Some(0 in s.waiters));
    var s1 := Arrive(s, job).(waiters := s.waiters + [t], log := Then(s.log, Did(b)));
    forall u | Waiting(s1, u)
      ensures Bounded(s1, u) && LastStarter(s1.log) < u
      ensures s1.holder.Some? && s1.holder.value > 0 ==> s1.holder.value < u
    {
      EnqueueBounded(s, job, s1, u);
      if u != t {
        assert Waiting(s, u);
      }
    }
  }

  lemma SpawnFair(s: State, job: Job, barge: bool)
    requires Fair(s) && Enabled(s, Spawn(job, barge))
    ensures Fair(SpawnNext(s, job, barge))
  {
    SpawnKeeps(s, job, barge);
    if job.BackgroundRead? && !s.bluetooth.reachable {
      var s1 := s.(tasks := s.tasks + [Task(job, Done(Finished), false)]);
      forall u | Waiting(s1, u) ensures Waiting(s, u) && Bounded(s1, u) {
        assert Waiting(s, u);
        assert LoopAhead(s1, u) <==> LoopAhead(s, u);
      }
    } else if barge {
      BargeFair(s, job);
    } else {
      EnqueueFair(s, job);
    }
  }

  function Without(q: seq<nat>, i: nat): seq<nat>
    requires i < |q|
  {
    q[..i] + q[i + 1..]
  }

  lemma WithoutAt(q: seq<nat>, i: nat, k: nat)
    requires i < |q| && k < |q| - 1
    ensures Without(q, i)[k] == q[if k < i then k else k + 1]
  {
  }

  lemma DequeueInOrder(s: State, i: nat)
    requires Fair(s) && i < |s.waiters|
    ensures InOrder(s.(waiters := Without(s.waiters, i)))
  {
    var q := Without(s.waiters, i);
    forall j, k | 0 <= j < k < |q| && q[j] > 0 && q[k] > 0 ensures q[j] < q[k] {
      WithoutAt(s.waiters, i, j);
      WithoutAt(s.waiters, i, k);
    }
    var s0 := s.(waiters := q);
    assert forall u | Waiting(s0, u) :: Waiting(s, u);
  }

  /** Removing a waiter other than the loop and task u leaves the loop where it was with respect to u. */
  lemma DequeueAhead(s: State, i: nat, u: nat)
    requires i < |s.waiters| && s.waiters[i] != 0 && s.waiters[i] != u
    ensures LoopAhead(s.(waiters := Without(s.waiters, i)), u) <==> LoopAhead(s, u)
  {
    var w, q := s.waiters, Without(s.waiters, i);
    if j, k :| 0 <= j < k < |q| && q[j] == 0 && q[k] == u {
      WithoutAt(w, i, j);
      WithoutAt(w, i, k);
      var j1, k1 := if j < i then j else j + 1, if k < i then k else k + 1;
      assert 0 <= j1 < k1 < |w| && w[j1] == 0 && w[k1] == u;
    }
    if j, k :| 0 <= j < k < |w| && w[j] == 0 && w[k] == u {
      var j1, k1 := if j < i then j else j - 1, if k < i then k else k - 1;
      WithoutAt(w, i, j1);
      WithoutAt(w, i, k1);
      assert 0 <= j1 < k1 < |q| && q[j1] == 0 && q[k1] == u;
    }
  }

  lemma DequeueBounds(s: State, i: nat)
    requires Fair(s) && i < |s.waiters| && s.waiters[i] > 0
    ensures var s0 := s.(waiters := Without(s.waiters, i));
            InOrder(s0) && forall u | Waiting(s0, u) && u != s.waiters[i] :: Bounded(s0, u)
  {
    var s0 := s.(waiters := Without(s.waiters, i));
    DequeueInOrder(s, i);
    forall u | Waiting(s0, u) && u != s.waiters[i] ensures Bounded(s0, u) {
      assert Waiting(s, u);
      assert Bounded(s, u);
      DequeueAhead(s, i, u);
    }
  }

  /** A step of a task outside the lock that changes no other task's standing. */
  lemma QuietFair(s: State, t: nat, pc: Pc, note: Note, left: bool)
    requires InOrder(s) && (forall u | Waiting(s, u) && u != t :: Bounded(s, u)) && t < |s.tasks|
    requires (pc.Queued? ==> t == 0) && (left ==> t > 0)
    ensures var s1 := Commit(s, t, Move(pc, s.core, note, Quiet(t).(left := left)));
            InOrder(s1) && forall u | Waiting(s1, u) :: Bounded(s1, u)
  {
    var s1 := Commit(s, t, Move(pc, s.core, note, Quiet(t).(left := left)));
    forall u | Waiting(s1, u)
      ensures Bounded(s1, u) && LastStarter(s1.log) < u
      ensures s1.holder.Some? && s1.holder.value > 0 ==> s1.holder.value < u
    {
      assert Waiting(s, u) && u != t;
      assert LoopAhead(s1, u) <==> LoopAhead(s, u);
    }
  }

  /** A cancelled loop leaves the queue: whoever it was ahead of will not be overtaken by it any more. */
  lemma LoopLeavesBounded(s: State, i: nat, u: nat)
    requires Fair(s) && Enabled(s, Leave(i)) && s.waiters[i] == 0 && Waiting(LeaveNext(s, i), u)
    ensures Bounded(LeaveNext(s, i), u) && Waiting(s, u)
  {
    var s1 := LeaveNext(s, i);
    assert Waiting(s, u);
    assert Bounded(s, u);
    RemovalLeavesRest(s.waiters, i);
    assert 0 !in s1.waiters;
    assert !LoopAhead(s1, u);
  }

  lemma LoopLeavesFair(s: State, i: nat)
    requires Fair(s) && Enabled(s, Leave(i)) && s.waiters[i] == 0
    ensures Fair(LeaveNext(s, i))
  {
    LeaveKeeps(s, i);
    DequeueInOrder(s, i);
    var s1 := LeaveNext(s, i);
    forall u | Waiting(s1, u)
      ensures Bounded(s1, u) && LastStarter(s1.log) < u
      ensures s1.holder.Some? && s1.holder.value > 0 ==> s1.holder.value < u
    {
      LoopLeavesBounded(s, i, u);
    }
  }

  lemma LeaveFair(s: State, i: nat)
    requires Fair(s) && Enabled(s, Leave(i))
    ensures Fair(LeaveNext(s, i))
  {
    var t := s.waiters[i];
    if t == 0 {
      LoopLeavesFair(s, i);
    } else {
      LeaveKeeps(s, i);
      DequeueBounds(s, i);
      var s0 := s.(waiters := Without(s.waiters, i));
      QuietFair(s0, t, Done(WasCancelled), if s.tasks[t].job.Announced() then Drop else Keep, true);
    }
  }

  /** The head of the queue arrived before every other job in it. */
  lemma HeadIsFirst(s: State, u: nat)
    requires Fair(s) && |s.waiters| > 0 && s.waiters[0] > 0 && Waiting(s, u) && u != s.waiters[0]
    ensures s.waiters[0] < u
  {
    assert u in s.waiters;
  }

  lemma GrantTaskFair(s: State)
    requires Fair(s) && Enabled(s, Grant) && s.waiters[0] > 0
    ensures Fair(GrantNext(s))
  {
    GrantKeeps(s);
    DequeueBounds(s, 0);
    var t := s.waiters[0];
    var s0 := s.(waiters := s.waiters[1..]);
    assert Without(s.waiters, 0) == s.waiters[1..];
    assert Waiting(s, t);
    forall u | Waiting(s0, u) && u != t ensures t < u && Bounded(s0, u) {
      assert Waiting(s, u);
      HeadIsFirst(s, u);
    }
    EnterFair(s0, t, Quiet(t));
  }

  /** The loop opens a window: every job still waiting had the loop ahead of it, once. */
  lemma WindowFair(s: State, s0: State)
    requires Fair(s) && s.holder == None && s0 == s.(waiters := s0.waiters)
    requires InOrder(s0)
    requires forall u | Waiting(s, u) :: LoopAhead(s, u) && !LoopAhead(s0, u)
    ensures InOrder(EnterLoop(s0)) && forall u | Waiting(EnterLoop(s0), u) :: Bounded(EnterLoop(s0), u)
  {
    var s1 := EnterLoop(s0);
    forall u | Waiting(s1, u) ensures Bounded(s1, u) && LastStarter(s1.log) < u {
      assert Waiting(s, u) && Waiting(s0, u);
      assert Bounded(s, u);
      assert LoopAhead(s1, u) <==> LoopAhead(s0, u);
    }
  }

  lemma LoopAtHead(s: State, u: nat)
    requires Inv(s) && |s.waiters| > 0 && s.waiters[0] == 0 && Waiting(s, u)
    ensures LoopAhead(s, u) && !LoopAhead(s.(waiters := s.waiters[1..]), u)
  {
    assert u in s.waiters;
    var j :| 0 <= j < |s.waiters| && s.waiters[j] == u;
    assert s.waiters[0] == 0 && 0 < j;
    forall i | 0 <= i < |s.waiters[1..]| ensures s.waiters[1..][i] != 0 {
      assert s.waiters[1..][i] == s.waiters[i + 1];
    }
  }

  lemma GrantLoopFair(s: State)
    requires Fair(s) && Enabled(s, Grant) && s.waiters[0] == 0
    ensures Fair(GrantNext(s))
  {
    GrantKeeps(s);
    DequeueInOrder(s, 0);
    var s0 := s.(waiters := s.waiters[1..]);
    assert Without(s.waiters, 0) == s.waiters[1..];
    forall u | Waiting(s, u) ensures LoopAhead(s, u) && !LoopAhead(s0, u) {
      LoopAtHead(s, u);
    }
    WindowFair(s, s0);
  }

  lemma LoopQueuesFair(s: State)
    requires Fair(s) && s.tasks[0].pc.Pausing?
    ensures var s1 := Commit(s.(waiters := s.waiters + [0]), 0, Move(Queued, s.core, Keep, Quiet(0)));
            InOrder(s1) && forall u | Waiting(s1, u) :: Bounded(s1, u)
  {
    var s0 := s.(waiters := s.waiters + [0]);
    forall u | Waiting(s0, u)
      ensures Bounded(s0, u) && LastStarter(s0.log) < u
      ensures s0.holder.Some? && s0.holder.value > 0 ==> s0.holder.value < u
    {
      assert Waiting(s, u);
      assert !LoopAhead(s, u) && !LoopAhead(s0, u);
    }
    QuietFair(s0, 0, Queued, Keep, false);
  }

  lemma LoopWakeFair(s: State, barge: bool)
    requires Fair(s) && Enabled(s, LoopWake(barge))
    ensures Fair(LoopTop(s, barge))
  {
    LoopWakeKeeps(s, barge);
    if s.stop {
      QuietFair(s, 0, Done(Finished), Keep, false);
    } else if !s.bluetooth.reachable {
      QuietFair(s, 0, Pausing, Keep, false);
    } else if barge {
      NobodyWaits(s);
      WindowFair(s, s);
    } else {
      LoopQueuesFair(s);
    }
  }

  /** The held listen moves on without reviving a doomed one. */
  lemma MoveListenFair(s: State, phase: Phase, b: Burst)
    requires Fair(s) && s.handle.Some? && !phase.Resting?
    requires b.arrived == None && b.started == None && !b.left
    requires Doomed(s.handle.value) ==> phase.Closing? || phase.Over?
    ensures Fair(MoveListen(s, phase, b))
  {
    MoveListenKeeps(s, phase, b);
    var s1 := MoveListen(s, phase, b);
    forall u | Waiting(s1, u)
      ensures Bounded(s1, u) && LastStarter(s1.log) < u
    {
      assert Waiting(s, u);
      assert Bounded(s, u);
      assert LoopAhead(s1, u) <==> LoopAhead(s, u);
    }
  }

  lemma ResumeFair(s: State)
    requires Fair(s) && Enabled(s, LoopResume)
    ensures Fair(ResumeNext(s))
  {
    ResumeKeeps(s);
    var s1 := ResumeNext(s);
    forall u | Waiting(s1, u) ensures Bounded(s1, u) && LastStarter(s1.log) < u {
      assert Waiting(s, u);
      assert Bounded(s, u);
      assert LoopAhead(s1, u) <==> LoopAhead(s, u);
    }
  }

  lemma LoopStepFair(s: State, l: Label)
    requires Fair(s) && Enabled(s, l) && IsLoopStep(l)
    ensures Fair(Next(s, l))
  {
    match l
    case ListenStep(i) =>
      MoveListenFair(s, ListenPhase(s.handle.value.phase, i),
                     Quiet(0).(connected := i.Dialed?, disconnected := i.HungUp?));
    case ListenCancel =>
      MoveListenFair(s, HangUpPhase(s.handle.value.phase), Quiet(0).(disconnected := s.handle.value.phase.Closing?));
    case LoopResume => ResumeFair(s);
    case LoopCancel =>
      LoopRestsKeeps(s, Done(WasCancelled));
      QuietFair(s, 0, Done(WasCancelled), Keep, false);
    case LoopWake(barge) => LoopWakeFair(s, barge);
  }

  /** Cancelling tasks and dooming the listen can only shrink what has to be shown. */
  lemma WeakerFair(s: State, s1: State)
    requires Fair(s) && Inv(s1)
    requires s1.log == s.log && s1.waiters == s.waiters && s1.holder == s.holder && |s1.tasks| == |s.tasks|
    requires forall u | Waiting(s1, u) :: Waiting(s, u)
    requires s1.handle.Some? ==> s.handle.Some? && (Doomed(s.handle.value) ==> Doomed(s1.handle.value))
    ensures Fair(s1)
  {
    forall u | Waiting(s1, u)
      ensures Bounded(s1, u) && LastStarter(s1.log) < u
      ensures s1.holder.Some? && s1.holder.value > 0 ==> s1.holder.value < u
    {
      assert Waiting(s, u);
      assert Bounded(s, u);
      assert LoopAhead(s1, u) <==> LoopAhead(s, u);
    }
  }

  lemma CancelTaskFair(s: State, t: nat)
    requires Fair(s) && t < |s.tasks|
    ensures Fair(CancelTask(s, t))
  {
    CancelTaskKeeps(s, t);
    WeakerFair(s, CancelTask(s, t));
  }

  lemma StopFair(s: State)
    requires Fair(s)
    ensures Fair(StopNext(s))
  {
    var s1 := s.(stop := true, handle := Preempt(s.handle), started := false);
    WeakerFair(s, s1);
    CancelTaskFair(s1, 0);
  }

  lemma StartFair(s: State)
    requires Fair(s) && Enabled(s, StartLoop)
    ensures Fair(Next(s, StartLoop))
  {
    StartKeeps(s);
    WeakerFair(s, Next(s, StartLoop));
  }

  /** An entry that is no task's step. */
  lemma EnvironmentFair(s: State, s1: State, e: Entry)
    requires Fair(s) && Inv(s1) && !e.Did?
    requires s1.log == Then(s.log, e) && s1.waiters == s.waiters && s1.holder == s.holder
    requires s1.tasks == s.tasks && s1.handle == s.handle
    ensures Fair(s1)
  {
    forall u | Waiting(s1, u)
      ensures Bounded(s1, u) && LastStarter(s1.log) < u
      ensures s1.holder.Some? && s1.holder.value > 0 ==> s1.holder.value < u
    {
      assert Waiting(s, u);
      assert Bounded(s, u);
      assert LoopAhead(s1, u) <==> LoopAhead(s, u);
    }
  }

  /** Every step keeps the order of service and the bound on overtaking. */
  lemma KeepsFair(s: State, l: Label)
    requires Fair(s) && Enabled(s, l)
    ensures Fair(Next(s, l))
  {
    if IsHolderStep(l) {
      HolderStepFair(s, l);
    } else if IsLoopStep(l) {
      LoopStepFair(s, l);
    } else {
      match l
      case Spawn(job, barge) => SpawnFair(s, job, barge);
      case Grant => if s.waiters[0] == 0 { GrantLoopFair(s); } else { GrantTaskFair(s); }
      case Leave(i) => LeaveFair(s, i);
      case StartLoop => StartFair(s);
      case Stop => StopFair(s);
      case AskCancel(t) => CancelTaskFair(s, t);
      case See(b) => EnvironmentFair(s, Next(s, l), Radio(b));
      case Hear(e) => EnvironmentFair(s, HearNext(s, e), HearNext(s, e).log.last);
    }
  }
}
