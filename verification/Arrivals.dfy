/** Which steps record an arrival in the log, and which record that a waiter left the queue. */
module Arrivals {
  import opened Types
  import opened Trace
  import opened Protocol
  import opened Shape

  /** An entry that records no arrival, and a departure from the queue only for the waiter a step removes. */
  predicate NoArrivalIn(s: State, l: Label, e: Entry) {
    e.Did? ==>
      && e.burst.arrived == None
      && (e.burst.left ==> l.Leave? && l.index < |s.waiters| && e.burst.tid == s.waiters[l.index])
  }

  /** A step during which nobody arrives. */
  ghost predicate NoArrival(s: State, l: Label)
    requires Enabled(s, l)
  {
    var s1 := Next(s, l);
    && |s1.tasks| == |s.tasks| && (forall t | 0 <= t < |s.tasks| :: s1.tasks[t].job == s.tasks[t].job)
    && (s1.log == s.log || (s1.log.Then? && s1.log.past == s.log && NoArrivalIn(s, l, s1.log.last)))
  }

  lemma HolderArrivesNot(s: State, l: Label)
    requires Inv(s) && IsHolderStep(l) && Enabled(s, l)
    ensures NoArrival(s, l)
  {
    MovesOk(s, l);
    assert Next(s, l) == Commit(s, l.tid, MoveOf(s, l));
  }

  lemma LoopWakeArrivesNot(s: State, barge: bool)
    requires Inv(s) && Enabled(s, LoopWake(barge))
    ensures NoArrival(s, LoopWake(barge))
  {
  }

  lemma LoopArrivesNot(s: State, l: Label)
    requires Inv(s) && IsLoopStep(l) && Enabled(s, l)
    ensures NoArrival(s, l)
  {
    if l.LoopWake? {
      LoopWakeArrivesNot(s, l.barge);
    }
  }

  lemma GrantArrivesNot(s: State)
    requires Inv(s) && Enabled(s, Grant)
    ensures NoArrival(s, Grant)
  {
    if s.waiters[0] > 0 {
      var t := s.waiters[0];
      EnterOk(t, s.tasks[t].job, s.core, s.bluetooth.reachable, Quiet(t), s.cfg);
    }
  }

  lemma LeaveArrivesNot(s: State, i: nat)
    requires Inv(s) && Enabled(s, Leave(i))
    ensures NoArrival(s, Leave(i))
  {
    var t, s1 := s.waiters[i], LeaveNext(s, i);
    assert s1.log == Then(s.log, Did(Quiet(t).(left := true)));
    assert forall u | 0 <= u < |s.tasks| :: s1.tasks[u].job == s.tasks[u].job;
  }

  lemma WorldArrivesNot(s: State, l: Label)
    requires Inv(s) && Enabled(s, l) && (l.StartLoop? || l.Stop? || l.AskCancel? || l.See? || l.Hear?)
    ensures NoArrival(s, l)
  {
    if l.Stop? {
      assert StopNext(s).log == s.log;
    } else if l.AskCancel? {
      assert CancelTask(s, l.tid).log == s.log;
    }
  }

  /** Only a call of a job records an arrival. */
  lemma NobodyArrives(s: State, l: Label)
    requires Inv(s) && Enabled(s, l) && !l.Spawn?
    ensures NoArrival(s, l)
  {
    if IsHolderStep(l) {
      HolderArrivesNot(s, l);
    } else if IsLoopStep(l) {
      LoopArrivesNot(s, l);
    } else if l.Grant? {
      GrantArrivesNot(s);
    } else if l.Leave? {
      LeaveArrivesNot(s, l.index);
    } else {
      WorldArrivesNot(s, l);
    }
  }

  lemma SpawnRecords(s: State, job: Job, barge: bool)
    requires Enabled(s, Spawn(job, barge)) && !(job.BackgroundRead? && !s.bluetooth.reachable)
    ensures var s1 := SpawnNext(s, job, barge);
            && |s1.tasks| == |s.tasks| + 1 && s1.tasks[|s.tasks|].job == job
            && (forall t | 0 <= t < |s.tasks| :: s1.tasks[t].job == s.tasks[t].job)
            && s1.log.Then? && s1.log.past == s.log && s1.log.last.Did?
            && s1.log.last.burst.arrived.Some? && s1.log.last.burst.tid == |s.tasks|
  {
  }
}
