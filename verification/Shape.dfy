/** The structural invariant: who holds the lock, who waits for it, and which program points are possible. */
module Shape {
  import opened Types
  import opened Cache
  import opened Trace
  import opened Protocol

  predicate CallOk(job: Job, c: Call, rung: nat, cfg: Config) {
    if job.BackgroundRead? then c == ReadCall(job.name) && rung == 0
    else
      || (c == FrontRead && job.NeedsPresence() && rung <= cfg.attempts)
      || (c == Action(job) && rung == 0)
      || (c.ReadCall? && job.PostRead() == Some(c.name) && rung == 0)
  }

  predicate SessionOk(ses: Session) {
    && !ses.phase.Fresh? && !ses.phase.Over?
    && (ses.phase.Resting? ==> ses.call.ReadCall? && ses.tries + 1 < BLE_READ_ATTEMPTS)
    && ses.tries < BLE_READ_ATTEMPTS
    && (!ses.call.ReadCall? ==> ses.tries == 0)
    && (ses.phase.Closing? ==> ses.phase.reply.Cancelled? || Allowed(ses.call, ses.phase.reply))
  }

  predicate PcOk(job: Job, pc: Pc, cfg: Config) {
    match pc
    case Idle => job.RealtimeLoop?
    case Listening => job.RealtimeLoop?
    case Pausing => job.RealtimeLoop?
    case Queued => true
    case Done(_) => true
    case InCall(ses, rung) => !job.RealtimeLoop? && SessionOk(ses) && CallOk(job, ses.call, rung, cfg)
    case Pressing => job.NeedsPresence()
    case Napping(rung) => job.NeedsPresence() && 1 <= rung <= cfg.attempts
  }

  ghost predicate TasksOk(s: State) {
    forall t | 0 <= t < |s.tasks| ::
      && (s.tasks[t].job.RealtimeLoop? <==> t == 0)
      && PcOk(s.tasks[t].job, s.tasks[t].pc, s.cfg)
      && (Holds(s.tasks[t].pc) <==> s.holder == Some(t))
  }

  ghost predicate QueueOk(s: State) {
    && (forall i | 0 <= i < |s.waiters| :: s.waiters[i] < |s.tasks| && s.tasks[s.waiters[i]].pc.Queued?)
    && (forall i, j | 0 <= i < j < |s.waiters| :: s.waiters[i] != s.waiters[j])
    && (forall t | 0 <= t < |s.tasks| && s.tasks[t].pc.Queued? :: t in s.waiters)
  }

  /** The handle exists exactly while the loop awaits its listen task. */
  predicate HandleOk(s: State)
    requires |s.tasks| > 0
  {
    && (s.handle.Some? <==> s.tasks[0].pc.Listening?)
    && (s.handle.Some? ==> !s.handle.value.phase.Resting?)
  }

  ghost predicate Inv(s: State) {
    && |s.tasks| > 0 && s.cfg.attempts >= 1
    && (s.holder.Some? ==> s.holder.value < |s.tasks|)
    && TasksOk(s) && QueueOk(s)
    && HandleOk(s)
  }

  // ---- moves of a task that holds the lock ----

  predicate IsHolderStep(l: Label) {
    l.Step? || l.Abandon? || l.WakeUp?
  }

  /** Steps of the real-time loop and of its listen task, apart from queueing for the lock. */
  predicate IsLoopStep(l: Label) {
    l.ListenStep? || l.ListenCancel? || l.LoopResume? || l.LoopCancel? || l.LoopWake?
  }

  ghost function MoveOf(s: State, l: Label): Move
    requires IsHolderStep(l) && Enabled(s, l)
  {
    var task := s.tasks[l.tid];
    match l
    case Step(t, i) => Progress(task.job, task.pc.session, task.pc.rung, i, s.core, s.cfg, Quiet(t))
    case Abandon(t) => Abort(task.job, task.pc, s.core, s.cfg, Quiet(t))
    case WakeUp(t) => OnWake(task.pc, s.core, Quiet(t))
  }

  /** The holder's step so far: it neither queued nor took or released the lock. */
  predicate AtWork(b: Burst, t: nat) {
    b.tid == t && b.arrived == None && !b.granted && !b.released && !b.left
  }

  /** A move of the holder ends at a possible program point and keeps the lock unless it releases it. */
  predicate HolderMoveOk(t: nat, job: Job, m: Move, cfg: Config) {
    && m.burst.tid == t && m.burst.arrived == None && !m.burst.granted && !m.burst.left
    && PcOk(job, m.pc, cfg)
    && (m.pc.Done? || Holds(m.pc)) && !m.pc.Listening?
    && (Holds(m.pc) <==> !m.burst.released)
  }

  lemma ReadReplyOk(t: nat, job: Job, r: Reply, core: Core, cfg: Config, b: Burst)
    requires AtWork(b, t)
    ensures HolderMoveOk(t, job, FinishRead(core, r, b), cfg)
  {
  }

  lemma LadderOk(t: nat, job: Job, rung: nat, r: Reply, core: Core, cfg: Config, b: Burst)
    requires job.NeedsPresence() && rung <= cfg.attempts && cfg.attempts >= 1
    requires AtWork(b, t)
    ensures HolderMoveOk(t, job, ClimbLadder(job, rung, r, core, cfg, b), cfg)
  {
  }

  lemma AfterActionOk(t: nat, job: Job, r: Reply, core: Core, cfg: Config, b: Burst)
    requires job.IsOperation()
    requires AtWork(b, t)
    ensures HolderMoveOk(t, job, AfterAction(job, r, core, b), cfg)
  {
  }

  lemma OnReplyOk(t: nat, job: Job, c: Call, rung: nat, r: Reply, core: Core, cfg: Config, b: Burst)
    requires !job.RealtimeLoop? && CallOk(job, c, rung, cfg) && cfg.attempts >= 1
    requires AtWork(b, t)
    ensures HolderMoveOk(t, job, OnReply(job, c, rung, r, core, cfg, b), cfg)
  {
    var b1 := b.(ended := Some(Ending(c, r)));
    if job.BackgroundRead? {
      ReadReplyOk(t, job, r, core, cfg, b1);
    } else if !r.Failed? && !r.Cancelled? {
      if c == FrontRead {
        LadderOk(t, job, rung, r, core, cfg, b1);
      } else if c == Action(job) {
        AfterActionOk(t, job, r, core, cfg, b1);
      }
    }
  }

  lemma EndAttemptOk(t: nat, job: Job, ses: Session, rung: nat, r: Reply, core: Core, cfg: Config, b: Burst)
    requires !job.RealtimeLoop? && CallOk(job, ses.call, rung, cfg) && cfg.attempts >= 1
    requires SessionOk(ses)
    requires AtWork(b, t)
    ensures HolderMoveOk(t, job, EndAttempt(job, ses, rung, r, core, cfg, b), cfg)
  {
    OnReplyOk(t, job, ses.call, rung, Delivered(r), core, cfg, b.(table := TableIn(r)));
  }

  lemma ProgressOk(t: nat, job: Job, ses: Session, rung: nat, i: Input, core: Core, cfg: Config)
    requires PcOk(job, InCall(ses, rung), cfg) && cfg.attempts >= 1 && InputOk(ses, i)
    ensures HolderMoveOk(t, job, Progress(job, ses, rung, i, core, cfg, Quiet(t)), cfg)
  {
    if i.Broke? {
      EndAttemptOk(t, job, ses, rung, i.reply, core, cfg, Quiet(t));
    } else if i.HungUp? {
      EndAttemptOk(t, job, ses, rung, ses.phase.reply, core, cfg, Quiet(t).(disconnected := true));
    }
  }

  lemma AbortOk(t: nat, job: Job, pc: Pc, core: Core, cfg: Config)
    requires PcOk(job, pc, cfg) && cfg.attempts >= 1 && Holds(pc) && !pc.Listening?
    ensures HolderMoveOk(t, job, Abort(job, pc, core, cfg, Quiet(t)), cfg)
  {
    if pc.InCall? {
      var ses := pc.session;
      if ses.phase.Closing? {
        OnReplyOk(t, job, ses.call, pc.rung, Cancelled, core, cfg, Quiet(t).(disconnected := true));
        EndAttemptOk(t, job, ses, pc.rung, ses.phase.reply, core, cfg, Quiet(t).(disconnected := true));
      } else {
        OnReplyOk(t, job, ses.call, pc.rung, Cancelled, core, cfg, Quiet(t));
      }
    }
  }

  lemma MovesOk(s: State, l: Label)
    requires Inv(s) && IsHolderStep(l) && Enabled(s, l)
    ensures HolderMoveOk(l.tid, s.tasks[l.tid].job, MoveOf(s, l), s.cfg)
    ensures s.holder == Some(l.tid)
  {
    var task := s.tasks[l.tid];
    match l
    case Step(t, i) => ProgressOk(t, task.job, task.pc.session, task.pc.rung, i, s.core, s.cfg);
    case Abandon(t) => AbortOk(t, task.job, task.pc, s.core, s.cfg);
    case WakeUp(t) =>
  }

  lemma CommitKeeps(s: State, t: nat, m: Move)
    requires Inv(s) && 0 < t < |s.tasks| && s.holder == Some(t)
    requires HolderMoveOk(t, s.tasks[t].job, m, s.cfg)
    ensures Inv(Commit(s, t, m))
  {
  }

  lemma HolderStepKeeps(s: State, l: Label)
    requires Inv(s) && IsHolderStep(l) && Enabled(s, l)
    ensures Inv(Next(s, l))
  {
    MovesOk(s, l);
    CommitKeeps(s, l.tid, MoveOf(s, l));
  }

  // ---- steps that touch the queue ----

  lemma EnterOk(t: nat, job: Job, core: Core, reachable: bool, b: Burst, cfg: Config)
    requires !job.RealtimeLoop? && b.tid == t && !b.released && !b.granted
    ensures var m := Enter(job, core, reachable, b);
            m.burst.tid == t && m.burst.granted && PcOk(job, m.pc, cfg)
            && (m.pc.Done? || m.pc.InCall?) && (Holds(m.pc) <==> !m.burst.released)
            && m.burst.arrived == b.arrived && m.burst.left == b.left
  {
  }

  lemma EnterKeeps(s: State, t: nat, m: Move)
    requires |s.tasks| > 0 && s.cfg.attempts >= 1 && 0 < t < |s.tasks|
    requires TasksOk(s) && QueueOk(s.(tasks := s.tasks[t := s.tasks[t].(pc := m.pc, cancel := false)]))
    requires s.holder == None
    requires HandleOk(s)
    requires PcOk(s.tasks[t].job, m.pc, s.cfg) && (m.pc.Done? || m.pc.InCall?)
    requires m.burst.granted && (Holds(m.pc) <==> !m.burst.released)
    ensures Inv(Commit(s, t, m))
  {
  }

  lemma EnqueueKeeps(s: State, job: Job)
    requires Inv(s) && !job.RealtimeLoop?
    ensures Inv(Arrive(s, job).(waiters := s.waiters + [|s.tasks|]))
  {
    var q := s.waiters + [|s.tasks|];
    forall t | 0 <= t < |s.tasks| && s.tasks[t].pc.Queued? ensures t in q {
      assert t in s.waiters;
    }
    assert q[|s.waiters|] == |s.tasks|;
  }

  lemma BargeKeeps(s: State, job: Job, b: Burst)
    requires Inv(s) && s.holder == None && !job.RealtimeLoop?
    requires b.tid == |s.tasks| && !b.released && !b.granted
    ensures Inv(Commit(Arrive(s, job), |s.tasks|, Enter(job, s.core, s.bluetooth.reachable, b)))
  {
    EnterOk(|s.tasks|, job, s.core, s.bluetooth.reachable, b, s.cfg);
    EnterKeeps(Arrive(s, job), |s.tasks|, Enter(job, s.core, s.bluetooth.reachable, b));
  }

  lemma SpawnKeeps(s: State, job: Job, barge: bool)
    requires Inv(s) && Enabled(s, Spawn(job, barge))
    ensures Inv(SpawnNext(s, job, barge))
  {
    if !(job.BackgroundRead? && !s.bluetooth.reachable) {
      if barge {
        BargeKeeps(s, job, Quiet(|s.tasks|).(arrived := Some(0 in s.waiters)));
      } else {
        EnqueueKeeps(s, job);
      }
    }
  }

  lemma RemovalLeavesRest(w: seq<nat>, i: nat)
    requires i < |w| && forall j, k | 0 <= j < k < |w| :: w[j] != w[k]
    ensures var q := w[..i] + w[i + 1..];
            && (forall j, k | 0 <= j < k < |q| :: q[j] != q[k])
            && (forall j | 0 <= j < |q| :: q[j] in w && q[j] != w[i])
            && (forall t | t in w && t != w[i] :: t in q)
  {
    var q := w[..i] + w[i + 1..];
    forall t | t in w && t != w[i] ensures t in q {
      var j :| 0 <= j < |w| && w[j] == t;
      assert j < i ==> q[j] == t;
      assert j > i ==> q[j - 1] == t;
    }
  }

  lemma DequeueKeeps(s: State, i: nat, pc: Pc)
    requires QueueOk(s) && i < |s.waiters| && !pc.Queued?
    ensures QueueOk(s.(waiters := s.waiters[..i] + s.waiters[i + 1..],
                       tasks := s.tasks[s.waiters[i] := s.tasks[s.waiters[i]].(pc := pc, cancel := false)]))
  {
    RemovalLeavesRest(s.waiters, i);
    var q := s.waiters[..i] + s.waiters[i + 1..];
    forall k | 0 <= k < |q| ensures q[k] < |s.tasks| && s.tasks[q[k]].pc.Queued? {
      assert q[k] in s.waiters;
    }
  }

  lemma LeavesTasksOk(s: State, i: nat, pc: Pc)
    requires Inv(s) && i < |s.waiters|
    requires pc.Done? || (pc.Pausing? && s.waiters[i] == 0)
    ensures TasksOk(s.(tasks := s.tasks[s.waiters[i] := s.tasks[s.waiters[i]].(pc := pc, cancel := false)]))
    ensures HandleOk(s.(tasks := s.tasks[s.waiters[i] := s.tasks[s.waiters[i]].(pc := pc, cancel := false)]))
  {
  }

  lemma LeavesKeeps(s: State, i: nat, pc: Pc, note: Note)
    requires Inv(s) && i < |s.waiters|
    requires pc.Done? || (pc.Pausing? && s.waiters[i] == 0)
    ensures Inv(Commit(s.(waiters := s.waiters[..i] + s.waiters[i + 1..]), s.waiters[i],
                       Move(pc, s.core, note, Quiet(s.waiters[i]).(left := true))))
  {
    LeavesTasksOk(s, i, pc);
    DequeueKeeps(s, i, pc);
  }

  lemma LeaveKeeps(s: State, i: nat)
    requires Inv(s) && Enabled(s, Leave(i))
    ensures Inv(LeaveNext(s, i))
  {
    if s.waiters[i] == 0 {
      LeavesKeeps(s, i, if s.stop then Done(WasCancelled) else Pausing, Keep);
    } else {
      LeavesKeeps(s, i, Done(WasCancelled), if s.tasks[s.waiters[i]].job.Announced() then Drop else Keep);
    }
  }

  lemma GrantOneShotKeeps(s: State)
    requires Inv(s) && Enabled(s, Grant) && s.waiters[0] > 0
    ensures Inv(GrantNext(s))
  {
    var t := s.waiters[0];
    var m := Enter(s.tasks[t].job, s.core, s.bluetooth.reachable, Quiet(t));
    assert s.waiters[..0] + s.waiters[1..] == s.waiters[1..];
    EnterOk(t, s.tasks[t].job, s.core, s.bluetooth.reachable, Quiet(t), s.cfg);
    DequeueKeeps(s, 0, m.pc);
    EnterKeeps(s.(waiters := s.waiters[1..]), t, m);
  }

  lemma GrantKeeps(s: State)
    requires Inv(s) && Enabled(s, Grant)
    ensures Inv(GrantNext(s))
  {
    var t := s.waiters[0];
    var s1 := s.(waiters := s.waiters[1..]);
    assert s.waiters[..0] + s.waiters[1..] == s.waiters[1..];
    if t == 0 {
      DequeueKeeps(s, 0, Listening);
    } else {
      GrantOneShotKeeps(s);
    }
  }

  lemma EnterLoopKeeps(s: State)
    requires Inv(s) && s.holder == None && !s.tasks[0].pc.Queued?
    ensures Inv(EnterLoop(s))
  {
  }

  lemma LoopRestsKeeps(s: State, pc: Pc)
    requires Inv(s) && s.tasks[0].pc.Pausing? && (pc.Pausing? || pc.Done?)
    ensures Inv(Commit(s, 0, Move(pc, s.core, Keep, Quiet(0))))
  {
  }

  lemma LoopQueuesKeeps(s: State)
    requires Inv(s) && s.tasks[0].pc.Pausing?
    ensures Inv(Commit(s.(waiters := s.waiters + [0]), 0, Move(Queued, s.core, Keep, Quiet(0))))
  {
    var q := s.waiters + [0];
    forall t | 0 <= t < |s.tasks| && s.tasks[t].pc.Queued? ensures t in q {
      assert t in s.waiters;
    }
    assert q[|s.waiters|] == 0;
  }

  lemma LoopWakeKeeps(s: State, barge: bool)
    requires Inv(s) && Enabled(s, LoopWake(barge))
    ensures Inv(LoopTop(s, barge))
  {
    if s.stop || !s.bluetooth.reachable {
      LoopRestsKeeps(s, LoopTop(s, barge).tasks[0].pc);
    } else if barge {
      EnterLoopKeeps(s);
    } else {
      LoopQueuesKeeps(s);
    }
  }

  lemma ResumeKeeps(s: State)
    requires Inv(s) && Enabled(s, LoopResume)
    ensures Inv(ResumeNext(s))
  {
  }

  lemma MoveListenKeeps(s: State, phase: Phase, b: Burst)
    requires Inv(s) && s.handle.Some? && !phase.Resting?
    ensures Inv(MoveListen(s, phase, b))
  {
  }

  lemma PreemptKeeps(s: State)
    requires Inv(s)
    ensures Inv(s.(handle := Preempt(s.handle)))
  {
  }

  lemma MarkKeeps(s: State, t: nat)
    requires Inv(s) && t < |s.tasks|
    ensures Inv(s.(tasks := s.tasks[t := s.tasks[t].(cancel := true)]))
  {
  }

  lemma CancelTaskKeeps(s: State, t: nat)
    requires Inv(s) && t < |s.tasks|
    ensures Inv(CancelTask(s, t))
  {
    if s.tasks[t].pc.Listening? && s.handle.Some? && !s.handle.value.phase.Over? {
      PreemptKeeps(s);
    } else {
      MarkKeeps(s, t);
    }
  }

  lemma StopKeeps(s: State)
    requires Inv(s)
    ensures Inv(StopNext(s))
  {
    CancelTaskKeeps(s.(stop := true, handle := Preempt(s.handle), started := false), 0);
  }

  lemma StartKeeps(s: State)
    requires Inv(s) && Enabled(s, StartLoop)
    ensures Inv(Next(s, StartLoop))
  {
  }

  lemma LoopStepKeeps(s: State, l: Label)
    requires Inv(s) && Enabled(s, l) && IsLoopStep(l)
    ensures Inv(Next(s, l))
  {
    match l
    case ListenStep(i) =>
      MoveListenKeeps(s, ListenPhase(s.handle.value.phase, i),
                      Quiet(0).(connected := i.Dialed?, disconnected := i.HungUp?));
    case ListenCancel =>
      MoveListenKeeps(s, HangUpPhase(s.handle.value.phase), Quiet(0).(disconnected := s.handle.value.phase.Closing?));
    case LoopResume => ResumeKeeps(s);
    case LoopCancel => LoopRestsKeeps(s, Done(WasCancelled));
    case LoopWake(barge) => LoopWakeKeeps(s, barge);
  }

  /** Every step keeps the structural invariant. */
  lemma Keeps(s: State, l: Label)
    requires Inv(s) && Enabled(s, l)
    ensures Inv(Next(s, l))
  {
    if IsHolderStep(l) {
      HolderStepKeeps(s, l);
    } else if IsLoopStep(l) {
      LoopStepKeeps(s, l);
    } else {
      match l
      case Spawn(job, barge) => SpawnKeeps(s, job, barge);
      case Grant => GrantKeeps(s);
      case Leave(i) => LeaveKeeps(s, i);
      case StartLoop => StartKeeps(s);
      case Stop => StopKeeps(s);
      case AskCancel(t) => CancelTaskKeeps(s, t);
      case See(_) =>
      case Hear(_) =>
    }
  }
}
