/** Settings writes and the radio: which writes that ended well reached the lock. */
module Writes {
  import opened Types
  import opened Cache
  import opened Trace
  import opened Protocol
  import opened Shape
  import opened Discipline
  import opened Facts
  import opened Credentials
  import opened Toggles
  import opened Theorems

  // ---- what the log tells of a task's write ----

  /** Whether task t has connected since it last began a client call. */
  function Connected(log: Log, t: nat): bool {
    match log
    case Empty => false
    case Then(past, Did(b)) =>
      if b.tid != t then Connected(past, t) else b.started.None? && (b.connected || Connected(past, t))
    case Then(past, _) => Connected(past, t)
  }

  /** How a write call ended: its reply, whether it had connected, and whether its last step hung up. */
  datatype WriteEnd = WriteEnd(reply: Reply, reached: bool, hungUp: bool)

  function LastWrite(log: Log, t: nat): Option<WriteEnd> {
    match log
    case Empty => None
    case Then(past, Did(b)) =>
      if b.tid == t && b.ended.Some? && b.ended.value.call.SetCall?
      then Some(WriteEnd(b.ended.value.reply, Connected(past, t), b.disconnected))
      else LastWrite(past, t)
    case Then(past, _) => LastWrite(past, t)
  }

  // ---- the invariant ----

  /** The task is inside its write call. */
  predicate Writing(pc: Pc) {
    pc.InCall? && pc.session.call.SetCall?
  }

  /** The task's write call is behind it and raised no error. */
  predicate Wrote(pc: Pc) {
    pc == Done(Finished) || (pc.InCall? && pc.session.call.ReadCall?)
  }

  /** The write ended well; it reached the lock exactly if its last step hung up, as it must have unless it
      is one of the writes that take a missing connection for success. */
  predicate EndedWell(op: WriteOp, end: Option<WriteEnd>) {
    && end.Some? && end.value.reply == Nothing
    && (end.value.reached <==> end.value.hungUp)
    && (!op.NeedsPresence() ==> end.value.reached)
  }

  predicate WriteOk(task: Task, connected: bool, end: Option<WriteEnd>) {
    task.job.Write? ==>
      && (Writing(task.pc) ==> (connected <==> IsLinked(task.pc.session.phase)))
      && (Wrote(task.pc) ==> EndedWell(task.job.op, end))
  }

  ghost predicate WritesOk(s: State) {
    forall t | 0 < t < |s.tasks| :: WriteOk(s.tasks[t], Connected(s.log, t), LastWrite(s.log, t))
  }

  // ---- steps of the task that holds the lock ----

  /** What a step of a write task does with its call. */
  predicate WriteMove(op: WriteOp, pc: Pc, m: Move) {
    && (Writing(m.pc) ==>
          if m.burst.started.Some? then !IsLinked(m.pc.session.phase)
          else Writing(pc) && (IsLinked(m.pc.session.phase) <==> m.burst.connected || IsLinked(pc.session.phase)))
    && (m.burst.ended.Some? && m.burst.ended.value.call.SetCall? ==>
          && Writing(pc) && (m.burst.disconnected <==> IsLinked(pc.session.phase))
          && (Wrote(m.pc) ==>
                m.burst.ended.value.reply == Nothing && (!op.NeedsPresence() ==> IsLinked(pc.session.phase))))
    && (Wrote(m.pc) && !(m.burst.ended.Some? && m.burst.ended.value.call.SetCall?) ==> Wrote(pc))
  }

  lemma MoveKeepsWrite(task: Task, m: Move, log: Log, t: nat)
    requires task.job.Write? && m.burst.tid == t && WriteMove(task.job.op, task.pc, m)
    requires WriteOk(task, Connected(log, t), LastWrite(log, t))
    ensures var log1 := Then(log, Did(m.burst));
            WriteOk(task.(pc := m.pc, cancel := false), Connected(log1, t), LastWrite(log1, t))
  {
  }

  lemma FrontReplyWrites(op: WriteOp, ses: Session, rung: nat, r: Reply, core: Core, cfg: Config, b: Burst)
    requires ses.call == FrontRead && b.started == None
    ensures WriteMove(op, InCall(ses, rung), OnReply(Write(op), ses.call, rung, r, core, cfg, b))
  {
    ReplyKeepsTable(Write(op), ses.call, rung, r, core, cfg, b);
  }

  lemma ReadReplyWrites(op: WriteOp, ses: Session, r: Reply, core: Core, cfg: Config, b: Burst)
    requires ses.call.ReadCall? && b.started == None
    ensures WriteMove(op, InCall(ses, 0), OnReply(Write(op), ses.call, 0, r, core, cfg, b))
  {
    ReplyKeepsTable(Write(op), ses.call, 0, r, core, cfg, b);
  }

  lemma SetReplyWrites(op: WriteOp, ses: Session, r: Reply, core: Core, cfg: Config, b: Burst)
    requires ses.call == SetCall(op) && ReplyOk(ses.call, r) && b.started == None
    requires b.disconnected <==> IsLinked(ses.phase)
    requires r.Nothing? && !op.NeedsPresence() ==> IsLinked(ses.phase)
    ensures WriteMove(op, InCall(ses, 0), OnReply(Write(op), ses.call, 0, r, core, cfg, b))
  {
    ReplyKeepsTable(Write(op), ses.call, 0, r, core, cfg, b);
  }

  /** An attempt ends: broken off while dialing, or hung up. */
  lemma AttemptWrites(op: WriteOp, ses: Session, rung: nat, r: Reply, core: Core, cfg: Config, b: Burst)
    requires CallOk(Write(op), ses.call, rung, cfg) && ReplyOk(ses.call, r)
    requires b.started == None && b.ended == None && (b.disconnected <==> IsLinked(ses.phase))
    requires r.Nothing? && ses.call == SetCall(op) && !op.NeedsPresence() ==> IsLinked(ses.phase)
    ensures WriteMove(op, InCall(ses, rung), EndAttempt(Write(op), ses, rung, r, core, cfg, b))
  {
    var b1 := b.(table := TableIn(r));
    if ses.call == FrontRead {
      FrontReplyWrites(op, ses, rung, Delivered(r), core, cfg, b1);
    } else if ses.call.ReadCall? {
      ReadReplyWrites(op, ses, Delivered(r), core, cfg, b1);
    } else {
      SetReplyWrites(op, ses, Delivered(r), core, cfg, b1);
    }
  }

  lemma CancelWrites(op: WriteOp, ses: Session, rung: nat, core: Core, cfg: Config, b: Burst)
    requires CallOk(Write(op), ses.call, rung, cfg) && b.started == None
    requires b.disconnected <==> IsLinked(ses.phase)
    ensures WriteMove(op, InCall(ses, rung), OnReply(Write(op), ses.call, rung, Cancelled, core, cfg, b))
  {
    if ses.call == FrontRead {
      FrontReplyWrites(op, ses, rung, Cancelled, core, cfg, b);
    } else if ses.call.ReadCall? {
      ReadReplyWrites(op, ses, Cancelled, core, cfg, b);
    } else {
      SetReplyWrites(op, ses, Cancelled, core, cfg, b);
    }
  }

  lemma ProgressWrites(t: nat, op: WriteOp, ses: Session, rung: nat, i: Input, core: Core, cfg: Config)
    requires PcOk(Write(op), InCall(ses, rung), cfg) && InputOk(ses, i)
    ensures WriteMove(op, InCall(ses, rung), Progress(Write(op), ses, rung, i, core, cfg, Quiet(t)))
  {
    if i.Broke? {
      AttemptWrites(op, ses, rung, i.reply, core, cfg, Quiet(t));
    } else if i.HungUp? {
      AttemptWrites(op, ses, rung, ses.phase.reply, core, cfg, Quiet(t).(disconnected := true));
    }
  }

  lemma AbortWrites(t: nat, op: WriteOp, pc: Pc, core: Core, cfg: Config)
    requires PcOk(Write(op), pc, cfg) && Holds(pc) && !pc.Listening?
    ensures WriteMove(op, pc, Abort(Write(op), pc, core, cfg, Quiet(t)))
  {
    if pc.InCall? {
      var ses := pc.session;
      if ses.phase.Closing? {
        AttemptWrites(op, ses, pc.rung, ses.phase.reply, core, cfg, Quiet(t).(disconnected := true));
        CancelWrites(op, ses, pc.rung, core, cfg, Quiet(t).(disconnected := true));
      } else if !ses.phase.Live? {
        CancelWrites(op, ses, pc.rung, core, cfg, Quiet(t));
      }
    }
  }

  lemma HolderWrites(s: State, l: Label)
    requires Inv(s) && IsHolderStep(l) && Enabled(s, l) && s.tasks[l.tid].job.Write?
    ensures WriteMove(s.tasks[l.tid].job.op, s.tasks[l.tid].pc, MoveOf(s, l))
  {
    var t, op, pc := l.tid, s.tasks[l.tid].job.op, s.tasks[l.tid].pc;
    assert PcOk(Write(op), pc, s.cfg);
    match l
    case Step(_, i) => ProgressWrites(t, op, pc.session, pc.rung, i, s.core, s.cfg);
    case Abandon(_) => AbortWrites(t, op, pc, s.core, s.cfg);
    case WakeUp(_) =>
  }

  lemma HolderKeepsWrites(s: State, l: Label)
    requires Inv(s) && WritesOk(s) && IsHolderStep(l) && Enabled(s, l)
    ensures WritesOk(Commit(s, l.tid, MoveOf(s, l)))
  {
    var t, m := l.tid, MoveOf(s, l);
    var s1 := Commit(s, t, m);
    MovesOk(s, l);
    assert WriteOk(s.tasks[t], Connected(s.log, t), LastWrite(s.log, t));
    if s.tasks[t].job.Write? {
      HolderWrites(s, l);
      MoveKeepsWrite(s.tasks[t], m, s.log, t);
    }
    forall u | 0 < u < |s1.tasks| ensures WriteOk(s1.tasks[u], Connected(s1.log, u), LastWrite(s1.log, u)) {
      assert WriteOk(s.tasks[u], Connected(s.log, u), LastWrite(s.log, u));
    }
  }

  // ---- other steps ----

  /** A step in which a one-shot task only queues, leaves, or begins its first call. */
  predicate Carried(task: Task, connected: bool, task1: Task, connected1: bool) {
    && task1.job == task.job
    && (Writing(task1.pc) ==> if task1.pc == task.pc then connected1 == connected
                              else !IsLinked(task1.pc.session.phase) && !connected1)
    && (task1.job.Write? && Wrote(task1.pc) ==> Wrote(task.pc))
  }

  ghost predicate CarriesAll(s: State, s1: State) {
    && |s1.tasks| >= |s.tasks|
    && (forall t | 0 < t < |s.tasks| ::
          Carried(s.tasks[t], Connected(s.log, t), s1.tasks[t], Connected(s1.log, t)))
    && (forall t | 0 < t < |s1.tasks| && t >= |s.tasks| ::
          (Writing(s1.tasks[t].pc) ==> !IsLinked(s1.tasks[t].pc.session.phase) && !Connected(s1.log, t))
          && (s1.tasks[t].job.Write? ==> !Wrote(s1.tasks[t].pc)))
  }

  lemma SpawnCarries(s: State, job: Job, barge: bool)
    requires Inv(s) && Enabled(s, Spawn(job, barge))
    ensures CarriesAll(s, SpawnNext(s, job, barge))
  {
  }

  /** A step that touches no one-shot task and records a step of the loop only. */
  lemma LoopOnlyCarries(s: State, s1: State)
    requires |s1.tasks| == |s.tasks| > 0 && s1.tasks[1..] == s.tasks[1..]
    requires s1.log == s.log
             || (s1.log.Then? && s1.log.past == s.log && (s1.log.last.Did? ==> s1.log.last.burst.tid == 0))
    ensures CarriesAll(s, s1)
  {
    forall t | 0 < t < |s.tasks| ensures s1.tasks[t] == s.tasks[t] && Connected(s1.log, t) == Connected(s.log, t) {
      assert s1.tasks[1..][t - 1] == s.tasks[1..][t - 1];
    }
  }

  lemma EnterCarries(task: Task, core: Core, reachable: bool, t: nat, log: Log)
    requires task.pc.Queued? && !task.job.RealtimeLoop?
    ensures var m := Enter(task.job, core, reachable, Quiet(t));
            && m.burst.tid == t
            && Carried(task, Connected(log, t),
                       task.(pc := m.pc, cancel := false), Connected(Then(log, Did(m.burst)), t))
  {
  }

  lemma GrantCarries(s: State)
    requires Inv(s) && Enabled(s, Grant)
    ensures CarriesAll(s, GrantNext(s))
  {
    var t, s1 := s.waiters[0], GrantNext(s);
    if t == 0 {
      LoopOnlyCarries(s, s1);
    } else {
      var m := Enter(s.tasks[t].job, s.core, s.bluetooth.reachable, Quiet(t));
      EnterCarries(s.tasks[t], s.core, s.bluetooth.reachable, t, s.log);
      assert s1.log == Then(s.log, Did(m.burst)) && s1.tasks == s.tasks[t := s.tasks[t].(pc := m.pc, cancel := false)];
    }
  }

  lemma LeaveCarries(s: State, i: nat)
    requires Inv(s) && Enabled(s, Leave(i))
    ensures CarriesAll(s, LeaveNext(s, i))
  {
    if s.waiters[i] == 0 {
      LoopOnlyCarries(s, LeaveNext(s, i));
    }
  }

  lemma LoopWakeCarries(s: State, barge: bool)
    requires Inv(s) && Enabled(s, LoopWake(barge))
    ensures CarriesAll(s, LoopTop(s, barge))
  {
    LoopOnlyCarries(s, LoopTop(s, barge));
  }

  lemma LoopCarries(s: State, l: Label)
    requires Inv(s) && Enabled(s, l) && IsLoopStep(l)
    ensures CarriesAll(s, Next(s, l))
  {
    if l.LoopWake? {
      LoopWakeCarries(s, l.barge);
    } else {
      LoopOnlyCarries(s, Next(s, l));
    }
  }

  lemma CancelCarries(s: State, u: nat)
    requires Inv(s) && u < |s.tasks|
    ensures CarriesAll(s, CancelTask(s, u))
  {
    var s1 := CancelTask(s, u);
    forall t | 0 < t < |s.tasks| ensures Carried(s.tasks[t], Connected(s.log, t), s1.tasks[t], Connected(s1.log, t)) {
      assert s1.tasks[t] == s.tasks[t].(cancel := s1.tasks[t].cancel);
    }
  }

  lemma StopCarries(s: State)
    requires Inv(s)
    ensures CarriesAll(s, StopNext(s))
  {
    LoopOnlyCarries(s, StopNext(s));
  }

  lemma OthersCarry(s: State, l: Label)
    requires Inv(s) && Enabled(s, l) && !IsHolderStep(l)
    ensures CarriesAll(s, Next(s, l))
  {
    if l.Spawn? {
      SpawnCarries(s, l.job, l.barge);
    } else if l.Grant? {
      GrantCarries(s);
    } else if l.Leave? {
      LeaveCarries(s, l.index);
    } else if IsLoopStep(l) {
      LoopCarries(s, l);
    } else if l.Stop? {
      StopCarries(s);
    } else if l.AskCancel? {
      CancelCarries(s, l.tid);
    } else {
      LoopOnlyCarries(s, Next(s, l));
    }
  }

  lemma SilentWrites(log: Log, log1: Log, t: nat)
    requires log1 == log || (log1.Then? && log1.past == log && NoRead(log1.last))
    ensures LastWrite(log1, t) == LastWrite(log, t)
  {
  }

  lemma CarriedKeepsWrites(s: State, s1: State)
    requires WritesOk(s) && CarriesAll(s, s1)
    requires s1.log == s.log || (s1.log.Then? && s1.log.past == s.log && NoRead(s1.log.last))
    ensures WritesOk(s1)
  {
    forall t | 0 < t < |s1.tasks| ensures WriteOk(s1.tasks[t], Connected(s1.log, t), LastWrite(s1.log, t)) {
      SilentWrites(s.log, s1.log, t);
      if t < |s.tasks| {
        assert WriteOk(s.tasks[t], Connected(s.log, t), LastWrite(s.log, t));
        assert Carried(s.tasks[t], Connected(s.log, t), s1.tasks[t], Connected(s1.log, t));
      }
    }
  }

  lemma KeepsWrites(s: State, l: Label)
    requires Inv(s) && WritesOk(s) && Enabled(s, l)
    ensures WritesOk(Next(s, l))
  {
    if IsHolderStep(l) {
      HolderKeepsWrites(s, l);
      assert Next(s, l) == Commit(s, l.tid, MoveOf(s, l));
    } else {
      OthersCarry(s, l);
      OthersReadNothing(s, l);
      CarriedKeepsWrites(s, Next(s, l));
    }
  }

  lemma {:induction false} RunWrites(s: State, run: seq<Label>)
    requires Inv(s) && WritesOk(s) && IsRun(s, run)
    ensures WritesOk(After(s, run))
    decreases |run|
  {
    if run != [] {
      Keeps(s, run[0]);
      KeepsWrites(s, run[0]);
      RunWrites(Next(s, run[0]), run[1..]);
    }
  }

  lemma WritesHold(s: State)
    requires Reachable(s)
    ensures WritesOk(s)
  {
    var cfg, b, run :| Leads(cfg, b, run, s);
    RunWrites(Init(cfg, b), run);
  }

  /** A settings write that ended well saw its write call end without an error. That call reached the lock,
      except perhaps for an add or a delete: those reached it if and only if the call's last step hung up. */
  lemma WellEndedWritesReached(s: State, t: nat, op: WriteOp)
    requires Reachable(s) && 0 < t < |s.tasks| && s.tasks[t].job == Write(op) && s.tasks[t].pc == Done(Finished)
    ensures var end := LastWrite(s.log, t);
            && end.Some? && end.value.reply == Nothing
            && (end.value.reached <==> end.value.hungUp)
            && (!op.NeedsPresence() ==> end.value.reached)
  {
    WritesHold(s);
    assert WriteOk(s.tasks[t], Connected(s.log, t), LastWrite(s.log, t));
  }
}
