/** The log of every run is disciplined: one lock owner, one client call, one connection at a time. */
module Discipline {
  import opened Types
  import opened Cache
  import opened Trace
  import opened Protocol
  import opened Shape

  function FlightAt(t: nat, pc: Pc): Option<Flying> {
    if pc.InCall? then Some(Flying(t, pc.session.call))
    else if pc.Listening? then Some(Flying(t, Listen))
    else None
  }

  /** A connection is open from the moment it is made until the bounded disconnect attempt is over. */
  predicate IsLinked(p: Phase) {
    p.Live? || p.Closing?
  }

  function LinkAt(t: nat, pc: Pc, handle: Option<Inner>): Option<nat> {
    if pc.InCall? && IsLinked(pc.session.phase) then Some(t)
    else if pc.Listening? && handle.Some? && IsLinked(handle.value.phase) then Some(t)
    else None
  }

  function FlightOf(s: State): Option<Flying>
    requires s.holder.Some? ==> s.holder.value < |s.tasks|
  {
    if s.holder.Some? then FlightAt(s.holder.value, s.tasks[s.holder.value].pc) else None
  }

  function LinkOf(s: State): Option<nat>
    requires s.holder.Some? ==> s.holder.value < |s.tasks|
  {
    if s.holder.Some? then LinkAt(s.holder.value, s.tasks[s.holder.value].pc, s.handle) else None
  }

  /** The log tells exactly who owns the lock, which call is in flight and which connection is open. */
  predicate LogAgrees(s: State)
    requires s.holder.Some? ==> s.holder.value < |s.tasks|
  {
    && Owner(s.log) == s.holder
    && InFlight(s.log) == FlightOf(s)
    && Linked(s.log) == LinkOf(s)
    && Disciplined(s.log)
  }

  ghost predicate Agrees(s: State) {
    Inv(s) && LogAgrees(s)
  }

  /** A step of task t, owning the lock, is legal and leads from one program point to the next. */
  predicate LegalMove(t: nat, pc: Pc, next: Pc, b: Burst, handle: Option<Inner>, handle1: Option<Inner>) {
    && b.tid == t
    && Legal(b, Some(t), FlightAt(t, pc), LinkAt(t, pc, handle))
    && FlightAt(t, next) ==
         (if b.started.Some? then Some(Flying(t, b.started.value))
          else if b.ended.Some? then None else FlightAt(t, pc))
    && LinkAt(t, next, handle1) ==
         (if b.connected then Some(t) else if b.disconnected then None else LinkAt(t, pc, handle))
  }

  /** A step that ends the call of t, whose connection (if any) it has just closed. */
  predicate EndsCall(t: nat, m: Move) {
    && m.burst.tid == t && m.burst.ended.Some? && !m.burst.granted && !m.burst.connected
    && FlightAt(t, m.pc) == (if m.burst.started.Some? then Some(Flying(t, m.burst.started.value)) else None)
    && (m.burst.started.Some? ==> !m.burst.released)
    && LinkAt(t, m.pc, None) == None
  }

  lemma LadderEnds(t: nat, job: Job, rung: nat, r: Reply, core: Core, cfg: Config, b: Burst)
    requires b == Quiet(t).(ended := b.ended, disconnected := b.disconnected, table := b.table) && b.ended.Some?
    ensures var m := ClimbLadder(job, rung, r, core, cfg, b);
            EndsCall(t, m) && m.burst.disconnected == b.disconnected && m.burst.ended == b.ended
  {
  }

  lemma ActionEnds(t: nat, job: Job, r: Reply, core: Core, b: Burst)
    requires b == Quiet(t).(ended := b.ended, disconnected := b.disconnected, table := b.table) && b.ended.Some?
    ensures var m := AfterAction(job, r, core, b);
            EndsCall(t, m) && m.burst.disconnected == b.disconnected && m.burst.ended == b.ended
  {
  }

  lemma ReadEnds(t: nat, r: Reply, core: Core, b: Burst)
    requires b == Quiet(t).(ended := b.ended, disconnected := b.disconnected, table := b.table) && b.ended.Some?
    ensures var m := FinishRead(core, r, b);
            EndsCall(t, m) && m.burst.disconnected == b.disconnected && m.burst.ended == b.ended
  {
  }

  lemma ReplyEnds(t: nat, job: Job, c: Call, rung: nat, r: Reply, core: Core, cfg: Config, b: Burst)
    requires b == Quiet(t).(disconnected := b.disconnected, table := b.table)
    ensures var m := OnReply(job, c, rung, r, core, cfg, b);
            EndsCall(t, m) && m.burst.disconnected == b.disconnected && m.burst.ended == Some(Ending(c, r))
  {
    var b1 := b.(ended := Some(Ending(c, r)));
    ReadEnds(t, r, core, b1);
    LadderEnds(t, job, rung, r, core, cfg, b1);
    ActionEnds(t, job, r, core, b1);
  }

  lemma EndAttemptLegal(t: nat, job: Job, ses: Session, rung: nat, r: Reply, core: Core, cfg: Config, b: Burst)
    requires b == Quiet(t).(disconnected := IsLinked(ses.phase))
    ensures LegalMove(t, InCall(ses, rung), EndAttempt(job, ses, rung, r, core, cfg, b).pc,
                      EndAttempt(job, ses, rung, r, core, cfg, b).burst, None, None)
  {
    ReplyEnds(t, job, ses.call, rung, Delivered(r), core, cfg, b.(table := TableIn(r)));
  }

  lemma AbortLegal(t: nat, job: Job, pc: Pc, core: Core, cfg: Config)
    requires Holds(pc) && !pc.Listening?
    ensures LegalMove(t, pc, Abort(job, pc, core, cfg, Quiet(t)).pc,
                      Abort(job, pc, core, cfg, Quiet(t)).burst, None, None)
  {
    if pc.InCall? {
      var ses := pc.session;
      if ses.phase.Closing? {
        EndAttemptLegal(t, job, ses, pc.rung, ses.phase.reply, core, cfg, Quiet(t).(disconnected := true));
        ReplyEnds(t, job, ses.call, pc.rung, Cancelled, core, cfg, Quiet(t).(disconnected := true));
      } else {
        ReplyEnds(t, job, ses.call, pc.rung, Cancelled, core, cfg, Quiet(t));
      }
    }
  }

  lemma ProgressLegal(t: nat, job: Job, ses: Session, rung: nat, i: Input, core: Core, cfg: Config)
    requires InputOk(ses, i)
    ensures LegalMove(t, InCall(ses, rung), Progress(job, ses, rung, i, core, cfg, Quiet(t)).pc,
                      Progress(job, ses, rung, i, core, cfg, Quiet(t)).burst, None, None)
  {
    if i.Broke? {
      EndAttemptLegal(t, job, ses, rung, i.reply, core, cfg, Quiet(t));
    } else if i.HungUp? {
      EndAttemptLegal(t, job, ses, rung, ses.phase.reply, core, cfg, Quiet(t).(disconnected := true));
    }
  }

  lemma MovesLegal(s: State, l: Label)
    requires IsHolderStep(l) && Enabled(s, l)
    ensures LegalMove(l.tid, s.tasks[l.tid].pc, MoveOf(s, l).pc, MoveOf(s, l).burst, None, None)
  {
    var t, job, pc := l.tid, s.tasks[l.tid].job, s.tasks[l.tid].pc;
    match l
    case Step(_, i) => ProgressLegal(t, job, pc.session, pc.rung, i, s.core, s.cfg);
    case Abandon(_) => AbortLegal(t, job, pc, s.core, s.cfg);
    case WakeUp(_) =>
  }

  lemma HolderStepAgrees(s: State, l: Label)
    requires Agrees(s) && IsHolderStep(l) && Enabled(s, l)
    ensures Agrees(Next(s, l))
  {
    MovesOk(s, l);
    MovesLegal(s, l);
    HolderStepKeeps(s, l);
    var s1 := Commit(s, l.tid, MoveOf(s, l));
    assert s.tasks[0].job.RealtimeLoop? && l.tid > 0;
    assert LogAgrees(s1);
  }

  /** A granted step begins with the lock free, so nothing is in flight and nothing is connected. */
  lemma EnterAgrees(s: State, s0: State, t: nat, m: Move)
    requires Agrees(s) && s.holder == None && s0.log == s.log && t < |s0.tasks| && s0.holder == None
    requires m.burst.tid == t && m.burst.granted && !m.burst.connected && !m.burst.disconnected && m.burst.ended == None
    requires m.burst.started.Some? <==> !m.burst.released
    requires FlightAt(t, m.pc) == if m.burst.started.Some? then Some(Flying(t, m.burst.started.value)) else None
    requires m.pc.InCall? ==> m.pc.session.phase.Dialing?
    ensures LogAgrees(Commit(s0, t, m).(handle := Some(Inner(Fresh, false))))
    ensures !m.pc.Listening? ==> LogAgrees(Commit(s0, t, m))
  {
  }

  lemma SpawnAgrees(s: State, job: Job, barge: bool)
    requires Agrees(s) && Enabled(s, Spawn(job, barge))
    ensures Agrees(SpawnNext(s, job, barge))
  {
    SpawnKeeps(s, job, barge);
    var t := |s.tasks|;
    if barge && !(job.BackgroundRead? && !s.bluetooth.reachable) {
      var b := Quiet(t).(arrived := Some(0 in s.waiters));
      EnterAgrees(s, Arrive(s, job), t, Enter(job, s.core, s.bluetooth.reachable, b));
    }
  }

  lemma GrantAgrees(s: State)
    requires Agrees(s) && Enabled(s, Grant)
    ensures Agrees(GrantNext(s))
  {
    GrantKeeps(s);
    var t := s.waiters[0];
    var s1 := s.(waiters := s.waiters[1..]);
    if t == 0 {
      EnterAgrees(s, s1, 0, Move(Listening, s.core, Keep, Quiet(0).(granted := true, started := Some(Listen))));
    } else {
      EnterAgrees(s, s1, t, Enter(s.tasks[t].job, s.core, s.bluetooth.reachable, Quiet(t)));
    }
  }

  /** A step of a task outside the lock that does nothing the log can see. */
  lemma QuietAgrees(s: State, s0: State, t: nat, pc: Pc, note: Note, left: bool)
    requires Agrees(s) && t < |s.tasks| && s0 == s.(waiters := s0.waiters)
    requires !Holds(s.tasks[t].pc) && !Holds(pc)
    ensures LogAgrees(Commit(s0, t, Move(pc, s.core, note, Quiet(t).(left := left))))
  {
  }

  lemma LoopWakeAgrees(s: State, barge: bool)
    requires Agrees(s) && Enabled(s, LoopWake(barge))
    ensures Agrees(LoopTop(s, barge))
  {
    LoopWakeKeeps(s, barge);
    if s.stop || !s.bluetooth.reachable {
      QuietAgrees(s, s, 0, LoopTop(s, barge).tasks[0].pc, Keep, false);
    } else if barge {
      EnterAgrees(s, s, 0, Move(Listening, s.core, Keep, Quiet(0).(granted := true, started := Some(Listen))));
    } else {
      QuietAgrees(s, s.(waiters := s.waiters + [0]), 0, Queued, Keep, false);
    }
  }

  lemma LeaveAgrees(s: State, i: nat)
    requires Agrees(s) && Enabled(s, Leave(i))
    ensures Agrees(LeaveNext(s, i))
  {
    LeaveKeeps(s, i);
    var t := s.waiters[i];
    var s0 := s.(waiters := s.waiters[..i] + s.waiters[i + 1..]);
    if t == 0 {
      QuietAgrees(s, s0, 0, LeaveNext(s, i).tasks[0].pc, Keep, true);
    } else {
      QuietAgrees(s, s0, t, Done(WasCancelled), if s.tasks[t].job.Announced() then Drop else Keep, true);
    }
  }

  lemma MoveListenAgrees(s: State, phase: Phase, b: Burst)
    requires Agrees(s) && s.handle.Some? && !phase.Resting?
    requires b == Quiet(0).(connected := b.connected, disconnected := b.disconnected)
    requires b.connected ==> !IsLinked(s.handle.value.phase) && !b.disconnected
    requires b.disconnected ==> IsLinked(s.handle.value.phase)
    requires IsLinked(phase) <==> b.connected || (IsLinked(s.handle.value.phase) && !b.disconnected)
    ensures Agrees(MoveListen(s, phase, b))
  {
    MoveListenKeeps(s, phase, b);
  }

  lemma ResumeAgrees(s: State)
    requires Agrees(s) && Enabled(s, LoopResume)
    ensures Agrees(ResumeNext(s))
  {
    ResumeKeeps(s);
  }

  lemma LoopStepAgrees(s: State, l: Label)
    requires Agrees(s) && Enabled(s, l) && IsLoopStep(l)
    ensures Agrees(Next(s, l))
  {
    match l
    case ListenStep(i) =>
      MoveListenAgrees(s, ListenPhase(s.handle.value.phase, i),
                       Quiet(0).(connected := i.Dialed?, disconnected := i.HungUp?));
    case ListenCancel =>
      MoveListenAgrees(s, HangUpPhase(s.handle.value.phase), Quiet(0).(disconnected := s.handle.value.phase.Closing?));
    case LoopResume => ResumeAgrees(s);
    case LoopCancel =>
      LoopRestsKeeps(s, Done(WasCancelled));
      QuietAgrees(s, s, 0, Done(WasCancelled), Keep, false);
    case LoopWake(barge) => LoopWakeAgrees(s, barge);
  }

  lemma CancelTaskAgrees(s: State, t: nat)
    requires Agrees(s) && t < |s.tasks|
    ensures Agrees(CancelTask(s, t))
  {
    CancelTaskKeeps(s, t);
  }

  lemma StopAgrees(s: State)
    requires Agrees(s)
    ensures Agrees(StopNext(s))
  {
    var s1 := s.(stop := true, handle := Preempt(s.handle), started := false);
    assert Agrees(s1);
    CancelTaskAgrees(s1, 0);
  }

  lemma StartAgrees(s: State)
    requires Agrees(s) && Enabled(s, StartLoop)
    ensures Agrees(Next(s, StartLoop))
  {
    StartKeeps(s);
  }

  /** Every step extends the log by a legal entry. */
  lemma KeepsAgreeing(s: State, l: Label)
    requires Agrees(s) && Enabled(s, l)
    ensures Agrees(Next(s, l))
  {
    if IsHolderStep(l) {
      HolderStepAgrees(s, l);
    } else if IsLoopStep(l) {
      LoopStepAgrees(s, l);
    } else {
      match l
      case Spawn(job, barge) => SpawnAgrees(s, job, barge);
      case Grant => GrantAgrees(s);
      case Leave(i) => LeaveAgrees(s, i);
      case StartLoop => StartAgrees(s);
      case Stop => StopAgrees(s);
      case AskCancel(t) => CancelTaskAgrees(s, t);
      case See(_) =>
      case Hear(_) =>
    }
  }
}
