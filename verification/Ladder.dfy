/** The presence ladder: gated calls, bounded asking, and the shared notification. */
module Ladder {
  import opened Types
  import opened Cache
  import opened Trace
  import opened Protocol
  import opened Shape

  /** How far a one-shot task has climbed, in front-panel reads begun, asks made and the first answer. */
  predicate Climb(cfg: Config, pc: Pc, polls: nat, asks: nat, first: Option<Reply>) {
    && asks == (if Asleep(first) then 1 else 0)
    && match pc
       case Queued => polls == 0 && first == None
       case InCall(ses, rung) =>
         if ses.call == FrontRead then polls == rung + 1 && (if rung == 0 then first == None else Asleep(first))
         else polls <= cfg.attempts + 1
       case Pressing => polls == 1 && Asleep(first)
       case Napping(rung) => polls == rung && Asleep(first)
       case _ => polls <= cfg.attempts + 1
  }

  function ReadsAfter(polls: nat, b: Burst): nat {
    polls + (if b.started == Some(FrontRead) then 1 else 0)
  }

  function AsksAfter(asks: nat, b: Burst): nat {
    asks + (if b.asked then 1 else 0)
  }

  function FirstAfter(first: Option<Reply>, b: Burst): Option<Reply> {
    if first.Some? then first
    else if b.ended.Some? && b.ended.value.call == FrontRead then Some(b.ended.value.reply)
    else None
  }

  /** The task is showing (or about to dismiss) the shared keypad notification. */
  predicate InScope(job: Job, pc: Pc) {
    || (job.Announced() && !pc.Done?)
    || pc.Napping?
    || (pc.InCall? && pc.session.call == FrontRead && pc.rung > 0)
  }

  /** A step climbs the ladder, begins a gated call only on a positive answer, and dismisses the
      notification when it leaves its scope. */
  predicate StepsWell(cfg: Config, job: Job, pc: Pc, m: Move, polls: nat, asks: nat, first: Option<Reply>) {
    && Climb(cfg, m.pc, ReadsAfter(polls, m.burst), AsksAfter(asks, m.burst), FirstAfter(first, m.burst))
    && (m.burst.started.Some? && GatedCall(m.burst.started.value) ==>
          m.burst.ended == Some(Ending(FrontRead, Flag(true))))
    && (m.note == Raise ==> InScope(job, m.pc))
    && (m.note == Keep && InScope(job, pc) ==> InScope(job, m.pc))
  }

  lemma LadderSteps(t: nat, cfg: Config, job: Job, ses: Session, rung: nat, r: Reply, core: Core, b: Burst,
                    polls: nat, asks: nat, first: Option<Reply>)
    requires ses.call == FrontRead && job.NeedsPresence() && rung <= cfg.attempts && cfg.attempts >= 1
    requires Climb(cfg, InCall(ses, rung), polls, asks, first)
    requires ReplyIsAnswer(r)
    requires b == Quiet(t).(disconnected := b.disconnected, table := b.table, ended := Some(Ending(FrontRead, r)))
    ensures StepsWell(cfg, job, InCall(ses, rung), ClimbLadder(job, rung, r, core, cfg, b), polls, asks, first)
  {
  }

  /** A front-panel read answers True, False or nothing. */
  predicate ReplyIsAnswer(r: Reply) {
    r.Flag? || r.Nothing?
  }

  lemma FinishSteps(t: nat, cfg: Config, job: Job, ses: Session, rung: nat, r: Reply, core: Core,
                    out: Outcome, b: Burst, polls: nat, asks: nat, first: Option<Reply>)
    requires CallOk(job, ses.call, rung, cfg) && cfg.attempts >= 1 && !job.BackgroundRead?
    requires Climb(cfg, InCall(ses, rung), polls, asks, first)
    requires b == Quiet(t).(disconnected := b.disconnected, table := b.table, ended := Some(Ending(ses.call, r)))
    requires ses.call == FrontRead ==> !ReplyIsAnswer(r)
    ensures StepsWell(cfg, job, InCall(ses, rung), FinishOperation(job, core, out, rung > 0, b), polls, asks, first)
  {
  }

  lemma ActionSteps(t: nat, cfg: Config, job: Job, ses: Session, r: Reply, core: Core, b: Burst,
                    polls: nat, asks: nat, first: Option<Reply>)
    requires ses.call == Action(job) && job.IsOperation()
    requires Climb(cfg, InCall(ses, 0), polls, asks, first)
    requires b == Quiet(t).(disconnected := b.disconnected, table := b.table, ended := Some(Ending(ses.call, r)))
    ensures StepsWell(cfg, job, InCall(ses, 0), AfterAction(job, r, core, b), polls, asks, first)
  {
  }

  lemma ReplySteps(t: nat, cfg: Config, job: Job, ses: Session, rung: nat, r: Reply, core: Core, b: Burst,
                   polls: nat, asks: nat, first: Option<Reply>)
    requires !job.RealtimeLoop? && CallOk(job, ses.call, rung, cfg) && cfg.attempts >= 1
    requires Climb(cfg, InCall(ses, rung), polls, asks, first)
    requires r.Cancelled? || Allowed(ses.call, r)
    requires b == Quiet(t).(disconnected := b.disconnected, table := b.table)
    ensures StepsWell(cfg, job, InCall(ses, rung), OnReply(job, ses.call, rung, r, core, cfg, b), polls, asks, first)
  {
    var b1 := b.(ended := Some(Ending(ses.call, r)));
    if job.BackgroundRead? {
    } else if r.Failed? {
      FinishSteps(t, cfg, job, ses, rung, r, core, Raised(r.error), b1, polls, asks, first);
    } else if r.Cancelled? {
      FinishSteps(t, cfg, job, ses, rung, r, core, WasCancelled, b1, polls, asks, first);
    } else if ses.call == FrontRead {
      LadderSteps(t, cfg, job, ses, rung, r, core, b1, polls, asks, first);
    } else if ses.call == Action(job) {
      ActionSteps(t, cfg, job, ses, r, core, b1, polls, asks, first);
    } else {
      FinishSteps(t, cfg, job, ses, rung, r, if r.Got? then core.(values := Apply(core.values, r.report)) else core,
                  Finished, b1, polls, asks, first);
    }
  }

  lemma AttemptSteps(t: nat, cfg: Config, job: Job, ses: Session, rung: nat, r: Reply, core: Core, b: Burst,
                     polls: nat, asks: nat, first: Option<Reply>)
    requires !job.RealtimeLoop? && CallOk(job, ses.call, rung, cfg) && cfg.attempts >= 1
    requires Climb(cfg, InCall(ses, rung), polls, asks, first)
    requires r.Cancelled? || Allowed(ses.call, r)
    requires b == Quiet(t).(disconnected := b.disconnected)
    ensures StepsWell(cfg, job, InCall(ses, rung), EndAttempt(job, ses, rung, r, core, cfg, b), polls, asks, first)
  {
    ReplySteps(t, cfg, job, ses, rung, Delivered(r), core, b.(table := TableIn(r)), polls, asks, first);
  }

  lemma ProgressSteps(t: nat, cfg: Config, job: Job, ses: Session, rung: nat, i: Input, core: Core,
                      polls: nat, asks: nat, first: Option<Reply>)
    requires PcOk(job, InCall(ses, rung), cfg) && cfg.attempts >= 1 && InputOk(ses, i)
    requires Climb(cfg, InCall(ses, rung), polls, asks, first)
    ensures StepsWell(cfg, job, InCall(ses, rung), Progress(job, ses, rung, i, core, cfg, Quiet(t)), polls, asks, first)
  {
    if i.Broke? {
      AttemptSteps(t, cfg, job, ses, rung, i.reply, core, Quiet(t), polls, asks, first);
    } else if i.HungUp? {
      AttemptSteps(t, cfg, job, ses, rung, ses.phase.reply, core, Quiet(t).(disconnected := true), polls, asks, first);
    }
  }

  lemma AbortSteps(t: nat, cfg: Config, job: Job, pc: Pc, core: Core, polls: nat, asks: nat, first: Option<Reply>)
    requires PcOk(job, pc, cfg) && cfg.attempts >= 1 && Holds(pc) && !pc.Listening?
    requires Climb(cfg, pc, polls, asks, first)
    ensures StepsWell(cfg, job, pc, Abort(job, pc, core, cfg, Quiet(t)), polls, asks, first)
  {
    if pc.InCall? {
      var ses := pc.session;
      var hang := Quiet(t).(disconnected := true);
      if ses.phase.Closing? {
        AttemptSteps(t, cfg, job, ses, pc.rung, ses.phase.reply, core, hang, polls, asks, first);
        ReplySteps(t, cfg, job, ses, pc.rung, Cancelled, core, hang, polls, asks, first);
      } else {
        ReplySteps(t, cfg, job, ses, pc.rung, Cancelled, core, Quiet(t), polls, asks, first);
      }
    }
  }

  lemma MovesStep(s: State, l: Label, polls: nat, asks: nat, first: Option<Reply>)
    requires Inv(s) && IsHolderStep(l) && Enabled(s, l)
    requires Climb(s.cfg, s.tasks[l.tid].pc, polls, asks, first)
    ensures StepsWell(s.cfg, s.tasks[l.tid].job, s.tasks[l.tid].pc, MoveOf(s, l), polls, asks, first)
  {
    var t, job, pc := l.tid, s.tasks[l.tid].job, s.tasks[l.tid].pc;
    match l
    case Step(_, i) => ProgressSteps(t, s.cfg, job, pc.session, pc.rung, i, s.core, polls, asks, first);
    case Abandon(_) => AbortSteps(t, s.cfg, job, pc, s.core, polls, asks, first);
    case WakeUp(_) =>
  }

  // ---- the whole system ----

  ghost predicate Climbing(s: State) {
    && (forall t | 0 < t < |s.tasks| ::
          Climb(s.cfg, s.tasks[t].pc, FrontReads(s.log, t), Asks(s.log, t), FirstFront(s.log, t)))
    && (forall t: nat | t >= |s.tasks| :: Unborn(s.log, t))
  }

  /** Nothing is recorded yet under a task number that has not been given out. */
  ghost predicate Unborn(log: Log, t: nat) {
    FrontReads(log, t) == 0 && Asks(log, t) == 0 && FirstFront(log, t) == None
  }

  /** The notification shows only while some task that will dismiss it is in flight. */
  ghost predicate NoteOk(s: State) {
    s.notified ==> exists t :: 0 <= t < |s.tasks| && InScope(s.tasks[t].job, s.tasks[t].pc)
  }

  ghost predicate Careful(s: State) {
    Inv(s) && PresenceSafe(s.log) && Climbing(s) && NoteOk(s)
  }

  /** An entry that begins no call, asks nothing and ends no front-panel read. */
  predicate Plain(e: Entry) {
    e.Did? ==>
      && e.burst.started != Some(FrontRead) && !e.burst.asked
      && (e.burst.ended.Some? ==> e.burst.ended.value.call != FrontRead)
      && (e.burst.started.Some? ==> !GatedCall(e.burst.started.value))
  }

  lemma PlainKeepsCounts(log: Log, e: Entry, t: nat)
    requires Plain(e)
    ensures var log1 := Then(log, e);
            && FrontReads(log1, t) == FrontReads(log, t)
            && Asks(log1, t) == Asks(log, t)
            && FirstFront(log1, t) == FirstFront(log, t)
  {
  }

  /** A plain entry leaves every other task where it was on the ladder. */
  lemma PlainStepClimbs(s: State, s1: State, e: Entry)
    requires Climbing(s) && Plain(e) && s1.log == Then(s.log, e) && s1.cfg == s.cfg
    requires |s1.tasks| == |s.tasks| && forall t | 0 < t < |s.tasks| :: s1.tasks[t].pc == s.tasks[t].pc
    ensures Climbing(s1)
  {
    forall t | 0 < t < |s1.tasks|
      ensures Climb(s1.cfg, s1.tasks[t].pc, FrontReads(s1.log, t), Asks(s1.log, t), FirstFront(s1.log, t))
    {
      PlainKeepsCounts(s.log, e, t);
    }
    forall t: nat | t >= |s1.tasks| ensures Unborn(s1.log, t) {
      assert Unborn(s.log, t);
      PlainKeepsCounts(s.log, e, t);
    }
  }

  /** A new task stands at the foot of the ladder. */
  lemma BirthClimbs(s: State, s1: State, task: Task)
    requires Climbing(s) && s1.log == s.log && s1.cfg == s.cfg && s1.tasks == s.tasks + [task]
    requires task.pc.Queued? || task.pc.Done?
    ensures Climbing(s1)
  {
    assert Unborn(s.log, |s.tasks|);
    forall t | 0 < t < |s1.tasks|
      ensures Climb(s1.cfg, s1.tasks[t].pc, FrontReads(s1.log, t), Asks(s1.log, t), FirstFront(s1.log, t))
    {
      assert t < |s.tasks| ==> s1.tasks[t] == s.tasks[t];
    }
    forall t: nat | t >= |s1.tasks| ensures Unborn(s1.log, t) {
      assert Unborn(s.log, t);
    }
  }

  lemma CommitClimbs(s: State, t: nat, m: Move)
    requires Climbing(s) && 0 < t < |s.tasks| && m.burst.tid == t
    requires Climb(s.cfg, m.pc, ReadsAfter(FrontReads(s.log, t), m.burst), AsksAfter(Asks(s.log, t), m.burst),
                   FirstAfter(FirstFront(s.log, t), m.burst))
    ensures Climbing(Commit(s, t, m))
  {
    var log1 := Commit(s, t, m).log;
    forall u: nat | u >= |s.tasks| ensures Unborn(log1, u) {
      assert Unborn(s.log, u);
    }
  }

  lemma CommitNotes(s: State, t: nat, m: Move)
    requires NoteOk(s) && t < |s.tasks|
    requires m.note == Raise ==> InScope(s.tasks[t].job, m.pc)
    requires m.note == Keep && InScope(s.tasks[t].job, s.tasks[t].pc) ==> InScope(s.tasks[t].job, m.pc)
    ensures NoteOk(Commit(s, t, m))
  {
    var s1 := Commit(s, t, m);
    if s1.notified {
      if m.note == Raise {
        assert InScope(s1.tasks[t].job, s1.tasks[t].pc);
      } else {
        var u :| 0 <= u < |s.tasks| && InScope(s.tasks[u].job, s.tasks[u].pc);
        assert InScope(s1.tasks[u].job, s1.tasks[u].pc);
      }
    }
  }

  lemma CommitCareful(s: State, t: nat, m: Move)
    requires PresenceSafe(s.log) && Climbing(s) && NoteOk(s) && 0 < t < |s.tasks| && m.burst.tid == t
    requires StepsWell(s.cfg, s.tasks[t].job, s.tasks[t].pc, m,
                       FrontReads(s.log, t), Asks(s.log, t), FirstFront(s.log, t))
    ensures var s1 := Commit(s, t, m); PresenceSafe(s1.log) && Climbing(s1) && NoteOk(s1)
  {
    CommitClimbs(s, t, m);
    CommitNotes(s, t, m);
  }

  lemma HolderStepCareful(s: State, l: Label)
    requires Careful(s) && IsHolderStep(l) && Enabled(s, l)
    ensures Careful(Next(s, l))
  {
    var t := l.tid;
    HolderStepKeeps(s, l);
    MovesOk(s, l);
    MovesStep(s, l, FrontReads(s.log, t), Asks(s.log, t), FirstFront(s.log, t));
    CommitCareful(s, t, MoveOf(s, l));
  }

  lemma EnterSteps(t: nat, cfg: Config, job: Job, core: Core, reachable: bool, b: Burst)
    requires !job.RealtimeLoop? && b == Quiet(t).(arrived := b.arrived)
    ensures StepsWell(cfg, job, Queued, Enter(job, core, reachable, b), 0, 0, None)
  {
  }

  lemma EnterCareful(s: State, t: nat, b: Burst)
    requires PresenceSafe(s.log) && Climbing(s) && NoteOk(s) && 0 < t < |s.tasks|
    requires s.tasks[t].pc.Queued? && !s.tasks[t].job.RealtimeLoop? && b == Quiet(t).(arrived := b.arrived)
    ensures var s1 := Commit(s, t, Enter(s.tasks[t].job, s.core, s.bluetooth.reachable, b));
            PresenceSafe(s1.log) && Climbing(s1) && NoteOk(s1)
  {
    EnterSteps(t, s.cfg, s.tasks[t].job, s.core, s.bluetooth.reachable, b);
    CommitCareful(s, t, Enter(s.tasks[t].job, s.core, s.bluetooth.reachable, b));
  }

  lemma ArriveCareful(s: State, job: Job)
    requires Careful(s)
    ensures var s1 := Arrive(s, job); PresenceSafe(s1.log) && Climbing(s1) && NoteOk(s1)
  {
    var s1 := Arrive(s, job);
    BirthClimbs(s, s1, Task(job, Queued, false));
    if s1.notified {
      if s.notified {
        var u :| 0 <= u < |s.tasks| && InScope(s.tasks[u].job, s.tasks[u].pc);
        assert InScope(s1.tasks[u].job, s1.tasks[u].pc);
      } else {
        assert InScope(s1.tasks[|s.tasks|].job, s1.tasks[|s.tasks|].pc);
      }
    }
  }

  lemma SpawnCareful(s: State, job: Job, barge: bool)
    requires Careful(s) && Enabled(s, Spawn(job, barge))
    ensures Careful(SpawnNext(s, job, barge))
  {
    SpawnKeeps(s, job, barge);
    if job.BackgroundRead? && !s.bluetooth.reachable {
      DeadReadCareful(s, job);
    } else {
      ArriveCareful(s, job);
      var b := Quiet(|s.tasks|).(arrived := Some(0 in s.waiters));
      if barge {
        EnterCareful(Arrive(s, job), |s.tasks|, b);
      } else {
        var s1 := Arrive(s, job);
        PlainStepClimbs(s1, SpawnNext(s, job, false), Did(b));
        assert NoteOk(s1.(waiters := s.waiters + [|s.tasks|], log := Then(s.log, Did(b))));
      }
    }
  }

  lemma DeadReadCareful(s: State, job: Job)
    requires Careful(s)
    ensures var s1 := s.(tasks := s.tasks + [Task(job, Done(Finished), false)]);
            PresenceSafe(s1.log) && Climbing(s1) && NoteOk(s1)
  {
    var s1 := s.(tasks := s.tasks + [Task(job, Done(Finished), false)]);
    BirthClimbs(s, s1, Task(job, Done(Finished), false));
    if s1.notified {
      var u :| 0 <= u < |s.tasks| && InScope(s.tasks[u].job, s.tasks[u].pc);
      assert InScope(s1.tasks[u].job, s1.tasks[u].pc);
    }
  }

  lemma GrantCareful(s: State)
    requires Careful(s) && Enabled(s, Grant)
    ensures Careful(GrantNext(s))
  {
    GrantKeeps(s);
    var s0 := s.(waiters := s.waiters[1..]);
    assert NoteOk(s0);
    if s.waiters[0] == 0 {
      LoopMoveCareful(s, s0, Listening, Quiet(0).(granted := true, started := Some(Listen)));
    } else {
      EnterCareful(s0, s.waiters[0], Quiet(s.waiters[0]));
    }
  }

  /** A step of the real-time loop touches neither the ladder nor the notification. */
  lemma LoopMoveCareful(s: State, s0: State, pc: Pc, b: Burst)
    requires Careful(s) && s0 == s.(waiters := s0.waiters) && b.tid == 0 && Plain(Did(b)) && !pc.Napping? && !pc.InCall?
    ensures var s1 := Commit(s0, 0, Move(pc, s.core, Keep, b));
            PresenceSafe(s1.log) && Climbing(s1) && NoteOk(s1)
  {
    assert NoteOk(s0);
    CommitNotes(s0, 0, Move(pc, s.core, Keep, b));
    PlainStepClimbs(s, Commit(s0, 0, Move(pc, s.core, Keep, b)), Did(b));
  }

  lemma LeaveCareful(s: State, i: nat)
    requires Careful(s) && Enabled(s, Leave(i))
    ensures Careful(LeaveNext(s, i))
  {
    LeaveKeeps(s, i);
    var t := s.waiters[i];
    var s0 := s.(waiters := s.waiters[..i] + s.waiters[i + 1..]);
    assert NoteOk(s0);
    if t == 0 {
      LoopMoveCareful(s, s0, if s.stop then Done(WasCancelled) else Pausing, Quiet(0).(left := true));
    } else {
      CommitCareful(s0, t, Move(Done(WasCancelled), s.core, if s.tasks[t].job.Announced() then Drop else Keep,
                                Quiet(t).(left := true)));
    }
  }

  lemma MoveListenCareful(s: State, phase: Phase, b: Burst)
    requires Careful(s) && s.handle.Some? && !phase.Resting? && b.tid == 0 && Plain(Did(b))
    ensures Careful(MoveListen(s, phase, b))
  {
    MoveListenKeeps(s, phase, b);
    PlainStepClimbs(s, MoveListen(s, phase, b), Did(b));
    assert NoteOk(MoveListen(s, phase, b));
  }

  lemma LoopStepCareful(s: State, l: Label)
    requires Careful(s) && Enabled(s, l) && IsLoopStep(l)
    ensures Careful(Next(s, l))
  {
    LoopStepKeeps(s, l);
    match l
    case LoopWake(barge) => LoopWakeCareful(s, barge);
    case ListenStep(i) =>
      MoveListenCareful(s, ListenPhase(s.handle.value.phase, i),
                        Quiet(0).(connected := i.Dialed?, disconnected := i.HungUp?));
    case ListenCancel =>
      MoveListenCareful(s, HangUpPhase(s.handle.value.phase), Quiet(0).(disconnected := s.handle.value.phase.Closing?));
    case LoopResume =>
      var r := s.handle.value.phase.reply;
      LoopMoveCareful(s, s, if (r.Cancelled? || s.tasks[0].cancel) && s.stop then Done(WasCancelled) else Pausing,
                      Quiet(0).(ended := Some(Ending(Listen, r)), released := true));
    case LoopCancel => LoopMoveCareful(s, s, Done(WasCancelled), Quiet(0));
  }

  lemma LoopWakeCareful(s: State, barge: bool)
    requires Careful(s) && Enabled(s, LoopWake(barge))
    ensures Careful(LoopTop(s, barge))
  {
    LoopWakeKeeps(s, barge);
    if s.stop {
      LoopMoveCareful(s, s, Done(Finished), Quiet(0));
    } else if !s.bluetooth.reachable {
      LoopMoveCareful(s, s, Pausing, Quiet(0));
    } else if barge {
      LoopMoveCareful(s, s, Listening, Quiet(0).(granted := true, started := Some(Listen)));
    } else {
      LoopMoveCareful(s, s.(waiters := s.waiters + [0]), Queued, Quiet(0));
    }
  }

  lemma CancelTaskCareful(s: State, t: nat)
    requires Careful(s) && t < |s.tasks|
    ensures Careful(CancelTask(s, t))
  {
    CancelTaskKeeps(s, t);
    var s1 := CancelTask(s, t);
    if s1.notified {
      var u :| 0 <= u < |s.tasks| && InScope(s.tasks[u].job, s.tasks[u].pc);
      assert InScope(s1.tasks[u].job, s1.tasks[u].pc);
    }
  }

  lemma StopCareful(s: State)
    requires Careful(s)
    ensures Careful(StopNext(s))
  {
    var s1 := s.(stop := true, handle := Preempt(s.handle), started := false);
    assert NoteOk(s1);
    assert Careful(s1);
    CancelTaskCareful(s1, 0);
  }

  lemma StartCareful(s: State)
    requires Careful(s) && Enabled(s, StartLoop)
    ensures Careful(Next(s, StartLoop))
  {
    StartKeeps(s);
    var s1 := Next(s, StartLoop);
    if s1.notified {
      var u :| 0 <= u < |s.tasks| && InScope(s.tasks[u].job, s.tasks[u].pc);
      assert InScope(s1.tasks[u].job, s1.tasks[u].pc);
    }
  }

  lemma HearCareful(s: State, e: LockEvent)
    requires Careful(s)
    ensures Careful(HearNext(s, e))
  {
    assert NoteOk(HearNext(s, e));
    PlainStepClimbs(s, HearNext(s, e), HearNext(s, e).log.last);
  }

  lemma SeeCareful(s: State, b: BluetoothState)
    requires Careful(s)
    ensures Careful(Next(s, See(b)))
  {
    PlainStepClimbs(s, Next(s, See(b)), Radio(b));
    assert NoteOk(Next(s, See(b)));
  }

  /** Every step keeps the ladder, the gated calls and the notification in order. */
  lemma KeepsCareful(s: State, l: Label)
    requires Careful(s) && Enabled(s, l)
    ensures Careful(Next(s, l))
  {
    if IsHolderStep(l) {
      HolderStepCareful(s, l);
    } else if IsLoopStep(l) {
      LoopStepCareful(s, l);
    } else {
      match l
      case Spawn(job, barge) => SpawnCareful(s, job, barge);
      case Grant => GrantCareful(s);
      case Leave(i) => LeaveCareful(s, i);
      case StartLoop => StartCareful(s);
      case Stop => StopCareful(s);
      case AskCancel(t) => CancelTaskCareful(s, t);
      case See(b) => SeeCareful(s, b);
      case Hear(e) => HearCareful(s, e);
    }
  }
}
