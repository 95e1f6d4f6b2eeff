/** The cache is exactly what the log says the lock reported. */
module Facts {
  import opened Types
  import opened Cache
  import opened Trace
  import opened Protocol
  import opened Shape

  ghost function AsFact(r: Option<Report>): Option<Fact> {
    if r.Some? then Some(FactOf(r.value)) else None
  }

  /** Every cached fact is the last one reported under its name. */
  ghost predicate Mirrors(v: Values, log: Log) {
    && Paired(v)
    && v.credentialCount != Some(0)
    && forall n: ReadName :: Known(v, n) == AsFact(LastReport(log, n))
  }

  /** The cached values after one log entry. */
  ghost function ValuesAfter(v: Values, e: Entry): Values {
    match e
    case Did(b) =>
      (match b.ended
       case Some(Ending(ReadCall(_), Got(r))) => Apply(v, r)
       case Some(Ending(Operate(lock), Flag(observed))) => Apply(v, SawBolt(observed))
       case Some(Ending(Operate(lock), Nothing)) => Apply(v, SawBolt(lock))
       case _ => v)
    case Heard(event, _) => OnEvent(v, event)
    case Radio(_) => v
  }

  predicate ReplyOk(c: Call, r: Reply) {
    r.Cancelled? || Allowed(c, r)
  }

  /** A call ends with a reply of its type, and a credential read never with an empty table. */
  predicate EndingOk(e: Option<Ending>) {
    e.Some? ==> ReplyOk(e.value.call, e.value.reply) && Delivered(e.value.reply) == e.value.reply
  }

  lemma ReportMirrors(v: Values, log: Log, e: Entry, r: Report)
    requires Mirrors(v, log)
    requires r.SawCredentials? ==> r.rows != []
    requires forall n: ReadName :: Says(e, n) == if n == r.Name() then Some(r) else None
    ensures Mirrors(Apply(v, r), Then(log, e))
  {
    ApplyTouchesOwnName(v, r);
  }

  lemma SilenceMirrors(v: Values, log: Log, e: Entry)
    requires Mirrors(v, log)
    requires forall n: ReadName :: Says(e, n) == None
    ensures Mirrors(v, Then(log, e))
  {
  }

  lemma HeardMirrors(v: Values, log: Log, event: LockEvent, published: bool)
    requires Mirrors(v, log)
    ensures Mirrors(OnEvent(v, event), Then(log, Heard(event, published)))
  {
    var e := Heard(event, published);
    forall n: ReadName
      ensures Known(OnEvent(v, event), n) == AsFact(LastReport(Then(log, e), n))
    {
      assert Known(v, n) == AsFact(LastReport(log, n));
      match n { case _ => }
    }
  }

  lemma BurstMirrors(v: Values, log: Log, b: Burst)
    requires Mirrors(v, log) && EndingOk(b.ended)
    ensures Mirrors(ValuesAfter(v, Did(b)), Then(log, Did(b)))
  {
    match b.ended
    case Some(Ending(ReadCall(_), Got(r))) => ReportMirrors(v, log, Did(b), r);
    case Some(Ending(Operate(lock), Flag(observed))) => ReportMirrors(v, log, Did(b), SawBolt(observed));
    case Some(Ending(Operate(lock), Nothing)) => ReportMirrors(v, log, Did(b), SawBolt(lock));
    case _ => SilenceMirrors(v, log, Did(b));
  }

  // ---- every move stores exactly what its call reported ----

  /** A move stores what its ended call reported; whatever it changes besides a background read's
      authentication failure it pushes; it clears the busy flag exactly when it leaves the lock. */
  ghost predicate Records(job: Job, core: Core, m: Move) {
    && EndingOk(m.burst.ended)
    && m.core.values == ValuesAfter(core.values, Did(m.burst))
    && m.core.lastOperation == core.lastOperation
    && m.core.operationInProgress == (core.operationInProgress && !m.burst.released)
    && (!m.burst.published ==>
          m.core == if Rejects(m.burst) then core.(lastErrorType := Some(AuthenticationError)) else core)
  }

  /** The step saw a read rejected as unauthenticated. */
  predicate Rejects(b: Burst) {
    b.ended.Some? && b.ended.value.call.ReadCall? && b.ended.value.reply == Failed(AuthenticationError)
  }

  lemma ReadRecords(job: Job, c: Call, r: Reply, core: Core, b: Burst)
    requires job.BackgroundRead? && c.ReadCall? && EndingOk(Some(Ending(c, r))) && !core.operationInProgress
    requires b.ended == Some(Ending(c, r)) && !b.published && !b.released
    ensures Records(job, core, FinishRead(core, r, b))
  {
  }

  lemma FinishRecords(job: Job, core: Core, core1: Core, out: Outcome, inLadder: bool, b: Burst)
    requires EndingOk(b.ended) && !b.released
    requires core1.values == ValuesAfter(core.values, Did(b)) && core1.lastOperation == core.lastOperation
    ensures Records(job, core, FinishOperation(job, core1, out, inLadder, b))
  {
  }

  lemma LadderRecords(job: Job, rung: nat, r: Reply, core: Core, cfg: Config, b: Burst)
    requires b.ended == Some(Ending(FrontRead, r)) && ReplyOk(FrontRead, r) && !b.published && !b.released
    ensures Records(job, core, ClimbLadder(job, rung, r, core, cfg, b))
  {
    FinishRecords(job, core, core, Raised(PresenceRequiredError), true, b);
  }

  lemma ActionRecords(job: Job, r: Reply, core: Core, b: Burst)
    requires job.IsOperation() && Allowed(Action(job), r) && !r.Failed?
    requires b.ended == Some(Ending(Action(job), r)) && !b.published && !b.released
    ensures Records(job, core, AfterAction(job, r, core, b))
  {
  }

  lemma ReplyRecords(job: Job, c: Call, rung: nat, r: Reply, core: Core, cfg: Config, b: Burst)
    requires !job.RealtimeLoop? && CallOk(job, c, rung, cfg) && EndingOk(Some(Ending(c, r)))
    requires job.BackgroundRead? ==> !core.operationInProgress
    requires !b.published && !b.released
    ensures Records(job, core, OnReply(job, c, rung, r, core, cfg, b))
  {
    var b1 := b.(ended := Some(Ending(c, r)));
    if job.BackgroundRead? {
      ReadRecords(job, c, r, core, b1);
    } else if !r.Failed? && !r.Cancelled? {
      if c == FrontRead {
        LadderRecords(job, rung, r, core, cfg, b1);
      } else if c == Action(job) {
        ActionRecords(job, r, core, b1);
      }
    }
  }

  lemma AttemptRecords(job: Job, ses: Session, rung: nat, r: Reply, core: Core, cfg: Config, b: Burst)
    requires !job.RealtimeLoop? && CallOk(job, ses.call, rung, cfg) && ReplyOk(ses.call, r)
    requires job.BackgroundRead? ==> !core.operationInProgress
    requires b.ended == None && !b.published && !b.released
    ensures Records(job, core, EndAttempt(job, ses, rung, r, core, cfg, b))
  {
    ReplyRecords(job, ses.call, rung, Delivered(r), core, cfg, b.(table := TableIn(r)));
  }

  lemma ProgressRecords(t: nat, job: Job, ses: Session, rung: nat, i: Input, core: Core, cfg: Config)
    requires PcOk(job, InCall(ses, rung), cfg) && InputOk(ses, i)
    requires job.BackgroundRead? ==> !core.operationInProgress
    ensures Records(job, core, Progress(job, ses, rung, i, core, cfg, Quiet(t)))
  {
    if i.Broke? {
      AttemptRecords(job, ses, rung, i.reply, core, cfg, Quiet(t));
    } else if i.HungUp? {
      AttemptRecords(job, ses, rung, ses.phase.reply, core, cfg, Quiet(t).(disconnected := true));
    }
  }

  lemma AbortRecords(t: nat, job: Job, pc: Pc, core: Core, cfg: Config)
    requires PcOk(job, pc, cfg) && Holds(pc) && !pc.Listening?
    requires job.BackgroundRead? ==> !core.operationInProgress
    ensures Records(job, core, Abort(job, pc, core, cfg, Quiet(t)))
  {
    if pc.InCall? {
      var ses := pc.session;
      if ses.phase.Closing? {
        AttemptRecords(job, ses, pc.rung, ses.phase.reply, core, cfg, Quiet(t).(disconnected := true));
        ReplyRecords(job, ses.call, pc.rung, Cancelled, core, cfg, Quiet(t).(disconnected := true));
      } else {
        ReplyRecords(job, ses.call, pc.rung, Cancelled, core, cfg, Quiet(t));
      }
    }
  }

  lemma MovesRecord(s: State, l: Label)
    requires Inv(s) && IsHolderStep(l) && Enabled(s, l)
    requires s.tasks[l.tid].job.BackgroundRead? ==> !s.core.operationInProgress
    ensures Records(s.tasks[l.tid].job, s.core, MoveOf(s, l))
  {
    var t, job, pc := l.tid, s.tasks[l.tid].job, s.tasks[l.tid].pc;
    match l
    case Step(_, i) => ProgressRecords(t, job, pc.session, pc.rung, i, s.core, s.cfg);
    case Abandon(_) => AbortRecords(t, job, pc, s.core, s.cfg);
    case WakeUp(_) =>
  }

  // ---- the books: busy flag, last operation, published snapshot ----

  /** An operation holds the lock. */
  predicate Busy(s: State) {
    s.holder.Some? && s.holder.value < |s.tasks| && s.tasks[s.holder.value].job.IsOperation()
  }

  /** The published snapshot is the current one, except that the error type of a rejected
      background read may not have been pushed yet. */
  predicate Published(s: State) {
    var now := BuildSnapshot(s.core, s.bluetooth);
    && (AuthLag(s.log) ==> s.core.lastErrorType == Some(AuthenticationError))
    && (s.data == now || (AuthLag(s.log) && s.data.(lastErrorType := Some(AuthenticationError)) == now))
  }

  predicate Books(s: State) {
    && (s.core.operationInProgress <==> Busy(s))
    && (Busy(s) ==> s.core.lastOperation == Some(s.tasks[s.holder.value].job))
    && Published(s)
  }

  ghost predicate Honest(s: State) {
    Inv(s) && Mirrors(s.core.values, s.log) && Books(s)
  }

  lemma HolderStepHonest(s: State, l: Label)
    requires Honest(s) && IsHolderStep(l) && Enabled(s, l)
    ensures Honest(Next(s, l))
  {
    MovesOk(s, l);
    MovesRecord(s, l);
    HolderStepKeeps(s, l);
    var m := MoveOf(s, l);
    BurstMirrors(s.core.values, s.log, m.burst);
    CommitBooks(s, l.tid, m);
  }

  lemma CommitBooks(s: State, t: nat, m: Move)
    requires Books(s) && t < |s.tasks| && s.holder == Some(t) && !m.burst.granted
    requires Records(s.tasks[t].job, s.core, m)
    ensures Books(Commit(s, t, m))
  {
  }

  lemma EnterBooks(s: State, s0: State, t: nat, b: Burst)
    requires Honest(s) && s.holder == None && t < |s0.tasks| && !s0.tasks[t].job.RealtimeLoop?
    requires s0.log == s.log && s0.core == s.core && s0.data == s.data && s0.bluetooth == s.bluetooth
    requires s0.holder == None
    requires b.ended == None && !b.published && !b.released && b.tid == t
    ensures Books(Commit(s0, t, Enter(s0.tasks[t].job, s.core, s.bluetooth.reachable, b)))
  {
    assert !s.core.operationInProgress;
  }

  lemma EnterHonest(s: State, s0: State, t: nat, b: Burst)
    requires Honest(s) && s.holder == None && t < |s0.tasks| && !s0.tasks[t].job.RealtimeLoop?
    requires s0.log == s.log && s0.core == s.core && s0.data == s.data && s0.bluetooth == s.bluetooth
    requires s0.holder == None
    requires b.ended == None && !b.published && !b.released && b.tid == t
    ensures var s1 := Commit(s0, t, Enter(s0.tasks[t].job, s.core, s.bluetooth.reachable, b));
            Mirrors(s1.core.values, s1.log) && Books(s1)
  {
    EnterBooks(s, s0, t, b);
    var m := Enter(s0.tasks[t].job, s.core, s.bluetooth.reachable, b);
    assert m.core.values == s.core.values && m.burst.ended == None;
    SilenceMirrors(s.core.values, s.log, Did(m.burst));
  }

  lemma SpawnHonest(s: State, job: Job, barge: bool)
    requires Honest(s) && Enabled(s, Spawn(job, barge))
    ensures Honest(SpawnNext(s, job, barge))
  {
    SpawnKeeps(s, job, barge);
    if !(job.BackgroundRead? && !s.bluetooth.reachable) {
      var b := Quiet(|s.tasks|).(arrived := Some(0 in s.waiters));
      if barge {
        EnterHonest(s, Arrive(s, job), |s.tasks|, b);
      } else {
        SilenceMirrors(s.core.values, s.log, Did(b));
      }
    }
  }

  lemma GrantHonest(s: State)
    requires Honest(s) && Enabled(s, Grant)
    ensures Honest(GrantNext(s))
  {
    GrantKeeps(s);
    var t := s.waiters[0];
    if t == 0 {
      EnterLoopHonest(s, s.(waiters := s.waiters[1..]));
    } else {
      EnterHonest(s, s.(waiters := s.waiters[1..]), t, Quiet(t));
    }
  }

  lemma EnterLoopHonest(s: State, s0: State)
    requires Honest(s) && s.holder == None && s0 == s.(waiters := s0.waiters)
    ensures Mirrors(EnterLoop(s0).core.values, EnterLoop(s0).log) && Books(EnterLoop(s0))
  {
    SilenceMirrors(s.core.values, s.log, EnterLoop(s0).log.last);
  }

  /** A step that neither reports nor changes the books. */
  lemma QuietHonest(s: State, s0: State, t: nat, pc: Pc, note: Note, left: bool)
    requires Honest(s) && t < |s.tasks| && s0 == s.(waiters := s0.waiters)
    ensures var s1 := Commit(s0, t, Move(pc, s.core, note, Quiet(t).(left := left)));
            Mirrors(s1.core.values, s1.log) && Books(s1)
  {
    SilenceMirrors(s.core.values, s.log, Did(Quiet(t).(left := left)));
  }

  lemma LoopWakeHonest(s: State, barge: bool)
    requires Honest(s) && Enabled(s, LoopWake(barge))
    ensures Honest(LoopTop(s, barge))
  {
    LoopWakeKeeps(s, barge);
    if s.stop || !s.bluetooth.reachable {
      QuietHonest(s, s, 0, LoopTop(s, barge).tasks[0].pc, Keep, false);
    } else if barge {
      EnterLoopHonest(s, s);
    } else {
      QuietHonest(s, s.(waiters := s.waiters + [0]), 0, Queued, Keep, false);
    }
  }

  lemma LeaveHonest(s: State, i: nat)
    requires Honest(s) && Enabled(s, Leave(i))
    ensures Honest(LeaveNext(s, i))
  {
    LeaveKeeps(s, i);
    var t := s.waiters[i];
    var s0 := s.(waiters := s.waiters[..i] + s.waiters[i + 1..]);
    QuietHonest(s, s0, t, if t == 0 && !s.stop then Pausing else Done(WasCancelled),
                if t > 0 && s.tasks[t].job.Announced() then Drop else Keep, true);
  }

  lemma MoveListenHonest(s: State, phase: Phase, b: Burst)
    requires Honest(s) && s.handle.Some? && !phase.Resting?
    requires b.ended == None && !b.published
    ensures Honest(MoveListen(s, phase, b))
  {
    MoveListenKeeps(s, phase, b);
    SilenceMirrors(s.core.values, s.log, Did(b));
  }

  lemma ResumeHonest(s: State)
    requires Honest(s) && Enabled(s, LoopResume)
    ensures Honest(ResumeNext(s))
  {
    ResumeKeeps(s);
    SilenceMirrors(s.core.values, s.log, ResumeNext(s).log.last);
  }

  lemma LoopStepHonest(s: State, l: Label)
    requires Honest(s) && Enabled(s, l) && IsLoopStep(l)
    ensures Honest(Next(s, l))
  {
    match l
    case ListenStep(i) =>
      MoveListenHonest(s, ListenPhase(s.handle.value.phase, i),
                       Quiet(0).(connected := i.Dialed?, disconnected := i.HungUp?));
    case ListenCancel =>
      MoveListenHonest(s, HangUpPhase(s.handle.value.phase), Quiet(0).(disconnected := s.handle.value.phase.Closing?));
    case LoopResume => ResumeHonest(s);
    case LoopCancel =>
      LoopRestsKeeps(s, Done(WasCancelled));
      QuietHonest(s, s, 0, Done(WasCancelled), Keep, false);
    case LoopWake(barge) => LoopWakeHonest(s, barge);
  }

  lemma CancelTaskHonest(s: State, t: nat)
    requires Honest(s) && t < |s.tasks|
    ensures Honest(CancelTask(s, t))
  {
    CancelTaskKeeps(s, t);
  }

  lemma StopHonest(s: State)
    requires Honest(s)
    ensures Honest(StopNext(s))
  {
    var s1 := s.(stop := true, handle := Preempt(s.handle), started := false);
    assert Honest(s1);
    CancelTaskHonest(s1, 0);
  }

  lemma StartHonest(s: State)
    requires Honest(s) && Enabled(s, StartLoop)
    ensures Honest(Next(s, StartLoop))
  {
    StartKeeps(s);
  }

  lemma SeeHonest(s: State, b: BluetoothState)
    requires Honest(s)
    ensures Honest(Next(s, See(b)))
  {
    SilenceMirrors(s.core.values, s.log, Radio(b));
  }

  lemma HearHonest(s: State, e: LockEvent)
    requires Honest(s)
    ensures Honest(HearNext(s, e))
  {
    var core1 := s.core.(values := OnEvent(s.core.values, e));
    HeardMirrors(s.core.values, s.log, e, core1 != s.core);
  }

  /** Every step keeps the cache, the busy flag and the snapshot honest. */
  lemma KeepsHonest(s: State, l: Label)
    requires Honest(s) && Enabled(s, l)
    ensures Honest(Next(s, l))
  {
    if IsHolderStep(l) {
      HolderStepHonest(s, l);
    } else if IsLoopStep(l) {
      LoopStepHonest(s, l);
    } else {
      match l
      case Spawn(job, barge) => SpawnHonest(s, job, barge);
      case Grant => GrantHonest(s);
      case Leave(i) => LeaveHonest(s, i);
      case StartLoop => StartHonest(s);
      case Stop => StopHonest(s);
      case AskCancel(t) => CancelTaskHonest(s, t);
      case See(b) => SeeHonest(s, b);
      case Hear(e) => HearHonest(s, e);
    }
  }
}
