/** Auxiliary toggles in whole runs: the lock's mask, what was asked for, and when the two agree. */
module Toggles {
  import opened Types
  import opened Cache
  import opened Trace
  import opened Protocol
  import opened Shape
  import opened Facts
  import opened Credentials
  import opened Masks
  import opened Theorems
  import opened Auxiliary

  // ---- the lock's mask, as the log tells it ----

  /** The toggle write that this entry shows to have taken effect: its client call was acknowledged. */
  function Landed(e: Entry): Option<WriteOp> {
    match e
    case Did(b) =>
      (match b.ended
       case Some(Ending(SetCall(op), Nothing)) => if op.SetAuxiliary? then Some(op) else None
       case _ => None)
    case _ => None
  }

  /** The mask the lock holds: every write that takes effect overwrites all of it. */
  function LockMask(start: Mask, log: Log): Mask {
    match log
    case Empty => start
    case Then(past, e) => if Landed(e).Some? then Landed(e).value.mask else LockMask(start, past)
  }

  /** What the callers of those writes asked for: single-toggle assignments in the order of the lock. */
  function Wanted(start: Mask, log: Log): Mask {
    match log
    case Empty => start
    case Then(past, e) =>
      if Landed(e).Some? then Wanted(start, past)[Landed(e).value.toggle := Landed(e).value.enabled]
      else Wanted(start, past)
  }

  lemma {:induction false} WantedIsFull(start: Mask, log: Log)
    requires Full(start)
    ensures Full(Wanted(start, log))
    decreases log
  {
    if log.Then? {
      WantedIsFull(start, log.past);
      if Landed(log.last).Some? {
        FourToggles(Landed(log.last).value.toggle);
      }
    }
  }

  // ---- exactly when the lock holds what was asked for ----

  /** After every entry of the log the lock holds what was asked for. */
  predicate Followed(start: Mask, log: Log) {
    LockMask(start, log) == Wanted(start, log) && (log.Then? ==> Followed(start, log.past))
  }

  /** Each landed write found the other toggles as they were cached when it was called. */
  predicate UndisturbedIn(start: Mask, log: Log) {
    match log
    case Empty => true
    case Then(past, e) =>
      && UndisturbedIn(start, past)
      && (Landed(e).Some? ==>
            AgreeExceptOn(Filled(MaskAtArrival(past, e.burst.tid)), Wanted(start, past), Landed(e).value.toggle))
  }

  /** Each landed write sent one assignment on the mask that was cached when it was called. */
  predicate WrittenIn(log: Log) {
    match log
    case Empty => true
    case Then(past, e) =>
      && WrittenIn(past)
      && (Landed(e).Some? ==>
            Landed(e).value.mask
            == BuildMask(MaskAtArrival(past, e.burst.tid), Landed(e).value.toggle, Landed(e).value.enabled))
  }

  lemma {:induction false} FollowedMeansUndisturbed(start: Mask, log: Log)
    requires Full(start) && WrittenIn(log)
    ensures Followed(start, log) <==> UndisturbedIn(start, log)
    decreases log
  {
    if log.Then? {
      var past, e := log.past, log.last;
      FollowedMeansUndisturbed(start, past);
      WantedIsFull(start, past);
      if Landed(e).Some? {
        var op := Landed(e).value;
        SameUpToOne(Filled(MaskAtArrival(past, e.burst.tid)), Wanted(start, past), op.toggle, op.enabled);
      }
    }
  }

  predicate IsToggle(job: Job) {
    job.Write? && job.op.SetAuxiliary?
  }

  /** A step of a task that holds the lock only ends the write of its own job. */
  lemma HolderLandsOwn(s: State, l: Label)
    requires Inv(s) && IsHolderStep(l) && Enabled(s, l)
    ensures var b := MoveOf(s, l).burst;
            Landed(Did(b)).Some? ==> b.tid == l.tid && s.tasks[l.tid].job == Write(Landed(Did(b)).value)
  {
    MovesOk(s, l);
    HolderEndsOwn(s, l);
  }

  /** A call that ends is the one its task was in. */
  lemma HolderEndsOwn(s: State, l: Label)
    requires Inv(s) && IsHolderStep(l) && Enabled(s, l)
    ensures var pc, b := s.tasks[l.tid].pc, MoveOf(s, l).burst;
            b.ended.Some? ==> pc.InCall? && b.ended.value.call == pc.session.call
    ensures PcOk(s.tasks[l.tid].job, s.tasks[l.tid].pc, s.cfg)
  {
    var t, job, pc := l.tid, s.tasks[l.tid].job, s.tasks[l.tid].pc;
    assert PcOk(job, pc, s.cfg);
    if pc.InCall? {
      var ses, hang := pc.session, Quiet(t).(disconnected := true);
      if l.Step? {
        if l.input.Broke? {
          AttemptEndsOwn(job, ses, pc.rung, l.input.reply, s.core, s.cfg, Quiet(t));
        } else if l.input.HungUp? {
          AttemptEndsOwn(job, ses, pc.rung, ses.phase.reply, s.core, s.cfg, hang);
        }
      } else {
        if ses.phase.Closing? {
          AttemptEndsOwn(job, ses, pc.rung, ses.phase.reply, s.core, s.cfg, hang);
        }
        ReplyKeepsTable(job, ses.call, pc.rung, Cancelled, s.core, s.cfg, hang);
        ReplyKeepsTable(job, ses.call, pc.rung, Cancelled, s.core, s.cfg, Quiet(t));
      }
    }
  }

  lemma AttemptEndsOwn(job: Job, ses: Session, rung: nat, r: Reply, core: Core, cfg: Config, b: Burst)
    requires b.ended == None
    ensures var ended := EndAttempt(job, ses, rung, r, core, cfg, b).burst.ended;
            ended.Some? ==> ended.value.call == ses.call
  {
    ReplyKeepsTable(job, ses.call, rung, Delivered(r), core, cfg, b.(table := TableIn(r)));
  }

  /** No other step ends a one-shot task's call. */
  lemma OthersReadNothing(s: State, l: Label)
    requires Inv(s) && Enabled(s, l) && !IsHolderStep(l)
    ensures ReadsNothing(s, l)
  {
    if l.Spawn? {
      SpawnReadsNothing(s, l.job, l.barge);
    } else if l.Grant? {
      GrantReadsNothing(s);
    } else if IsLoopStep(l) {
      LoopReadsNothing(s, l);
    } else {
      RestReadsNothing(s, l);
    }
  }

  lemma KeepsWritten(s: State, l: Label)
    requires Inv(s) && Built(s) && Enabled(s, l) && WrittenIn(s.log)
    ensures WrittenIn(Next(s, l).log)
  {
    if IsHolderStep(l) {
      HolderLandsOwn(s, l);
      assert Next(s, l) == Commit(s, l.tid, MoveOf(s, l));
      assert Assigns(s.tasks[l.tid].job, MaskAtArrival(s.log, l.tid));
    } else {
      OthersReadNothing(s, l);
    }
  }

  lemma {:induction false} RunWritten(s: State, run: seq<Label>)
    requires Honest(s) && Built(s) && IsRun(s, run) && WrittenIn(s.log)
    ensures WrittenIn(After(s, run).log)
    decreases |run|
  {
    if run != [] {
      KeepsHonest(s, run[0]);
      KeepsBuilt(s, run[0]);
      KeepsWritten(s, run[0]);
      RunWritten(Next(s, run[0]), run[1..]);
    }
  }

  /** In every run, whatever overlaps, fails or is cancelled: the lock holds what was asked for after every
      write if and only if each write found the other toggles as they were cached when it was called. */
  lemma LockFollowsIffUndisturbed(s: State, start: Mask)
    requires Reachable(s) && Full(start)
    ensures Followed(start, s.log) <==> UndisturbedIn(start, s.log)
  {
    var cfg, b, run :| Leads(cfg, b, run, s);
    InitIsHonest(cfg, b);
    RunWritten(Init(cfg, b), run);
    FollowedMeansUndisturbed(start, s.log);
  }

  // ---- a toggle nobody names ----

  /** Every read of the mask that ended with a value brought the lock's mask. */
  predicate TruthfulIn(start: Mask, log: Log) {
    match log
    case Empty => true
    case Then(past, e) => TruthfulIn(start, past) && TellsTruth(start, past, e)
  }

  predicate NeverNamed(log: Log, x: Toggle) {
    match log
    case Empty => true
    case Then(past, e) => NeverNamed(past, x) && (Landed(e).Some? ==> Landed(e).value.toggle != x)
  }

  /** After every entry of the log the lock holds toggle x as at the start. */
  predicate KeptIn(start: Mask, log: Log, x: Toggle) {
    && x in LockMask(start, log) && x in start && LockMask(start, log)[x] == start[x]
    && (log.Then? ==> KeptIn(start, log.past, x))
  }

  /** Each landed write was called with the mask known, unless the toggle was off from the start. */
  predicate KnownOrOffIn(start: Mask, log: Log, x: Toggle) {
    match log
    case Empty => true
    case Then(past, e) =>
      && KnownOrOffIn(start, past, x)
      && (Landed(e).Some? ==> MaskAtArrival(past, e.burst.tid).Some? || (x in start && !start[x]))
  }

  /** The mask has the toggle as at the start. */
  predicate HasAs(start: Mask, mask: Option<Mask>, x: Toggle) {
    mask.Some? && x in start ==> x in mask.value && mask.value[x] == start[x]
  }

  lemma {:induction false} ReportsHaveKept(start: Mask, log: Log, x: Toggle)
    requires TruthfulIn(start, log) && KeptIn(start, log, x)
    ensures HasAs(start, MaskIn(LastReport(log, AuxiliaryLocking)), x)
    decreases log
  {
    if log.Then? {
      ReportsHaveKept(start, log.past, x);
    }
  }

  lemma {:induction false} ArrivalsHaveKept(start: Mask, log: Log, x: Toggle, t: nat)
    requires TruthfulIn(start, log) && KeptIn(start, log, x)
    ensures HasAs(start, MaskAtArrival(log, t), x)
    decreases log
  {
    if log.Then? {
      ArrivalsHaveKept(start, log.past, x, t);
      ReportsHaveKept(start, log.past, x);
    }
  }

  lemma {:induction false} KeptMeansKnownOrOff(start: Mask, log: Log, x: Toggle)
    requires Full(start) && WrittenIn(log) && TruthfulIn(start, log) && NeverNamed(log, x)
    ensures KeptIn(start, log, x) <==> KnownOrOffIn(start, log, x)
    decreases log
  {
    FourToggles(x);
    if log.Then? {
      KeptMeansKnownOrOff(start, log.past, x);
      if Landed(log.last).Some? && KeptIn(start, log.past, x) {
        ArrivalsHaveKept(start, log.past, x, log.last.burst.tid);
      }
    }
  }

  /** In every run in which the lock reports its own mask and no landed write names toggle x, whatever
      overlaps, fails or is cancelled: the lock keeps x as at the start if and only if each landed write was
      called with the mask known, or x was off from the start. */
  lemma UnnamedIsKeptIffKnown(s: State, start: Mask, x: Toggle)
    requires Reachable(s) && Full(start) && TruthfulIn(start, s.log) && NeverNamed(s.log, x)
    ensures KeptIn(start, s.log, x) <==> KnownOrOffIn(start, s.log, x)
  {
    var cfg, b, run :| Leads(cfg, b, run, s);
    InitIsHonest(cfg, b);
    RunWritten(Init(cfg, b), run);
    KeptMeansKnownOrOff(start, s.log, x);
  }

  // ---- toggles one after another ----

  function CachedMask(s: State): Option<Mask> {
    s.core.values.settings.auxiliaryLocking
  }

  /** The task is a toggle that has not ended. */
  predicate Outstanding(task: Task) {
    IsToggle(task.job) && !task.pc.Done?
  }

  /** The task is a toggle whose write landed and is being read back. */
  predicate Confirming(task: Task) {
    IsToggle(task.job) && task.pc.InCall? && task.pc.session.call == ReadCall(AuxiliaryLocking)
  }

  ghost predicate NoneOutstanding(s: State) {
    forall t | 0 <= t < |s.tasks| :: !Outstanding(s.tasks[t])
  }

  ghost predicate NoneConfirming(s: State) {
    forall t | 0 <= t < |s.tasks| :: !Confirming(s.tasks[t])
  }

  /** The mask a step's ended read brought. */
  function MaskRead(b: Burst): Option<Mask> {
    if b.ended.Some? && b.ended.value.reply.Got? && b.ended.value.reply.report.SawAuxiliary?
    then Some(b.ended.value.reply.report.mask) else None
  }

  /** A read of the mask that ends with a value brings the lock's mask. */
  predicate TellsTruth(start: Mask, past: Log, e: Entry) {
    e.Did? && MaskRead(e.burst).Some? ==> MaskRead(e.burst).value == LockMask(start, past)
  }

  /** The read that confirms a toggle brings a value. */
  predicate Confirms(tasks: seq<Task>, e: Entry) {
    e.Did? && e.burst.tid < |tasks| && Confirming(tasks[e.burst.tid]) && e.burst.ended.Some? ==>
      e.burst.ended.value.reply.Got?
  }

  /** What callers and the lock keep to: a toggle is called when the mask is known and no toggle is
      outstanding, the lock reports its own mask, and each landed toggle is confirmed. */
  ghost predicate Orderly(start: Mask, s: State, l: Label)
    requires Enabled(s, l)
  {
    var log1 := Next(s, l).log;
    && (l.Spawn? && IsToggle(l.job) ==> NoneOutstanding(s) && CachedMask(s).Some?)
    && (log1 != s.log && log1.Then? ==> TellsTruth(start, s.log, log1.last) && Confirms(s.tasks, log1.last))
  }

  ghost predicate OrderlyRun(start: Mask, s: State, run: seq<Label>)
    requires IsRun(s, run)
    decreases |run|
  {
    run == [] || (Orderly(start, s, run[0]) && OrderlyRun(start, Next(s, run[0]), run[1..]))
  }

  /** A toggle that is yet to write sends one assignment on the lock's present mask. */
  predicate Ready(task: Task, mask: Mask) {
    Outstanding(task) && !Confirming(task) ==> task.job.op.mask == mask[task.job.op.toggle := task.job.op.enabled]
  }

  ghost predicate InStep(start: Mask, s: State) {
    && LockMask(start, s.log) == Wanted(start, s.log)
    && (forall t, u | 0 <= t < |s.tasks| && 0 <= u < |s.tasks| ::
          Outstanding(s.tasks[t]) && Outstanding(s.tasks[u]) ==> t == u)
    && (forall t | 0 <= t < |s.tasks| :: Ready(s.tasks[t], LockMask(start, s.log)))
    && (NoneConfirming(s) && CachedMask(s).Some? ==> CachedMask(s).value == LockMask(start, s.log))
  }

  // ---- steps outside a toggle's hold ----

  /** The step leaves the lock's mask, the cached one and the standing of every toggle alone. */
  ghost predicate Apart(start: Mask, s: State, s1: State) {
    LockMask(start, s1.log) == LockMask(start, s.log) && Wanted(start, s1.log) == Wanted(start, s.log) && Stands(s, s1)
  }

  predicate SameStanding(task: Task, task1: Task) {
    && task1.job == task.job
    && (Outstanding(task1) ==> Outstanding(task))
    && (Confirming(task1) <==> Confirming(task))
  }

  lemma ApartKeepsStep(start: Mask, s: State, s1: State)
    requires InStep(start, s) && Apart(start, s, s1)
    ensures InStep(start, s1)
  {
    forall t | 0 <= t < |s1.tasks| ensures Ready(s1.tasks[t], LockMask(start, s1.log)) {
      assert Ready(s.tasks[t], LockMask(start, s.log)) && SameStanding(s.tasks[t], s1.tasks[t]);
    }
    if NoneConfirming(s1) {
      forall t | 0 <= t < |s.tasks| ensures !Confirming(s.tasks[t]) {
        assert SameStanding(s.tasks[t], s1.tasks[t]) && !Confirming(s1.tasks[t]);
      }
    }
  }

  lemma SilentEntry(start: Mask, log: Log, log1: Log)
    requires log1 == log || (log1.Then? && log1.past == log && NoRead(log1.last))
    ensures LockMask(start, log1) == LockMask(start, log) && Wanted(start, log1) == Wanted(start, log)
  {
  }

  lemma NothingReadNothingLanded(start: Mask, s: State, l: Label)
    requires Enabled(s, l) && ReadsNothing(s, l)
    ensures LockMask(start, Next(s, l).log) == LockMask(start, s.log)
    ensures Wanted(start, Next(s, l).log) == Wanted(start, s.log)
  {
    SilentEntry(start, s.log, Next(s, l).log);
  }

  ghost predicate Stands(s: State, s1: State) {
    && CachedMask(s1) == CachedMask(s) && |s1.tasks| == |s.tasks|
    && (forall t | 0 <= t < |s.tasks| :: SameStanding(s.tasks[t], s1.tasks[t]))
  }

  lemma GrantApart(s: State)
    requires Inv(s) && Enabled(s, Grant)
    ensures Stands(s, GrantNext(s))
  {
    var t, s1 := s.waiters[0], GrantNext(s);
    if t == 0 {
      LoopOnlyStands(s, s1);
    } else {
      var m := Enter(s.tasks[t].job, s.core, s.bluetooth.reachable, Quiet(t));
      EnterStands(s.tasks[t], s.core, s.bluetooth.reachable, Quiet(t));
      assert s1.tasks == s.tasks[t := s.tasks[t].(pc := m.pc, cancel := false)] && s1.core == m.core;
    }
  }

  lemma EnterStands(task: Task, core: Core, reachable: bool, b: Burst)
    requires task.pc.Queued?
    ensures var m := Enter(task.job, core, reachable, b);
            m.core.values == core.values && SameStanding(task, task.(pc := m.pc, cancel := false))
  {
  }

  lemma LeaveApart(s: State, i: nat)
    requires Inv(s) && Enabled(s, Leave(i))
    ensures Stands(s, LeaveNext(s, i))
  {
    assert s.tasks[s.waiters[i]].pc.Queued?;
  }

  /** A step that touches no task but the loop. */
  lemma LoopOnlyStands(s: State, s1: State)
    requires Inv(s) && s1.core.values.settings == s.core.values.settings && |s1.tasks| == |s.tasks|
    requires s1.tasks[0].job == s.tasks[0].job && s1.tasks[1..] == s.tasks[1..]
    ensures Stands(s, s1)
  {
    assert s.tasks[0].job.RealtimeLoop?;
    forall t | 0 < t < |s.tasks| ensures s1.tasks[t] == s.tasks[t] {
      assert s1.tasks[1..][t - 1] == s.tasks[1..][t - 1];
    }
  }

  lemma LoopWakeApart(s: State, barge: bool)
    requires Inv(s) && Enabled(s, LoopWake(barge))
    ensures Stands(s, LoopTop(s, barge))
  {
    LoopOnlyStands(s, LoopTop(s, barge));
  }

  lemma LoopApart(s: State, l: Label)
    requires Inv(s) && Enabled(s, l) && IsLoopStep(l)
    ensures Stands(s, Next(s, l))
  {
    if l.LoopWake? {
      LoopWakeApart(s, l.barge);
    } else {
      LoopOnlyStands(s, Next(s, l));
    }
  }

  lemma CancelApart(s: State, t: nat)
    requires Inv(s) && t < |s.tasks|
    ensures Stands(s, CancelTask(s, t))
  {
    var s1 := CancelTask(s, t);
    assert s1.core == s.core && |s1.tasks| == |s.tasks|;
    forall u | 0 <= u < |s.tasks| ensures SameStanding(s.tasks[u], s1.tasks[u]) {
      assert s1.tasks[u] == s.tasks[u].(cancel := s1.tasks[u].cancel);
    }
  }

  lemma StopApart(s: State)
    requires Inv(s)
    ensures Stands(s, StopNext(s))
  {
    LoopOnlyStands(s, StopNext(s));
  }

  lemma WorldApart(s: State, l: Label)
    requires Inv(s) && Enabled(s, l) && (l.StartLoop? || l.Stop? || l.AskCancel? || l.See? || l.Hear?)
    ensures Stands(s, Next(s, l))
  {
    if l.Stop? {
      StopApart(s);
    } else if l.AskCancel? {
      CancelApart(s, l.tid);
    } else {
      LoopOnlyStands(s, Next(s, l));
    }
  }

  lemma OtherStepInStep(start: Mask, s: State, l: Label)
    requires Inv(s) && InStep(start, s) && Enabled(s, l) && !IsHolderStep(l) && !l.Spawn?
    ensures InStep(start, Next(s, l))
  {
    OthersReadNothing(s, l);
    NothingReadNothingLanded(start, s, l);
    if l.Grant? {
      GrantApart(s);
    } else if l.Leave? {
      LeaveApart(s, l.index);
    } else if IsLoopStep(l) {
      LoopApart(s, l);
    } else {
      WorldApart(s, l);
    }
    ApartKeepsStep(start, s, Next(s, l));
  }

  // ---- a job is called ----

  lemma SpawnStands(s: State, job: Job, barge: bool)
    requires Inv(s) && Enabled(s, Spawn(job, barge))
    ensures var s1 := SpawnNext(s, job, barge);
            && CachedMask(s1) == CachedMask(s) && |s1.tasks| == |s.tasks| + 1
            && (forall t | 0 <= t < |s.tasks| :: s1.tasks[t] == s.tasks[t])
            && s1.tasks[|s.tasks|].job == job && !Confirming(s1.tasks[|s.tasks|])
  {
  }

  lemma CalledIsReady(start: Mask, s: State, job: Job, barge: bool)
    requires InStep(start, s) && Enabled(s, Spawn(job, barge)) && Full(start)
    requires IsToggle(job) ==> NoneOutstanding(s) && CachedMask(s).Some?
    ensures IsToggle(job) ==> job.op.mask == LockMask(start, s.log)[job.op.toggle := job.op.enabled]
  {
    if IsToggle(job) {
      WantedIsFull(start, s.log);
      forall t | 0 <= t < |s.tasks| ensures !Confirming(s.tasks[t]) {
        assert !Outstanding(s.tasks[t]);
      }
    }
  }

  /** One more task, which is ready if it is a toggle, and then the only one outstanding. */
  lemma OneMoreInStep(start: Mask, s: State, s1: State)
    requires InStep(start, s) && |s1.tasks| == |s.tasks| + 1
    requires LockMask(start, s1.log) == LockMask(start, s.log) && Wanted(start, s1.log) == Wanted(start, s.log)
    requires CachedMask(s1) == CachedMask(s) && forall t | 0 <= t < |s.tasks| :: s1.tasks[t] == s.tasks[t]
    requires var task := s1.tasks[|s.tasks|];
             !Confirming(task) && Ready(task, LockMask(start, s.log)) && (IsToggle(task.job) ==> NoneOutstanding(s))
    ensures InStep(start, s1)
  {
    forall t | 0 <= t < |s1.tasks| ensures Ready(s1.tasks[t], LockMask(start, s1.log)) {
      assert t < |s.tasks| ==> Ready(s.tasks[t], LockMask(start, s.log));
    }
    if NoneConfirming(s1) {
      forall t | 0 <= t < |s.tasks| ensures !Confirming(s.tasks[t]) {
        assert !Confirming(s1.tasks[t]);
      }
    }
  }

  lemma SpawnInStep(start: Mask, s: State, job: Job, barge: bool)
    requires Inv(s) && InStep(start, s) && Enabled(s, Spawn(job, barge)) && Full(start)
    requires Orderly(start, s, Spawn(job, barge))
    ensures InStep(start, SpawnNext(s, job, barge))
  {
    SpawnStands(s, job, barge);
    SpawnReadsNothing(s, job, barge);
    NothingReadNothingLanded(start, s, Spawn(job, barge));
    CalledIsReady(start, s, job, barge);
    OneMoreInStep(start, s, SpawnNext(s, job, barge));
  }

  // ---- steps of the task that holds the lock ----

  /** What a step does with the write or the confirming read of its task's toggle. */
  predicate ToggleMove(task: Task, m: Move) {
    && (m.pc.Done? || m.pc.InCall?)
    && (Landed(Did(m.burst)).Some? ==> m.pc.InCall? && m.pc.session.call == ReadCall(AuxiliaryLocking))
    && (!Confirming(task) && Landed(Did(m.burst)).None? ==>
          m.pc.Done? || m.pc.session.call != ReadCall(AuxiliaryLocking))
    && (Confirming(task) && m.pc.InCall? ==> m.pc.session.call == ReadCall(AuxiliaryLocking))
    && (Confirming(task) && m.pc.Done? ==> m.burst.ended.Some?)
  }

  lemma ToggleReply(op: WriteOp, ses: Session, r: Reply, core: Core, cfg: Config, b: Burst)
    requires op.SetAuxiliary? && CallOk(Write(op), ses.call, 0, cfg) && ReplyOk(ses.call, r)
    ensures ToggleMove(Task(Write(op), InCall(ses, 0), false), OnReply(Write(op), ses.call, 0, r, core, cfg, b))
  {
    ReplyKeepsTable(Write(op), ses.call, 0, r, core, cfg, b);
  }

  lemma ToggleAttempt(op: WriteOp, ses: Session, r: Reply, core: Core, cfg: Config, b: Burst)
    requires op.SetAuxiliary? && CallOk(Write(op), ses.call, 0, cfg) && ReplyOk(ses.call, r) && b.ended == None
    ensures ToggleMove(Task(Write(op), InCall(ses, 0), false), EndAttempt(Write(op), ses, 0, r, core, cfg, b))
  {
    ToggleReply(op, ses, Delivered(r), core, cfg, b.(table := TableIn(r)));
  }

  lemma ToggleMoves(s: State, l: Label)
    requires Inv(s) && IsHolderStep(l) && Enabled(s, l) && IsToggle(s.tasks[l.tid].job)
    ensures ToggleMove(s.tasks[l.tid], MoveOf(s, l))
  {
    var t, task := l.tid, s.tasks[l.tid];
    var op, pc := task.job.op, task.pc;
    assert PcOk(task.job, pc, s.cfg);
    var ses, hang := pc.session, Quiet(t).(disconnected := true);
    if l.Step? {
      if l.input.Broke? {
        ToggleAttempt(op, ses, l.input.reply, s.core, s.cfg, Quiet(t));
      } else if l.input.HungUp? {
        ToggleAttempt(op, ses, ses.phase.reply, s.core, s.cfg, hang);
      }
    } else {
      if ses.phase.Closing? {
        ToggleAttempt(op, ses, ses.phase.reply, s.core, s.cfg, hang);
      }
      ToggleReply(op, ses, Cancelled, s.core, s.cfg, hang);
      ToggleReply(op, ses, Cancelled, s.core, s.cfg, Quiet(t));
    }
  }

  lemma RecordedMask(v: Values, b: Burst)
    requires EndingOk(b.ended)
    ensures ValuesAfter(v, Did(b)).settings.auxiliaryLocking
         == if MaskRead(b).Some? then MaskRead(b) else v.settings.auxiliaryLocking
  {
  }

  /** The cached mask after a step of the holder: the reported one if a read of the mask ended with a value. */
  lemma HolderCaches(s: State, l: Label)
    requires Honest(s) && IsHolderStep(l) && Enabled(s, l)
    ensures var b := MoveOf(s, l).burst;
            MoveOf(s, l).core.values.settings.auxiliaryLocking
            == if MaskRead(b).Some? then MaskRead(b) else CachedMask(s)
    ensures EndingOk(MoveOf(s, l).burst.ended)
  {
    MovesOk(s, l);
    MovesRecord(s, l);
    RecordedMask(s.core.values, MoveOf(s, l).burst);
  }

  lemma ConfirmedIsRead(s: State, l: Label)
    requires Honest(s) && IsHolderStep(l) && Enabled(s, l) && Confirming(s.tasks[l.tid])
    requires MoveOf(s, l).burst.tid == l.tid && MoveOf(s, l).burst.ended.Some?
    requires Confirms(s.tasks, Did(MoveOf(s, l).burst))
    ensures MaskRead(MoveOf(s, l).burst).Some?
  {
    HolderEndsOwn(s, l);
    HolderCaches(s, l);
  }

  lemma HolderToggleInStep(start: Mask, s: State, l: Label)
    requires Honest(s) && InStep(start, s) && IsHolderStep(l) && Enabled(s, l) && IsToggle(s.tasks[l.tid].job)
    requires TellsTruth(start, s.log, Did(MoveOf(s, l).burst)) && Confirms(s.tasks, Did(MoveOf(s, l).burst))
    ensures InStep(start, Commit(s, l.tid, MoveOf(s, l)))
  {
    var t, m := l.tid, MoveOf(s, l);
    MovesOk(s, l);
    HolderLandsOwn(s, l);
    HolderEndsOwn(s, l);
    HolderCaches(s, l);
    ToggleMoves(s, l);
    if Confirming(s.tasks[t]) && m.burst.ended.Some? {
      ConfirmedIsRead(s, l);
    }
    ToggleInStep(start, s, Commit(s, t, m), t, m);
  }

  lemma HolderBystanderInStep(start: Mask, s: State, l: Label)
    requires Honest(s) && InStep(start, s) && IsHolderStep(l) && Enabled(s, l) && !IsToggle(s.tasks[l.tid].job)
    requires TellsTruth(start, s.log, Did(MoveOf(s, l).burst))
    ensures InStep(start, Commit(s, l.tid, MoveOf(s, l)))
  {
    var t, m := l.tid, MoveOf(s, l);
    HolderLandsOwn(s, l);
    HolderCaches(s, l);
    BystanderInStep(start, s, Commit(s, t, m), t, m);
  }

  lemma HolderInStep(start: Mask, s: State, l: Label)
    requires Honest(s) && InStep(start, s) && IsHolderStep(l) && Enabled(s, l)
    requires TellsTruth(start, s.log, Did(MoveOf(s, l).burst)) && Confirms(s.tasks, Did(MoveOf(s, l).burst))
    ensures InStep(start, Commit(s, l.tid, MoveOf(s, l)))
  {
    if IsToggle(s.tasks[l.tid].job) {
      HolderToggleInStep(start, s, l);
    } else {
      HolderBystanderInStep(start, s, l);
    }
  }

  lemma BystanderInStep(start: Mask, s: State, s1: State, t: nat, m: Move)
    requires InStep(start, s) && t < |s.tasks| && s1 == Commit(s, t, m) && !IsToggle(s.tasks[t].job)
    requires Landed(Did(m.burst)).None?
    requires CachedMask(s1) == CachedMask(s) || CachedMask(s1) == Some(LockMask(start, s.log))
    ensures InStep(start, s1)
  {
    forall u | 0 <= u < |s1.tasks| ensures Ready(s1.tasks[u], LockMask(start, s1.log)) {
      assert Ready(s.tasks[u], LockMask(start, s.log));
    }
    if NoneConfirming(s1) {
      forall u | 0 <= u < |s.tasks| ensures !Confirming(s.tasks[u]) {
        assert u != t ==> !Confirming(s1.tasks[u]);
      }
    }
  }

  lemma ToggleInStep(start: Mask, s: State, s1: State, t: nat, m: Move)
    requires InStep(start, s) && t < |s.tasks| && s1 == Commit(s, t, m)
    requires IsToggle(s.tasks[t].job) && s.tasks[t].pc.InCall? && ToggleMove(s.tasks[t], m)
    requires Landed(Did(m.burst)).Some? ==>
               s.tasks[t].job == Write(Landed(Did(m.burst)).value) && !Confirming(s.tasks[t])
    requires CachedMask(s1) == CachedMask(s) || CachedMask(s1) == Some(LockMask(start, s.log))
    requires Confirming(s.tasks[t]) && m.burst.ended.Some? ==> CachedMask(s1) == Some(LockMask(start, s.log))
    ensures InStep(start, s1)
  {
    assert Outstanding(s.tasks[t]);
    assert Ready(s.tasks[t], LockMask(start, s.log));
    forall u | 0 <= u < |s1.tasks| ensures Ready(s1.tasks[u], LockMask(start, s1.log)) {
      assert Ready(s.tasks[u], LockMask(start, s.log));
      assert u != t ==> !Outstanding(s.tasks[u]);
    }
    if NoneConfirming(s1) {
      assert !Confirming(s1.tasks[t]);
      if !Confirming(s.tasks[t]) {
        forall u | 0 <= u < |s.tasks| ensures !Confirming(s.tasks[u]) {
          assert u != t ==> !Confirming(s1.tasks[u]);
        }
      }
    }
  }

  lemma KeepsInStep(start: Mask, s: State, l: Label)
    requires Full(start) && Honest(s) && InStep(start, s) && Enabled(s, l) && Orderly(start, s, l)
    ensures InStep(start, Next(s, l))
  {
    if IsHolderStep(l) {
      var log1 := Then(s.log, Did(MoveOf(s, l).burst));
      assert Next(s, l) == Commit(s, l.tid, MoveOf(s, l));
      assert log1.past == s.log && Next(s, l).log == log1;
      HolderInStep(start, s, l);
    } else if l.Spawn? {
      SpawnInStep(start, s, l.job, l.barge);
    } else {
      OtherStepInStep(start, s, l);
    }
  }

  lemma {:induction false} RunInStep(start: Mask, s: State, run: seq<Label>)
    requires Full(start) && Honest(s) && InStep(start, s) && IsRun(s, run) && OrderlyRun(start, s, run)
    ensures Honest(After(s, run)) && InStep(start, After(s, run))
    decreases |run|
  {
    if run != [] {
      KeepsHonest(s, run[0]);
      KeepsInStep(start, s, run[0]);
      RunInStep(start, Next(s, run[0]), run[1..]);
    }
  }

  /** In every orderly run, whatever else is interleaved with the toggles: the lock always holds the fold of
      the single-toggle assignments in lock order; once known, the cached mask is that fold too whenever no
      toggle is being confirmed, and so is what entities are shown. */
  lemma OrderlyTogglesFollow(start: Mask, cfg: Config, b: BluetoothState, run: seq<Label>)
    requires Full(start) && cfg.attempts >= 1
    requires IsRun(Init(cfg, b), run) && OrderlyRun(start, Init(cfg, b), run)
    ensures var s := After(Init(cfg, b), run);
            && LockMask(start, s.log) == Wanted(start, s.log)
            && (NoneOutstanding(s) ==> NoneConfirming(s))
            && (NoneConfirming(s) && CachedMask(s).Some? ==>
                  CachedMask(s) == s.data.auxiliaryLocking == Some(Wanted(start, s.log)))
  {
    InitIsHonest(cfg, b);
    RunInStep(start, Init(cfg, b), run);
    var s := After(Init(cfg, b), run);
    assert Leads(cfg, b, run, s);
    SnapshotIsCoherent(s);
    if NoneOutstanding(s) {
      forall t | 0 <= t < |s.tasks| ensures !Confirming(s.tasks[t]) {
        assert !Outstanding(s.tasks[t]);
      }
    }
  }
}
