/** Runs that show where the code falls short of what is said of it: a snapshot that lags, a delete that
    leaves the old credential count, one that never reaches the lock, and two overlapping toggles of which
    one is lost. */
module Witnesses {
  import opened Types
  import opened Cache
  import opened Trace
  import opened Protocol
  import opened Theorems
  import opened Credentials
  import opened Toggles
  import opened Writes
  import Auxiliary

  // ---- one session of a one-shot task ----

  /** Task t holds the lock inside this call and nobody has cancelled it. */
  predicate Calling(s: State, t: nat, job: Job, ses: Session, rung: nat) {
    0 < t < |s.tasks| && s.tasks[t] == Task(job, InCall(ses, rung), false)
  }

  /** The state in which task t is at another point of its call and all else is as before. */
  ghost predicate OnlyMoved(s: State, s1: State, t: nat, phase: Phase)
    requires t < |s.tasks| && s.tasks[t].pc.InCall?
  {
    var pc := s.tasks[t].pc;
    && s1 == s.(log := s1.log,
                tasks := s.tasks[t := s.tasks[t].(pc := InCall(pc.session.(phase := phase), pc.rung), cancel := false)])
    && LastTable(s1.log) == LastTable(s.log) && LastWrite(s1.log, t) == LastWrite(s.log, t)
    && (forall start: Mask :: LockMask(start, s1.log) == LockMask(start, s.log))
    && (forall start: Mask :: Wanted(start, s1.log) == Wanted(start, s.log))
  }

  lemma Connects(s: State, t: nat, job: Job, ses: Session, rung: nat)
    requires Calling(s, t, job, ses, rung) && ses.phase.Dialing?
    ensures Enabled(s, Step(t, Dialed)) && OnlyMoved(s, Next(s, Step(t, Dialed)), t, Live)
  {
  }

  lemma Answers(s: State, t: nat, job: Job, ses: Session, rung: nat, r: Reply)
    requires Calling(s, t, job, ses, rung) && ses.phase.Live? && Allowed(ses.call, r)
    ensures Enabled(s, Step(t, Answered(r))) && OnlyMoved(s, Next(s, Step(t, Answered(r))), t, Closing(r))
  {
  }

  /** The session of task t dials, is answered with r and hangs up. */
  lemma Asked(s: State, t: nat, job: Job, ses: Session, rung: nat, r: Reply) returns (s1: State)
    requires Reachable(s) && Calling(s, t, job, ses, rung) && ses.phase.Dialing? && Allowed(ses.call, r)
    ensures Reachable(s1)
    ensures exists s0 :: OnlyMoved(s, s0, t, Closing(r))
              && s1 == Commit(s0, t, EndAttempt(job, ses.(phase := Closing(r)), rung, r, s0.core, s0.cfg,
                                                Quiet(t).(disconnected := true)))
  {
    Connects(s, t, job, ses, rung);
    var s2 := Reach(s, Step(t, Dialed));
    Answers(s2, t, job, ses.(phase := Live), rung, r);
    var s3 := Reach(s2, Step(t, Answered(r)));
    assert OnlyMoved(s, s3, t, Closing(r));
    s1 := Reach(s3, Step(t, HungUp));
  }

  // ---- the snapshot can lag ----

  lemma ReadBegins(cfg: Config, b: BluetoothState, n: ReadName)
    requires b.reachable
    ensures var l := Spawn(BackgroundRead(n), true);
            && Enabled(Init(cfg, b), l)
            && Calling(Next(Init(cfg, b), l), 1, BackgroundRead(n), Session(ReadCall(n), Dialing, 0), 0)
            && |Next(Init(cfg, b), l).tasks| == 2 && Next(Init(cfg, b), l).waiters == []
            && Next(Init(cfg, b), l).core == INITIAL_CORE && Next(Init(cfg, b), l).bluetooth == b
            && Next(Init(cfg, b), l).data == BuildSnapshot(INITIAL_CORE, b)
  {
  }

  lemma ReadStores(report: Report, core: Core, cfg: Config, b: Burst)
    requires report.SawCredentials? ==> report.rows != []
    ensures var n, r := report.Name(), Got(report);
            var m := EndAttempt(BackgroundRead(n), Session(ReadCall(n), Closing(r), 0), 0, r, core, cfg, b);
            && m.pc == Done(Finished) && m.core.values == Apply(core.values, report)
            && m.burst.released && Landed(Did(m.burst)) == None
  {
  }

  /** A background read that is rejected leaves a snapshot behind that does not say so. */
  lemma TheSnapshotCanLag(cfg: Config, b: BluetoothState) returns (s: State)
    requires cfg.attempts >= 1 && b.reachable
    ensures Reachable(s) && s.data != BuildSnapshot(s.core, s.bluetooth)
    ensures s.core.lastErrorType == Some(AuthenticationError) && s.data.lastErrorType == None
  {
    ReachInit(cfg, b);
    ReadBegins(cfg, b, BoltState);
    s := Reach(Init(cfg, b), Spawn(BackgroundRead(BoltState), true));
    var ses := Session(ReadCall(BoltState), Dialing, 0);
    s := Asked(s, 1, BackgroundRead(BoltState), ses, 0, Failed(AuthenticationError));
  }

  /** The one background read brings a value and ends. */
  lemma ReadCompletes(s: State, report: Report) returns (s1: State)
    requires Reachable(s) && |s.tasks| == 2 && (report.SawCredentials? ==> report.rows != [])
    requires Calling(s, 1, BackgroundRead(report.Name()), Session(ReadCall(report.Name()), Dialing, 0), 0)
    ensures Reachable(s1) && |s1.tasks| == 2 && s1.holder == None && s1.waiters == s.waiters
    ensures s1.bluetooth == s.bluetooth && s1.core.values == Apply(s.core.values, report)
    ensures LockMask(OFF, s1.log) == LockMask(OFF, s.log) && Wanted(OFF, s1.log) == Wanted(OFF, s.log)
  {
    var n := report.Name();
    ReadStores(report, s.core, s.cfg, Quiet(1).(disconnected := true));
    s1 := Asked(s, 1, BackgroundRead(n), Session(ReadCall(n), Dialing, 0), 0, Got(report));
  }

  // ---- a delete can leave the count ----

  /** The radio is up, nobody holds the lock or waits for it, and one credential is known. */
  predicate OneKnown(s: State) {
    && s.holder == None && s.waiters == [] && s.bluetooth.reachable
    && s.core.values.credentialCount == Some(1)
  }

  lemma OneIsRead(cfg: Config, b: BluetoothState) returns (s: State)
    requires cfg.attempts >= 1 && b.reachable
    ensures Reachable(s) && |s.tasks| == 2 && OneKnown(s)
  {
    ReachInit(cfg, b);
    ReadBegins(cfg, b, CredentialTable);
    s := Reach(Init(cfg, b), Spawn(BackgroundRead(CredentialTable), true));
    s := ReadCompletes(s, SawCredentials(["password"]));
  }

  /** The delete is inside this call, and the old count stands. */
  predicate Deleting(s: State, user: int, call: Call, phase: Phase, tries: nat) {
    && |s.tasks| == 3 && Calling(s, 2, Write(DeleteUser(user)), Session(call, phase, tries), 0)
    && s.core.values.credentialCount == Some(1)
  }

  lemma DeleteBegins(s: State, user: int)
    requires |s.tasks| == 2 && OneKnown(s)
    ensures Enabled(s, Spawn(Write(DeleteUser(user)), true))
    ensures Deleting(Next(s, Spawn(Write(DeleteUser(user)), true)), user, FrontRead, Dialing, 0)
  {
  }

  lemma AwakeThenDelete(user: int, core: Core, cfg: Config, b: Burst)
    ensures var job := Write(DeleteUser(user));
            var m := EndAttempt(job, Session(FrontRead, Closing(Flag(true)), 0), 0, Flag(true), core, cfg, b);
            m.pc == Dial(SetCall(DeleteUser(user)), 0) && m.core == core
  {
  }

  lemma PanelIsAwake(s: State, user: int) returns (s1: State)
    requires Reachable(s) && Deleting(s, user, FrontRead, Dialing, 0)
    ensures Reachable(s1) && Deleting(s1, user, SetCall(DeleteUser(user)), Dialing, 0)
  {
    s1 := Asked(s, 2, Write(DeleteUser(user)), Session(FrontRead, Dialing, 0), 0, Flag(true));
    AwakeThenDelete(user, s.core, s.cfg, Quiet(2).(disconnected := true));
  }

  lemma LandedThenReread(user: int, core: Core, cfg: Config, b: Burst)
    ensures var ses := Session(SetCall(DeleteUser(user)), Closing(Nothing), 0);
            var m := EndAttempt(Write(DeleteUser(user)), ses, 0, Nothing, core, cfg, b);
            m.pc == Dial(ReadCall(CredentialTable), 0) && m.core == core
  {
  }

  lemma EmptyThenOver(user: int, core: Core, cfg: Config, b: Burst)
    ensures var ses := Session(ReadCall(CredentialTable), Closing(Got(SawCredentials([]))), 2);
            var m := EndAttempt(Write(DeleteUser(user)), ses, 0, Got(SawCredentials([])), core, cfg, b);
            && m.pc == Done(Finished) && m.core.values == core.values
            && m.burst.ended == Some(Ending(ReadCall(CredentialTable), Nothing)) && m.burst.table == Some([])
  {
  }

  lemma DeleteLands(s: State, user: int) returns (s1: State)
    requires Reachable(s) && Deleting(s, user, SetCall(DeleteUser(user)), Dialing, 0)
    ensures Reachable(s1) && Deleting(s1, user, ReadCall(CredentialTable), Dialing, 0)
  {
    s1 := Asked(s, 2, Write(DeleteUser(user)), Session(SetCall(DeleteUser(user)), Dialing, 0), 0, Nothing);
    LandedThenReread(user, s.core, s.cfg, Quiet(2).(disconnected := true));
  }

  lemma Rests(s: State, user: int, tries: nat) returns (s1: State)
    requires Reachable(s) && Deleting(s, user, ReadCall(CredentialTable), Resting, tries)
    ensures Reachable(s1) && Deleting(s1, user, ReadCall(CredentialTable), Dialing, tries + 1)
  {
    s1 := Reach(s, Step(2, Rested));
  }

  /** The re-read is answered with the empty table and tried again. */
  lemma NoRowsYet(s: State, user: int, tries: nat) returns (s1: State)
    requires Reachable(s) && Deleting(s, user, ReadCall(CredentialTable), Dialing, tries)
    requires tries + 1 < BLE_READ_ATTEMPTS
    ensures Reachable(s1) && Deleting(s1, user, ReadCall(CredentialTable), Dialing, tries + 1)
  {
    var ses := Session(ReadCall(CredentialTable), Dialing, tries);
    s1 := Asked(s, 2, Write(DeleteUser(user)), ses, 0, Got(SawCredentials([])));
    s1 := Rests(s1, user, tries);
  }

  lemma NoRowsAtAll(s: State, user: int) returns (s1: State)
    requires Reachable(s) && Deleting(s, user, ReadCall(CredentialTable), Dialing, 2)
    ensures Reachable(s1) && |s1.tasks| == 3
    ensures s1.tasks[2] == Task(Write(DeleteUser(user)), Done(Finished), false)
    ensures s1.log.Then? && s1.log.last.Did?
    ensures s1.log.last.burst.ended == Some(Ending(ReadCall(CredentialTable), Nothing))
    ensures LastTable(s1.log) == Some([])
    ensures s1.core.values.credentialCount == Some(1)
  {
    var ses := Session(ReadCall(CredentialTable), Dialing, 2);
    s1 := Asked(s, 2, Write(DeleteUser(user)), ses, 0, Got(SawCredentials([])));
    EmptyThenOver(user, s.core, s.cfg, Quiet(2).(disconnected := true));
  }

  /** The last credential is deleted: the delete ends well, the lock answers the re-read with an empty
      table, the client hands on nothing, and the count still is one, for entities too. */
  lemma TheLastDeleteKeepsTheCount(cfg: Config, b: BluetoothState, user: int) returns (s: State)
    requires cfg.attempts >= 1 && b.reachable
    ensures Reachable(s) && |s.tasks| == 3
    ensures s.tasks[2] == Task(Write(DeleteUser(user)), Done(Finished), false)
    ensures s.log.Then? && s.log.last.Did?
    ensures s.log.last.burst.ended == Some(Ending(ReadCall(CredentialTable), Nothing))
    ensures LastTable(s.log) == Some([])
    ensures s.core.values.credentialCount == s.data.credentialCount == Some(1)
  {
    s := OneIsRead(cfg, b);
    DeleteBegins(s, user);
    s := Reach(s, Spawn(Write(DeleteUser(user)), true));
    s := PanelIsAwake(s, user);
    s := DeleteLands(s, user);
    s := NoRowsYet(s, user, 0);
    s := NoRowsYet(s, user, 1);
    s := NoRowsAtAll(s, user);
    CountIsLastRows(s);
  }

  // ---- a delete can end well without reaching the lock ----

  /** The delete cannot connect for its write; the client hands on nothing, which counts as success. */
  lemma WriteNeverConnects(s: State, user: int)
    requires Deleting(s, user, SetCall(DeleteUser(user)), Dialing, 0) && !Connected(s.log, 2)
    ensures Enabled(s, Step(2, Broke(Nothing)))
    ensures var s1 := Next(s, Step(2, Broke(Nothing)));
            && Deleting(s1, user, ReadCall(CredentialTable), Dialing, 0)
            && LastWrite(s1.log, 2) == Some(WriteEnd(Nothing, false, false))
  {
  }

  lemma AwakeBeginsWrite(s: State, user: int) returns (s1: State)
    requires Reachable(s) && Deleting(s, user, FrontRead, Dialing, 0)
    ensures Reachable(s1) && Deleting(s1, user, SetCall(DeleteUser(user)), Dialing, 0) && !Connected(s1.log, 2)
  {
    s1 := PanelIsAwake(s, user);
    WritesHold(s1);
    assert WriteOk(s1.tasks[2], Connected(s1.log, 2), LastWrite(s1.log, 2));
  }

  lemma RereadThenOver(user: int, rows: seq<string>, core: Core, cfg: Config, b: Burst)
    requires rows != []
    ensures var r := Got(SawCredentials(rows));
            var ses := Session(ReadCall(CredentialTable), Closing(r), 0);
            var m := EndAttempt(Write(DeleteUser(user)), ses, 0, r, core, cfg, b);
            m.pc == Done(Finished) && m.burst.ended == Some(Ending(ReadCall(CredentialTable), r))
  {
  }

  lemma RowIsStillThere(s: State, user: int) returns (s1: State)
    requires Reachable(s) && Deleting(s, user, ReadCall(CredentialTable), Dialing, 0)
    ensures Reachable(s1) && |s1.tasks| == 3 && LastWrite(s1.log, 2) == LastWrite(s.log, 2)
    ensures s1.tasks[2] == Task(Write(DeleteUser(user)), Done(Finished), false)
  {
    var ses := Session(ReadCall(CredentialTable), Dialing, 0);
    s1 := Asked(s, 2, Write(DeleteUser(user)), ses, 0, Got(SawCredentials(["password"])));
    RereadThenOver(user, ["password"], s.core, s.cfg, Quiet(2).(disconnected := true));
  }

  /** A delete that ended well although its write never reached the lock. */
  lemma AWriteCanMissTheLock(cfg: Config, b: BluetoothState, user: int) returns (s: State)
    requires cfg.attempts >= 1 && b.reachable
    ensures Reachable(s) && |s.tasks| == 3
    ensures s.tasks[2] == Task(Write(DeleteUser(user)), Done(Finished), false)
    ensures LastWrite(s.log, 2) == Some(WriteEnd(Nothing, false, false))
  {
    s := OneIsRead(cfg, b);
    DeleteBegins(s, user);
    s := Reach(s, Spawn(Write(DeleteUser(user)), true));
    s := AwakeBeginsWrite(s, user);
    WriteNeverConnects(s, user);
    s := Reach(s, Step(2, Broke(Nothing)));
    s := RowIsStillThere(s, user);
  }

  // ---- overlapping toggles can lose one ----

  const OFF: Mask := map[TouchToLock := false, CloseToLock := false, ResumeLock := false, AnyUnlockLock := false]

  function Toggled(toggle: Toggle): WriteOp {
    SetAuxiliary(toggle, true, Auxiliary.BuildMask(Some(OFF), toggle, true))
  }

  /** Nothing was written yet, and the coordinator knows that all toggles are off. */
  predicate AllOff(s: State) {
    LockMask(OFF, s.log) == Wanted(OFF, s.log) == OFF && CachedMask(s) == Some(OFF)
  }

  lemma NothingWritten(cfg: Config, b: BluetoothState, n: ReadName)
    requires b.reachable && Enabled(Init(cfg, b), Spawn(BackgroundRead(n), true))
    ensures var log := Next(Init(cfg, b), Spawn(BackgroundRead(n), true)).log;
            LockMask(OFF, log) == Wanted(OFF, log) == OFF
  {
  }

  lemma OffIsRead(cfg: Config, b: BluetoothState) returns (s: State)
    requires cfg.attempts >= 1 && b.reachable
    ensures Reachable(s) && |s.tasks| == 2 && AllOff(s)
    ensures s.holder == None && s.waiters == [] && s.bluetooth.reachable
  {
    ReachInit(cfg, b);
    ReadBegins(cfg, b, AuxiliaryLocking);
    s := Reach(Init(cfg, b), Spawn(BackgroundRead(AuxiliaryLocking), true));
    NothingWritten(cfg, b, AuxiliaryLocking);
    s := ReadCompletes(s, SawAuxiliary(OFF));
  }

  /** Two toggles called before either is written: the first holds the lock, the second waits for it. */
  predicate BothCalled(s: State, first: WriteOp, second: WriteOp, pc: Pc, mask: Mask, wanted: Mask) {
    && |s.tasks| == 4 && first.SetAuxiliary? && second.SetAuxiliary?
    && s.tasks[2] == Task(Write(first), pc, false) && s.tasks[3] == Task(Write(second), Queued, false)
    && s.waiters == [3] && s.bluetooth.reachable
    && LockMask(OFF, s.log) == mask && Wanted(OFF, s.log) == wanted
  }

  predicate FirstCalled(s: State, first: WriteOp) {
    && |s.tasks| == 3 && s.tasks[2] == Task(Write(first), Dial(SetCall(first), 0), false)
    && AllOff(s) && s.holder == Some(2) && s.waiters == [] && s.bluetooth.reachable
  }

  lemma FirstIsCalled(s: State, toggle: Toggle)
    requires |s.tasks| == 2 && AllOff(s) && s.holder == None && s.waiters == [] && s.bluetooth.reachable
    ensures Enabled(s, Spawn(Write(Toggled(toggle)), true))
    ensures FirstCalled(Next(s, Spawn(Write(Toggled(toggle)), true)), Toggled(toggle))
  {
  }

  lemma SecondIsCalled(s: State, first: WriteOp, toggle: Toggle)
    requires FirstCalled(s, first) && first.SetAuxiliary?
    ensures Enabled(s, Spawn(Write(Toggled(toggle)), false))
    ensures BothCalled(Next(s, Spawn(Write(Toggled(toggle)), false)), first, Toggled(toggle),
                       Dial(SetCall(first), 0), OFF, OFF)
  {
  }

  lemma LandedToggle(op: WriteOp, core: Core, cfg: Config, b: Burst)
    requires op.SetAuxiliary?
    ensures var m := EndAttempt(Write(op), Session(SetCall(op), Closing(Nothing), 0), 0, Nothing, core, cfg, b);
            m.pc == Dial(ReadCall(AuxiliaryLocking), 0) && Landed(Did(m.burst)) == Some(op)
  {
  }

  lemma ConfirmedToggle(op: WriteOp, mask: Mask, core: Core, cfg: Config, b: Burst)
    requires op.SetAuxiliary?
    ensures var r := Got(SawAuxiliary(mask));
            var m := EndAttempt(Write(op), Session(ReadCall(AuxiliaryLocking), Closing(r), 0), 0, r, core, cfg, b);
            m.pc == Done(Finished) && Landed(Did(m.burst)) == None && m.burst.released
  {
  }

  lemma FirstLands(s: State, first: WriteOp, second: WriteOp, mask: Mask, wanted: Mask) returns (s1: State)
    requires Reachable(s) && BothCalled(s, first, second, Dial(SetCall(first), 0), mask, wanted)
    ensures Reachable(s1)
    ensures BothCalled(s1, first, second, Dial(ReadCall(AuxiliaryLocking), 0),
                       first.mask, wanted[first.toggle := first.enabled])
  {
    s1 := Asked(s, 2, Write(first), Session(SetCall(first), Dialing, 0), 0, Nothing);
    LandedToggle(first, s.core, s.cfg, Quiet(2).(disconnected := true));
  }

  lemma FirstIsConfirmed(s: State, first: WriteOp, second: WriteOp, mask: Mask, wanted: Mask) returns (s1: State)
    requires Reachable(s) && BothCalled(s, first, second, Dial(ReadCall(AuxiliaryLocking), 0), mask, wanted)
    ensures Reachable(s1) && s1.holder == None
    ensures BothCalled(s1, first, second, Done(Finished), mask, wanted)
  {
    var ses := Session(ReadCall(AuxiliaryLocking), Dialing, 0);
    s1 := Asked(s, 2, Write(first), ses, 0, Got(SawAuxiliary(mask)));
    ConfirmedToggle(first, mask, s.core, s.cfg, Quiet(2).(disconnected := true));
  }

  lemma SecondIsGranted(s: State, first: WriteOp, second: WriteOp, mask: Mask, wanted: Mask)
    requires s.holder == None && BothCalled(s, first, second, Done(Finished), mask, wanted)
    ensures Enabled(s, Grant)
    ensures var s1 := Next(s, Grant);
            && Calling(s1, 3, Write(second), Session(SetCall(second), Dialing, 0), 0)
            && Wanted(OFF, s1.log) == wanted
  {
  }

  lemma SecondLands(s: State, second: WriteOp, wanted: Mask) returns (s1: State)
    requires Reachable(s) && Wanted(OFF, s.log) == wanted && second.SetAuxiliary?
    requires Calling(s, 3, Write(second), Session(SetCall(second), Dialing, 0), 0)
    ensures Reachable(s1) && LockMask(OFF, s1.log) == second.mask
    ensures Wanted(OFF, s1.log) == wanted[second.toggle := second.enabled]
  {
    s1 := Asked(s, 3, Write(second), Session(SetCall(second), Dialing, 0), 0, Nothing);
    LandedToggle(second, s.core, s.cfg, Quiet(3).(disconnected := true));
  }

  /** Both toggles are called, and the first is written and confirmed. */
  lemma FirstIsDone(cfg: Config, b: BluetoothState, one: Toggle, two: Toggle) returns (s: State)
    requires cfg.attempts >= 1 && b.reachable
    ensures Reachable(s) && s.holder == None
    ensures BothCalled(s, Toggled(one), Toggled(two), Done(Finished), Toggled(one).mask, OFF[one := true])
  {
    var first, second := Toggled(one), Toggled(two);
    s := OffIsRead(cfg, b);
    FirstIsCalled(s, one);
    s := Reach(s, Spawn(Write(first), true));
    SecondIsCalled(s, first, two);
    s := Reach(s, Spawn(Write(second), false));
    s := FirstLands(s, first, second, OFF, OFF);
    s := FirstIsConfirmed(s, first, second, first.mask, OFF[one := true]);
  }

  lemma SecondIsDone(s0: State, one: Toggle, two: Toggle) returns (s: State)
    requires Reachable(s0) && s0.holder == None
    requires BothCalled(s0, Toggled(one), Toggled(two), Done(Finished), Toggled(one).mask, OFF[one := true])
    ensures Reachable(s) && LockMask(OFF, s.log) == Toggled(two).mask
    ensures Wanted(OFF, s.log) == OFF[one := true][two := true]
  {
    SecondIsGranted(s0, Toggled(one), Toggled(two), Toggled(one).mask, OFF[one := true]);
    s := Reach(s0, Grant);
    s := SecondLands(s, Toggled(two), OFF[one := true]);
  }

  /** Two overlapping toggles, both acknowledged, the first also confirmed: the lock has lost the first. */
  lemma TogglesCanBeLost(cfg: Config, b: BluetoothState) returns (s: State)
    requires cfg.attempts >= 1 && b.reachable
    ensures Reachable(s) && LockMask(OFF, s.log) == OFF[ResumeLock := true]
    ensures Wanted(OFF, s.log) == OFF[CloseToLock := true][ResumeLock := true] != LockMask(OFF, s.log)
  {
    s := FirstIsDone(cfg, b, CloseToLock, ResumeLock);
    s := SecondIsDone(s, CloseToLock, ResumeLock);
    assert !OFF[ResumeLock := true][CloseToLock] && OFF[CloseToLock := true][ResumeLock := true][CloseToLock];
  }
}
