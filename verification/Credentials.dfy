/** The credential count: it is the size of the last table with rows the lock answered. */
module Credentials {
  import opened Types
  import opened Cache
  import opened Trace
  import opened Protocol
  import opened Shape
  import opened Facts
  import opened Theorems
  import Adapter

  // ---- the tables in the log ----

  /** The table the lock answered to the credential read that ended last. */
  function LastTable(log: Log): Option<seq<string>> {
    match log
    case Empty => None
    case Then(past, Did(b)) => if b.table.Some? then b.table else LastTable(past)
    case Then(past, _) => LastTable(past)
  }

  /** The last such table that had rows. */
  function LastRows(log: Log): Option<seq<string>> {
    match log
    case Empty => None
    case Then(past, Did(b)) => if b.table.Some? && b.table != Some([]) then b.table else LastRows(past)
    case Then(past, _) => LastRows(past)
  }

  /** A step records a table exactly when it ends a credential read that was answered, and hands on any
      but the empty one. */
  predicate TableOk(b: Burst) {
    && (b.table.Some? ==>
          b.ended == Some(Ending(ReadCall(CredentialTable), Delivered(Got(SawCredentials(b.table.value))))))
    && (b.ended.Some? && b.ended.value.call.ReadCall? && TableIn(b.ended.value.reply).Some? ==>
          b.table == TableIn(b.ended.value.reply))
  }

  predicate TablesOk(log: Log) {
    match log
    case Empty => true
    case Then(past, Did(b)) => TablesOk(past) && TableOk(b)
    case Then(past, _) => TablesOk(past)
  }

  /** A move records the same ended call and table as the burst it started from. */
  predicate Carries(b: Burst, m: Move) {
    m.burst.table == b.table && m.burst.ended == b.ended
  }

  lemma ReadCarries(r: Reply, core: Core, b: Burst)
    ensures Carries(b, FinishRead(core, r, b))
  {
  }

  lemma FinishCarries(job: Job, core: Core, out: Outcome, inLadder: bool, b: Burst)
    ensures Carries(b, FinishOperation(job, core, out, inLadder, b))
  {
  }

  lemma LadderCarries(job: Job, rung: nat, r: Reply, core: Core, cfg: Config, b: Burst)
    ensures Carries(b, ClimbLadder(job, rung, r, core, cfg, b))
  {
    if r == Flag(true) {
    } else if rung == 0 {
    } else if rung >= cfg.attempts {
      FinishCarries(job, core, Raised(PresenceRequiredError), true, b);
    }
  }

  lemma ActionCarries(job: Job, r: Reply, core: Core, b: Burst)
    ensures Carries(b, AfterAction(job, r, core, b))
  {
  }

  lemma ReplyKeepsTable(job: Job, c: Call, rung: nat, r: Reply, core: Core, cfg: Config, b: Burst)
    ensures Carries(b.(ended := Some(Ending(c, r))), OnReply(job, c, rung, r, core, cfg, b))
  {
    var b1 := b.(ended := Some(Ending(c, r)));
    ReadCarries(r, core, b1);
    LadderCarries(job, rung, r, core, cfg, b1);
    ActionCarries(job, r, core, b1);
  }

  lemma AttemptTableOk(t: nat, job: Job, ses: Session, rung: nat, r: Reply, core: Core, cfg: Config, b: Burst)
    requires ReplyOk(ses.call, r) && b.table == None && b.ended == None
    ensures TableOk(EndAttempt(job, ses, rung, r, core, cfg, b).burst)
  {
    ReplyKeepsTable(job, ses.call, rung, Delivered(r), core, cfg, b.(table := TableIn(r)));
  }

  lemma ProgressTableOk(t: nat, job: Job, ses: Session, rung: nat, i: Input, core: Core, cfg: Config)
    requires PcOk(job, InCall(ses, rung), cfg) && InputOk(ses, i)
    ensures TableOk(Progress(job, ses, rung, i, core, cfg, Quiet(t)).burst)
  {
    if i.Broke? {
      AttemptTableOk(t, job, ses, rung, i.reply, core, cfg, Quiet(t));
    } else if i.HungUp? {
      AttemptTableOk(t, job, ses, rung, ses.phase.reply, core, cfg, Quiet(t).(disconnected := true));
    }
  }

  lemma AbortTableOk(t: nat, job: Job, pc: Pc, core: Core, cfg: Config)
    requires PcOk(job, pc, cfg) && Holds(pc) && !pc.Listening?
    ensures TableOk(Abort(job, pc, core, cfg, Quiet(t)).burst)
  {
    if pc.InCall? {
      var ses := pc.session;
      if ses.phase.Closing? {
        AttemptTableOk(t, job, ses, pc.rung, ses.phase.reply, core, cfg, Quiet(t).(disconnected := true));
        ReplyKeepsTable(job, ses.call, pc.rung, Cancelled, core, cfg, Quiet(t).(disconnected := true));
      } else {
        ReplyKeepsTable(job, ses.call, pc.rung, Cancelled, core, cfg, Quiet(t));
      }
    }
  }

  lemma HolderTableOk(s: State, l: Label)
    requires Inv(s) && IsHolderStep(l) && Enabled(s, l)
    ensures TableOk(MoveOf(s, l).burst)
  {
    var t, job, pc := l.tid, s.tasks[l.tid].job, s.tasks[l.tid].pc;
    assert PcOk(job, pc, s.cfg);
    match l
    case Step(_, i) => ProgressTableOk(t, job, pc.session, pc.rung, i, s.core, s.cfg);
    case Abandon(_) => AbortTableOk(t, job, pc, s.core, s.cfg);
    case WakeUp(_) =>
  }

  /** What a step outside a one-shot task's hold of the lock records. */
  predicate NoRead(e: Entry) {
    e.Did? ==> e.burst.table == None && (e.burst.ended.Some? ==> e.burst.ended.value.call == Listen)
  }

  ghost predicate ReadsNothing(s: State, l: Label)
    requires Enabled(s, l)
  {
    var log1 := Next(s, l).log;
    log1 == s.log || (log1.Then? && log1.past == s.log && NoRead(log1.last))
  }

  lemma SpawnReadsNothing(s: State, job: Job, barge: bool)
    requires Inv(s) && Enabled(s, Spawn(job, barge))
    ensures ReadsNothing(s, Spawn(job, barge))
  {
  }

  lemma GrantReadsNothing(s: State)
    requires Inv(s) && Enabled(s, Grant)
    ensures ReadsNothing(s, Grant)
  {
  }

  lemma LoopReadsNothing(s: State, l: Label)
    requires Inv(s) && Enabled(s, l) && IsLoopStep(l)
    ensures ReadsNothing(s, l)
  {
  }

  lemma RestReadsNothing(s: State, l: Label)
    requires Inv(s) && Enabled(s, l) && (l.Leave? || l.StartLoop? || l.Stop? || l.AskCancel? || l.See? || l.Hear?)
    ensures ReadsNothing(s, l)
  {
    if l.Stop? {
      assert StopNext(s).log == s.log;
    } else if l.AskCancel? {
      assert CancelTask(s, l.tid).log == s.log;
    } else if l.Leave? {
      assert LeaveNext(s, l.index).log == Then(s.log, Did(Quiet(s.waiters[l.index]).(left := true)));
    }
  }

  lemma KeepsTables(s: State, l: Label)
    requires Inv(s) && Enabled(s, l) && TablesOk(s.log)
    ensures TablesOk(Next(s, l).log)
  {
    if IsHolderStep(l) {
      HolderTableOk(s, l);
      assert Next(s, l) == Commit(s, l.tid, MoveOf(s, l));
    } else if l.Spawn? {
      SpawnReadsNothing(s, l.job, l.barge);
    } else if l.Grant? {
      GrantReadsNothing(s);
    } else if IsLoopStep(l) {
      LoopReadsNothing(s, l);
    } else {
      RestReadsNothing(s, l);
    }
  }

  lemma {:induction false} RunTables(s: State, run: seq<Label>)
    requires Inv(s) && TablesOk(s.log) && IsRun(s, run)
    ensures TablesOk(After(s, run).log)
    decreases |run|
  {
    if run != [] {
      Keeps(s, run[0]);
      KeepsTables(s, run[0]);
      RunTables(Next(s, run[0]), run[1..]);
    }
  }

  lemma ReachableTables(s: State)
    requires Reachable(s)
    ensures TablesOk(s.log)
  {
    var cfg, b, run :| Leads(cfg, b, run, s);
    RunTables(Init(cfg, b), run);
  }

  // ---- the count ----

  lemma {:induction false} RowsAreReported(log: Log)
    requires TablesOk(log)
    ensures LastReport(log, CredentialTable)
         == if LastRows(log).Some? then Some(SawCredentials(LastRows(log).value)) else None
    ensures LastRows(log).Some? ==> LastRows(log).value != []
    ensures LastTable(log).Some? && LastTable(log).value != [] ==> LastRows(log) == LastTable(log)
    decreases log
  {
    if log.Then? {
      RowsAreReported(log.past);
    }
  }

  function CountOf(rows: Option<seq<string>>): Option<nat> {
    if rows.Some? then Some(|rows.value|) else None
  }

  /** In every run the count is the size of the last table with rows, and unknown before the first. */
  lemma CountIsLastRows(s: State)
    requires Reachable(s)
    ensures s.core.values.credentialCount == s.data.credentialCount
    ensures s.core.values.credentialCount == CountOf(LastRows(s.log))
  {
    ReachableTables(s);
    RowsAreReported(s.log);
    ReachableHonest(s);
    assert Known(s.core.values, CredentialTable) == AsFact(LastReport(s.log, CredentialTable));
  }

  /** The count agrees with the table the lock answered last exactly when that table has rows. */
  lemma CountFollowsTableIffRows(s: State)
    requires Reachable(s) && LastTable(s.log).Some?
    ensures s.core.values.credentialCount == Some(|LastTable(s.log).value|) <==> LastTable(s.log).value != []
  {
    CountIsLastRows(s);
    ReachableTables(s);
    RowsAreReported(s.log);
  }

  /** In this state task t has just ended well, and its re-read was answered with these rows. */
  predicate JustReread(s: State, t: nat, rows: seq<string>) {
    && t < |s.tasks| && s.tasks[t].pc == Done(Finished)
    && s.log.Then? && s.log.last.Did? && s.log.last.burst.tid == t && s.log.last.burst.table == Some(rows)
  }

  /** A delete that has just ended well with its re-read answered: the count is the size of the remaining
      table if and only if a row remains; else the old count stays, here and in the snapshot. So if n rows
      were counted and one of them is gone, the count drops to n - 1 if and only if it was not the last. */
  lemma DeleteCountsIffRowsRemain(s: State, t: nat, user: int, rows: seq<string>, n: nat)
    requires Reachable(s) && JustReread(s, t, rows) && s.tasks[t].job == Write(DeleteUser(user))
    ensures var before, count := CountOf(LastRows(s.log.past)), s.core.values.credentialCount;
            && s.data.credentialCount == count
            && (count == Some(|rows|) <==> rows != [])
            && (rows == [] ==> count == before)
            && (before == Some(n) && |rows| + 1 == n ==>
                  (count == Some(n - 1) <==> n != 1) && (n == 1 ==> count == before))
  {
    CountIsLastRows(s);
    CountFollowsTableIffRows(s);
  }

  /** In this state task t has just ended well with a re-read that brought no table in its last attempt. */
  predicate JustUnanswered(s: State, t: nat) {
    && t < |s.tasks| && s.tasks[t].pc == Done(Finished)
    && s.log.Then? && s.log.last.Did? && s.log.last.burst.tid == t && s.log.last.burst.table == None
  }

  /** A delete that has just ended well with its re-read unanswered leaves the old count, whatever remains. */
  lemma UnansweredDeleteKeepsCount(s: State, t: nat, user: int)
    requires Reachable(s) && JustUnanswered(s, t) && s.tasks[t].job == Write(DeleteUser(user))
    ensures s.core.values.credentialCount == s.data.credentialCount == CountOf(LastRows(s.log.past))
  {
    CountIsLastRows(s);
  }

  // ---- the client and the transition system hand on the same tables ----

  function TableReply(rows: Option<seq<string>>): Reply {
    if rows.Some? then Got(SawCredentials(rows.value)) else Nothing
  }

  lemma TablesHandedOnAlike(rows: Option<seq<string>>)
    ensures TableReply(Adapter.HandedOn(rows)) == Delivered(TableReply(rows))
    ensures Adapter.HasRows(rows) <==> !Delivered(TableReply(rows)).Nothing?
  {
  }
}
