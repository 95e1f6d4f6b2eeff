/** Nobody waits for ever: the lock's holder is always able to move, and a bounded number of
    service steps brings every waiting job to the front. */
module Service {
  import opened Types
  import opened Cache
  import opened Trace
  import opened Protocol
  import opened Shape
  import opened Order

  // ---- how long a task may hold the lock ----

  function SessionRank(ses: Session): int {
    var left := if ses.call.ReadCall? then 4 * (BLE_READ_ATTEMPTS - 1 - ses.tries) else 0;
    left + (match ses.phase case Dialing => 3 case Live => 2 case Closing(_) => 1 case _ => 0)
  }

  /** An upper bound on the steps a holder at this program point still takes before it releases the lock. */
  function HoldRank(cfg: Config, pc: Pc): int {
    match pc
    case InCall(ses, rung) =>
      SessionRank(ses) +
      (if ses.call.FrontRead? then 5 * (cfg.attempts - rung) + 16 else if ses.call.ReadCall? then 0 else 12)
    case Pressing => 5 * cfg.attempts + 16
    case Napping(rung) => 5 * (cfg.attempts - rung) + 20
    case _ => 0
  }

  function ListenRank(h: Option<Inner>): int {
    match h
    case None => 0
    case Some(i) =>
      (match i.phase case Fresh => 5 case Dialing => 4 case Live => 3 case Closing(_) => 2 case _ => 1)
  }

  function MaxHold(cfg: Config): int {
    5 * cfg.attempts + 19
  }

  /** The work left until the lock is free. */
  function Rank(s: State): int {
    if s.holder.None? || s.holder.value >= |s.tasks| then 0
    else if s.holder.value == 0 then ListenRank(s.handle)
    else HoldRank(s.cfg, s.tasks[s.holder.value].pc)
  }

  lemma RankIsBounded(s: State)
    requires Inv(s)
    ensures 0 <= Rank(s) <= MaxHold(s.cfg)
    ensures s.holder.Some? ==> Rank(s) > 0
  {
    if s.holder.Some? && s.holder.value > 0 {
      var t := s.holder.value;
      assert PcOk(s.tasks[t].job, s.tasks[t].pc, s.cfg) && Holds(s.tasks[t].pc);
    }
  }

  /** A move of the holder shortens its hold. */
  predicate Shortens(cfg: Config, pc: Pc, next: Pc) {
    !Holds(next) || HoldRank(cfg, next) < HoldRank(cfg, pc)
  }

  lemma LadderShortens(cfg: Config, job: Job, ses: Session, rung: nat, r: Reply, core: Core, b: Burst)
    requires job.NeedsPresence() && rung <= cfg.attempts && cfg.attempts >= 1
    requires ses.call == FrontRead && SessionOk(ses)
    ensures Shortens(cfg, InCall(ses, rung), ClimbLadder(job, rung, r, core, cfg, b).pc)
  {
  }

  lemma ReplyShortens(cfg: Config, job: Job, ses: Session, rung: nat, r: Reply, core: Core, b: Burst)
    requires PcOk(job, InCall(ses, rung), cfg) && cfg.attempts >= 1
    ensures Shortens(cfg, InCall(ses, rung), OnReply(job, ses.call, rung, r, core, cfg, b).pc)
  {
    var b1 := b.(ended := Some(Ending(ses.call, r)));
    if !job.BackgroundRead? && ses.call == FrontRead {
      LadderShortens(cfg, job, ses, rung, r, core, b1);
    }
  }

  lemma AttemptShortens(cfg: Config, job: Job, ses: Session, rung: nat, r: Reply, core: Core, b: Burst)
    requires PcOk(job, InCall(ses, rung), cfg) && cfg.attempts >= 1 && !ses.phase.Resting?
    ensures Shortens(cfg, InCall(ses, rung), EndAttempt(job, ses, rung, r, core, cfg, b).pc)
  {
    ReplyShortens(cfg, job, ses, rung, Delivered(r), core, b.(table := TableIn(r)));
  }

  lemma MovesShorten(s: State, l: Label)
    requires Inv(s) && IsHolderStep(l) && Enabled(s, l)
    ensures Shortens(s.cfg, s.tasks[l.tid].pc, MoveOf(s, l).pc)
  {
    var t, job, pc := l.tid, s.tasks[l.tid].job, s.tasks[l.tid].pc;
    assert PcOk(job, pc, s.cfg);
    if pc.InCall? {
      var ses := pc.session;
      var hang := Quiet(t).(disconnected := true);
      if l.Step? {
        if l.input.Broke? {
          AttemptShortens(s.cfg, job, ses, pc.rung, l.input.reply, s.core, Quiet(t));
        } else if l.input.HungUp? {
          AttemptShortens(s.cfg, job, ses, pc.rung, ses.phase.reply, s.core, hang);
        }
      } else if ses.phase.Closing? {
        AttemptShortens(s.cfg, job, ses, pc.rung, ses.phase.reply, s.core, hang);
        ReplyShortens(s.cfg, job, ses, pc.rung, Cancelled, s.core, hang);
      } else {
        ReplyShortens(s.cfg, job, ses, pc.rung, Cancelled, s.core, Quiet(t));
      }
    }
  }

  // ---- how long a job may wait ----

  function Times(n: nat, c: int): int {
    if n == 0 then 0 else c + Times(n - 1, c)
  }

  lemma {:induction false} TimesGrows(m: nat, n: nat, c: int)
    requires m < n && c >= 0
    ensures Times(m, c) + c <= Times(n, c)
    decreases n
  {
    if m < n - 1 {
      TimesGrows(m, n - 1, c);
    }
  }

  /** What lies before the job at place i of the queue: the present holder and i further holders. */
  function Budget(s: State, i: nat): int {
    Rank(s) + Times(i, MaxHold(s.cfg) + 1)
  }

  /** A step that serves the job at place i: the holder moves, the lock is granted, or a cancelled
      waiter ahead leaves. */
  predicate Serves(s: State, l: Label, i: nat) {
    IsHolderStep(l) || l.ListenStep? || l.ListenCancel? || l.LoopResume? || l.Grant? || (l.Leave? && l.index < i)
  }

  lemma HolderStepServes(s: State, l: Label, t: nat, i: nat)
    requires Fair(s) && IsHolderStep(l) && Enabled(s, l) && Waiting(s, t) && i < |s.waiters| && s.waiters[i] == t
    ensures Next(s, l).waiters == s.waiters && Budget(Next(s, l), i) + 1 <= Budget(s, i)
  {
    MovesOk(s, l);
    MovesShorten(s, l);
    RankIsBounded(s);
  }

  lemma ListenServes(s: State, l: Label, t: nat, i: nat)
    requires Fair(s) && Enabled(s, l) && Waiting(s, t) && i < |s.waiters| && s.waiters[i] == t
    requires l.ListenStep? || l.ListenCancel? || l.LoopResume?
    ensures Next(s, l).waiters == s.waiters && Budget(Next(s, l), i) + 1 <= Budget(s, i)
  {
    assert s.holder == Some(0);
  }

  lemma GrantServesHead(s: State)
    requires Inv(s) && Enabled(s, Grant) && s.waiters[0] > 0
    ensures !Waiting(GrantNext(s), s.waiters[0])
  {
    var t := s.waiters[0];
    Shape.EnterOk(t, s.tasks[t].job, s.core, s.bluetooth.reachable, Quiet(t), s.cfg);
  }

  lemma GrantServes(s: State, i: nat)
    requires Inv(s) && Enabled(s, Grant) && 0 < i < |s.waiters|
    ensures GrantNext(s).waiters == s.waiters[1..] && Budget(GrantNext(s), i - 1) + 1 <= Budget(s, i)
  {
    GrantKeeps(s);
    RankIsBounded(GrantNext(s));
  }

  lemma LeaveKeepsRank(s: State, k: nat)
    requires Inv(s) && Enabled(s, Leave(k))
    ensures Rank(LeaveNext(s, k)) == Rank(s) && LeaveNext(s, k).waiters == Without(s.waiters, k)
    ensures LeaveNext(s, k).cfg == s.cfg
  {
    assert s.tasks[s.waiters[k]].pc.Queued?;
    assert s.holder.Some? ==> s.holder.value != s.waiters[k];
  }

  lemma LeaveServes(s: State, k: nat, t: nat, i: nat)
    requires Fair(s) && Enabled(s, Leave(k)) && Waiting(s, t) && i < |s.waiters| && s.waiters[i] == t
    ensures k != i
    ensures var j := if k < i then i - 1 else i;
            j < |LeaveNext(s, k).waiters| && LeaveNext(s, k).waiters[j] == t
            && Budget(LeaveNext(s, k), j) + (if k < i then 1 else 0) <= Budget(s, i)
  {
    var j := if k < i then i - 1 else i;
    WithoutAt(s.waiters, k, j);
    LeaveKeepsRank(s, k);
    if k < i {
      TimesGrows(j, i, MaxHold(s.cfg) + 1);
    }
  }

  lemma SpawnDoesNotDelay(s: State, job: Job, barge: bool, t: nat, i: nat)
    requires Fair(s) && Enabled(s, Spawn(job, barge)) && Waiting(s, t) && i < |s.waiters| && s.waiters[i] == t
    ensures var s1 := SpawnNext(s, job, barge);
            i < |s1.waiters| && s1.waiters[i] == t && Budget(s1, i) <= Budget(s, i)
  {
    if MayTake(s) {
      NobodyWaits(s);
    }
  }

  lemma LoopDoesNotDelay(s: State, l: Label, t: nat, i: nat)
    requires Fair(s) && Enabled(s, l) && Waiting(s, t) && i < |s.waiters| && s.waiters[i] == t
    requires l.LoopWake? || l.LoopCancel?
    ensures i < |Next(s, l).waiters| && Next(s, l).waiters[i] == t && Budget(Next(s, l), i) <= Budget(s, i)
  {
    if MayTake(s) {
      NobodyWaits(s);
    }
  }

  lemma CancelDoesNotDelay(s: State, u: nat)
    requires Inv(s) && u < |s.tasks|
    ensures CancelTask(s, u).waiters == s.waiters && Rank(CancelTask(s, u)) == Rank(s)
    ensures Rank(StopNext(s)) == Rank(s)
  {
  }

  /** A step by the world. */
  lemma WorldDoesNotDelay(s: State, l: Label)
    requires Inv(s) && Enabled(s, l)
    requires l.StartLoop? || l.Stop? || l.AskCancel? || l.See? || l.Hear?
    ensures Next(s, l).waiters == s.waiters && Next(s, l).cfg == s.cfg && Rank(Next(s, l)) == Rank(s)
  {
    if l.AskCancel? {
      CancelDoesNotDelay(s, l.tid);
    } else if l.Stop? {
      CancelDoesNotDelay(s, 0);
    }
  }

  /** A step of the holder, by a task that is not waiting. */
  predicate IsHoldersMove(l: Label) {
    IsHolderStep(l) || l.ListenStep? || l.ListenCancel? || l.LoopResume?
  }

  /** Job t, at place i before the step, is at place j after it, and a service step used up some budget. */
  ghost predicate MovedUp(s: State, l: Label, t: nat, i: nat, j: nat)
    requires Enabled(s, l)
  {
    && j < |Next(s, l).waiters| && Next(s, l).waiters[j] == t
    && Budget(Next(s, l), j) + (if Serves(s, l, i) then 1 else 0) <= Budget(s, i)
  }

  lemma HoldersMoveUsesBudget(s: State, l: Label, t: nat, i: nat)
    requires Fair(s) && Enabled(s, l) && IsHoldersMove(l) && Waiting(s, t) && i < |s.waiters| && s.waiters[i] == t
    ensures MovedUp(s, l, t, i, i)
  {
    if IsHolderStep(l) {
      HolderStepServes(s, l, t, i);
    } else {
      ListenServes(s, l, t, i);
    }
  }

  lemma QueueStepUsesBudget(s: State, l: Label, t: nat, i: nat) returns (j: nat)
    requires Fair(s) && Enabled(s, l) && (l.Grant? || l.Leave?) && Waiting(s, t) && i < |s.waiters| && s.waiters[i] == t
    ensures Waiting(Next(s, l), t) ==> MovedUp(s, l, t, i, j)
  {
    j := i;
    if l.Leave? {
      LeaveServes(s, l.index, t, i);
      j := if l.index < i then i - 1 else i;
    } else if i == 0 {
      GrantServesHead(s);
    } else {
      GrantServes(s, i);
      j := i - 1;
    }
  }

  lemma OtherStepKeepsBudget(s: State, l: Label, t: nat, i: nat)
    requires Fair(s) && Enabled(s, l) && !IsHoldersMove(l) && !l.Grant? && !l.Leave?
    requires Waiting(s, t) && i < |s.waiters| && s.waiters[i] == t
    ensures MovedUp(s, l, t, i, i)
  {
    if l.Spawn? {
      SpawnDoesNotDelay(s, l.job, l.barge, t, i);
    } else if l.LoopWake? || l.LoopCancel? {
      LoopDoesNotDelay(s, l, t, i);
    } else {
      WorldDoesNotDelay(s, l);
    }
  }

  /** No step sets a waiting job back, and each service step uses up some of its budget. */
  lemma StepUsesBudget(s: State, l: Label, t: nat, i: nat) returns (j: nat)
    requires Fair(s) && Enabled(s, l) && Waiting(s, t) && i < |s.waiters| && s.waiters[i] == t
    ensures Waiting(Next(s, l), t) ==> MovedUp(s, l, t, i, j)
  {
    j := i;
    if IsHoldersMove(l) {
      HoldersMoveUsesBudget(s, l, t, i);
    } else if l.Grant? || l.Leave? {
      j := QueueStepUsesBudget(s, l, t, i);
    } else {
      OtherStepKeepsBudget(s, l, t, i);
    }
  }

  /** While any job waits, a step that serves it is possible: there is no deadlock. */
  lemma WaitingIsServed(s: State, t: nat, i: nat)
    requires Inv(s) && Waiting(s, t) && i < |s.waiters| && s.waiters[i] == t
    ensures exists l :: Enabled(s, l) && Serves(s, l, i)
  {
    var l: Label;
    if s.holder.None? {
      l := if s.tasks[s.waiters[0]].cancel then Leave(0) else Grant;
    } else if s.holder == Some(0) {
      l := LoopCanMove(s);
    } else {
      l := HolderCanMove(s);
    }
    assert Enabled(s, l) && Serves(s, l, i);
  }

  lemma LoopCanMove(s: State) returns (l: Label)
    requires Inv(s) && s.holder == Some(0)
    ensures Enabled(s, l) && (l.LoopResume? || l.ListenCancel? || l.ListenStep?)
  {
    assert PcOk(s.tasks[0].job, s.tasks[0].pc, s.cfg) && Holds(s.tasks[0].pc);
    var inner := s.handle.value;
    if inner.phase.Over? {
      l := LoopResume;
    } else if inner.cancel {
      l := ListenCancel;
    } else {
      l := ListenStep(match inner.phase
                      case Fresh => Rested
                      case Dialing => Dialed
                      case Live => Answered(Nothing)
                      case _ => HungUp);
    }
  }

  lemma HolderCanMove(s: State) returns (l: Label)
    requires Inv(s) && s.holder.Some? && s.holder.value > 0
    ensures Enabled(s, l) && IsHolderStep(l)
  {
    var t := s.holder.value;
    var pc := s.tasks[t].pc;
    assert PcOk(s.tasks[t].job, pc, s.cfg) && Holds(pc);
    if s.tasks[t].cancel {
      l := Abandon(t);
    } else if pc.InCall? {
      l := Step(t, match pc.session.phase
                   case Dialing => Dialed
                   case Live => Answered(Nothing)
                   case Closing(_) => HungUp
                   case _ => Rested);
    } else {
      l := WakeUp(t);
    }
  }

  // ---- whole runs ----

  /** Job t waits in every state of a run. */
  ghost predicate WaitsThroughout(s: State, run: seq<Label>, t: nat)
    requires IsRun(s, run)
    decreases |run|
  {
    Waiting(s, t) && (run == [] || WaitsThroughout(Next(s, run[0]), run[1..], t))
  }

  /** The place of a waiting job in the queue. */
  ghost function Place(s: State, t: nat): (i: nat)
    requires Inv(s) && Waiting(s, t)
    ensures i < |s.waiters| && s.waiters[i] == t
  {
    assert t in s.waiters;
    var i :| 0 <= i < |s.waiters| && s.waiters[i] == t;
    i
  }

  /** The service steps of a run, as seen by a job that waits throughout. */
  ghost function Services(s: State, run: seq<Label>, t: nat): nat
    requires Fair(s) && IsRun(s, run) && WaitsThroughout(s, run, t)
    decreases |run|
  {
    if run == [] then 0
    else
      KeepsFair(s, run[0]);
      (if Serves(s, run[0], Place(s, t)) then 1 else 0) + Services(Next(s, run[0]), run[1..], t)
  }

  /** A job that waits throughout a run has seen no more service steps than its budget at the start. */
  lemma {:induction false} WaitingIsBounded(s: State, run: seq<Label>, t: nat)
    requires Fair(s) && IsRun(s, run) && WaitsThroughout(s, run, t)
    ensures Services(s, run, t) <= Budget(s, Place(s, t))
    decreases |run|
  {
    var i := Place(s, t);
    RankIsBounded(s);
    if run == [] {
      TimesIsNatural(i, MaxHold(s.cfg) + 1);
    } else {
      var s1 := Next(s, run[0]);
      KeepsFair(s, run[0]);
      var j := StepUsesBudget(s, run[0], t, i);
      assert Waiting(s1, t);
      assert j == Place(s1, t);
      WaitingIsBounded(s1, run[1..], t);
    }
  }

  // ---- a hold ends ----

  lemma ListenUsesRank(s: State, l: Label)
    requires Inv(s) && Enabled(s, l) && (l.ListenStep? || l.ListenCancel? || l.LoopResume?)
    ensures s.holder == Some(0)
    ensures Next(s, l).holder == s.holder ==> Rank(Next(s, l)) + 1 <= Rank(s)
  {
  }

  lemma HolderUsesRank(s: State, l: Label)
    requires Inv(s) && Enabled(s, l) && IsHolderStep(l)
    ensures s.holder == Some(l.tid)
    ensures Next(s, l).holder == s.holder ==> Rank(Next(s, l)) + 1 <= Rank(s)
  {
    MovesOk(s, l);
    MovesShorten(s, l);
  }

  lemma SpawnKeepsRank(s: State, job: Job, barge: bool)
    requires Inv(s) && Enabled(s, Spawn(job, barge)) && s.holder.Some?
    ensures Rank(SpawnNext(s, job, barge)) == Rank(s)
  {
  }

  lemma LoopKeepsRank(s: State, l: Label)
    requires Inv(s) && Enabled(s, l) && s.holder.Some? && (l.LoopWake? || l.LoopCancel?)
    ensures Rank(Next(s, l)) == Rank(s)
  {
  }

  /** While the lock stays with its holder, each of the holder's steps lowers the rank and no other raises it. */
  lemma StepUsesRank(s: State, l: Label)
    requires Inv(s) && Enabled(s, l) && s.holder.Some? && Next(s, l).holder == s.holder
    ensures Rank(Next(s, l)) + (if IsHoldersMove(l) then 1 else 0) <= Rank(s)
  {
    if IsHolderStep(l) {
      HolderUsesRank(s, l);
    } else if IsHoldersMove(l) {
      ListenUsesRank(s, l);
    } else if l.Spawn? {
      SpawnKeepsRank(s, l.job, l.barge);
    } else if l.Leave? {
      LeaveKeepsRank(s, l.index);
    } else if l.LoopWake? || l.LoopCancel? {
      LoopKeepsRank(s, l);
    } else {
      WorldDoesNotDelay(s, l);
    }
  }

  /** Task t holds the lock in every state of a run. */
  ghost predicate HoldsThroughout(s: State, run: seq<Label>, t: nat)
    requires IsRun(s, run)
    decreases |run|
  {
    s.holder == Some(t) && (run == [] || HoldsThroughout(Next(s, run[0]), run[1..], t))
  }

  /** The holder's own steps in a run. */
  ghost function HoldersMoves(s: State, run: seq<Label>): nat
    requires IsRun(s, run)
    decreases |run|
  {
    if run == [] then 0
    else (if IsHoldersMove(run[0]) then 1 else 0) + HoldersMoves(Next(s, run[0]), run[1..])
  }

  /** A task that still holds the lock has used up as much of its rank as it made steps. */
  lemma {:induction false} HoldingIsBounded(s: State, run: seq<Label>, t: nat)
    requires Inv(s) && IsRun(s, run) && HoldsThroughout(s, run, t)
    ensures Inv(After(s, run)) && HoldersMoves(s, run) + Rank(After(s, run)) <= Rank(s)
    decreases |run|
  {
    if run != [] {
      StepUsesRank(s, run[0]);
      Keeps(s, run[0]);
      HoldingIsBounded(Next(s, run[0]), run[1..], t);
    }
  }

  lemma {:induction false} TimesIsNatural(n: nat, c: int)
    requires c >= 0
    ensures Times(n, c) >= 0
  {
    if n > 0 {
      TimesIsNatural(n - 1, c);
    }
  }
}
