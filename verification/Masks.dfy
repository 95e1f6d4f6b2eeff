/** The auxiliary masks that runs write: each is one assignment on the mask known when its call was made. */
module Masks {
  import opened Types
  import opened Cache
  import opened Trace
  import opened Protocol
  import opened Arrivals
  import opened Facts
  import opened Theorems
  import Auxiliary

  /** The mask a report carries. */
  function MaskIn(r: Option<Report>): Option<Mask> {
    if r.Some? && r.value.SawAuxiliary? then Some(r.value.mask) else None
  }

  /** The mask last reported when task t was called. */
  function MaskAtArrival(log: Log, t: nat): Option<Mask> {
    match log
    case Empty => None
    case Then(past, Did(b)) =>
      if b.tid == t && b.arrived.Some? then MaskIn(LastReport(past, AuxiliaryLocking)) else MaskAtArrival(past, t)
    case Then(past, _) => MaskAtArrival(past, t)
  }

  /** A toggle's mask is one assignment on the given one. */
  predicate Assigns(job: Job, known: Option<Mask>) {
    job.Write? && job.op.SetAuxiliary? ==> job.op.mask == Auxiliary.BuildMask(known, job.op.toggle, job.op.enabled)
  }

  ghost predicate Built(s: State) {
    forall t | 0 <= t < |s.tasks| :: Assigns(s.tasks[t].job, MaskAtArrival(s.log, t))
  }

  lemma NoArrivalKeepsBuilt(s: State, l: Label)
    requires Built(s) && Enabled(s, l) && NoArrival(s, l)
    ensures Built(Next(s, l))
  {
    var s1 := Next(s, l);
    forall t | 0 <= t < |s1.tasks| ensures Assigns(s1.tasks[t].job, MaskAtArrival(s1.log, t)) {
      assert Assigns(s.tasks[t].job, MaskAtArrival(s.log, t));
    }
  }

  lemma ReportedMaskIsCached(s: State)
    requires Honest(s)
    ensures MaskIn(LastReport(s.log, AuxiliaryLocking)) == s.core.values.settings.auxiliaryLocking
  {
    LastReportIsNamed(s.log, AuxiliaryLocking);
    assert Known(s.core.values, AuxiliaryLocking) == AsFact(LastReport(s.log, AuxiliaryLocking));
  }

  /** The burst that records an arrival records it under the new task only. */
  lemma ArrivalRecords(log: Log, b: Burst, t: nat)
    requires b.arrived.Some?
    ensures MaskAtArrival(Then(log, Did(b)), t)
         == if t == b.tid then MaskIn(LastReport(log, AuxiliaryLocking)) else MaskAtArrival(log, t)
  {
  }

  lemma SpawnKeepsBuilt(s: State, job: Job, barge: bool)
    requires Honest(s) && Built(s) && Enabled(s, Spawn(job, barge))
    ensures Built(SpawnNext(s, job, barge))
  {
    var s1 := SpawnNext(s, job, barge);
    ReportedMaskIsCached(s);
    if !(job.BackgroundRead? && !s.bluetooth.reachable) {
      SpawnRecords(s, job, barge);
      forall t | 0 <= t < |s1.tasks| ensures Assigns(s1.tasks[t].job, MaskAtArrival(s1.log, t)) {
        ArrivalRecords(s.log, s1.log.last.burst, t);
        assert t < |s.tasks| ==> Assigns(s.tasks[t].job, MaskAtArrival(s.log, t));
      }
    } else {
      forall t | 0 <= t < |s1.tasks| ensures Assigns(s1.tasks[t].job, MaskAtArrival(s1.log, t)) {
        assert t < |s.tasks| ==> Assigns(s.tasks[t].job, MaskAtArrival(s.log, t));
      }
    }
  }

  lemma KeepsBuilt(s: State, l: Label)
    requires Honest(s) && Built(s) && Enabled(s, l)
    ensures Built(Next(s, l))
  {
    if l.Spawn? {
      SpawnKeepsBuilt(s, l.job, l.barge);
    } else {
      NobodyArrives(s, l);
      NoArrivalKeepsBuilt(s, l);
    }
  }

  lemma {:induction false} RunBuilt(s: State, run: seq<Label>)
    requires Honest(s) && Built(s) && IsRun(s, run)
    ensures Built(After(s, run))
    decreases |run|
  {
    if run != [] {
      KeepsBuilt(s, run[0]);
      KeepsHonest(s, run[0]);
      RunBuilt(Next(s, run[0]), run[1..]);
    }
  }

  /** In every run, the mask a toggle call writes is one assignment on the mask that was cached when it was
      called. It is one on the mask cached now, and so clobbers nothing the coordinator knows of, exactly
      when the cached mask agrees with the one of then on the other toggles. */
  lemma MasksAreAssignments(s: State, t: nat)
    requires Reachable(s) && t < |s.tasks| && s.tasks[t].job.Write? && s.tasks[t].job.op.SetAuxiliary?
    ensures var op := s.tasks[t].job.op;
            var cached := s.core.values.settings.auxiliaryLocking;
            && op.mask == Auxiliary.BuildMask(MaskAtArrival(s.log, t), op.toggle, op.enabled)
            && (op.mask == Auxiliary.BuildMask(cached, op.toggle, op.enabled) <==>
                Auxiliary.AgreeExceptOn(Auxiliary.Filled(MaskAtArrival(s.log, t)), Auxiliary.Filled(cached), op.toggle))
  {
    var cfg, b, run :| Leads(cfg, b, run, s);
    InitIsHonest(cfg, b);
    RunBuilt(Init(cfg, b), run);
    var op := s.tasks[t].job.op;
    assert Assigns(s.tasks[t].job, MaskAtArrival(s.log, t));
    Auxiliary.SameUpToOne(Auxiliary.Filled(MaskAtArrival(s.log, t)),
                          Auxiliary.Filled(s.core.values.settings.auxiliaryLocking),
                          op.toggle, op.enabled);
  }
}
