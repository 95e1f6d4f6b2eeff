/** The coordinator's tasks as a transition system. Code between two awaits is one atomic step.
    Task 0 is the real-time loop; tasks 1, 2, ... are one-shot jobs in order of arrival. */
module Protocol {
  import opened Types
  import opened Cache
  import opened Trace
  import Auxiliary

  // ---- one client call: connect, run, disconnect, and for reads retry ----

  datatype Phase =
    | Fresh                  // the listen task exists but has not run yet
    | Dialing
    | Live
    | Closing(reply: Reply)  // disconnecting; the call will end with this reply
    | Resting                // between two attempts of a retried read
    | Over(reply: Reply)     // the listen task is done

  datatype Session = Session(call: Call, phase: Phase, tries: nat)

  /** What the outside world does to a call in progress. */
  datatype Input =
    | Dialed
    | Broke(reply: Reply)     // no connection
    | Answered(reply: Reply)
    | HungUp                  // the bounded disconnect attempt is over
    | Rested

  /** Calls whose disconnect step swallows a cancellation. */
  predicate Swallows(c: Call) {
    c.ReadCall? || c.FrontRead? || c.Listen? || (c.SetCall? && !c.op.ChangeLanguage?)
  }

  /** Calls that return None instead of raising when they cannot connect. */
  predicate ToleratesNoConnection(c: Call) {
    c.ReadCall? || c.FrontRead? || GatedSet(c)
  }

  predicate GatedSet(c: Call) {
    c.SetCall? && c.op.NeedsPresence()
  }

  /** The replies a call's type allows. */
  predicate Allowed(c: Call, r: Reply) {
    match r
    case Got(report) =>
      c.ReadCall? && report.Name() == c.name
    case Flag(_) => c.FrontRead? || c.Operate?
    case Enrolled(_) => c.EnrolCall?
    case Nothing => true
    case Failed(_) => true
    case Cancelled => false
  }

  predicate InputOk(s: Session, i: Input) {
    match i
    case Dialed => s.phase.Dialing?
    case Broke(r) => s.phase.Dialing? && (r.Failed? || (r.Nothing? && ToleratesNoConnection(s.call)))
    case Answered(r) => s.phase.Live? && Allowed(s.call, r)
    case HungUp => s.phase.Closing?
    case Rested => s.phase.Resting?
  }

  // ---- one task ----

  /** How a task ends; Raised carries the error as the coordinator notes it, before it is wrapped. */
  datatype Outcome = Finished | Raised(error: Error) | WasCancelled

  datatype Pc =
    | Idle                                // the loop, not started
    | Queued                              // waiting for the operation lock
    | InCall(session: Session, rung: nat) // inside a client call (rung counts the presence ladder)
    | Pressing                            // awaiting the wake-switch service call
    | Napping(rung: nat)                  // sleeping before front-panel poll number rung
    | Listening                           // the loop, awaiting its listen task
    | Pausing                             // the loop, sleeping
    | Done(outcome: Outcome)

  predicate Holds(pc: Pc) {
    pc.InCall? || pc.Pressing? || pc.Napping? || pc.Listening?
  }

  datatype Task = Task(job: Job, pc: Pc, cancel: bool)

  /** Whether a wake switch is configured, and how many polls a presence wait makes. */
  datatype Config = Config(wakeSwitch: bool, attempts: nat)

  const DATA_PRESENCE_WINDOW_SECONDS := 30.0
  const PRESENCE_POLL_SECONDS := 3.0

  /** The number of polls that fit into the window, at least one. */
  function Polls(window: real, poll: real): nat
    requires poll > 0.0 && window >= 0.0
  {
    var n := (window / poll).Floor;
    if n < 1 then 1 else n
  }

  /** The configuration the coordinator runs with. */
  function Shipped(wakeSwitch: bool): Config {
    Config(wakeSwitch, Polls(DATA_PRESENCE_WINDOW_SECONDS, PRESENCE_POLL_SECONDS))
  }

  /** The notification id is shared; a step keeps, raises or dismisses it. */
  datatype Note = Keep | Raise | Drop

  /** One atomic step of one task: its next program counter and its effect on the shared state. */
  datatype Move = Move(pc: Pc, core: Core, note: Note, burst: Burst)

  function Action(job: Job): Call {
    match job
    case Actuate(lock) => Operate(lock)
    case Write(op) => SetCall(op)
    case Enrol(group, kind) => EnrolCall(group, kind)
    case BackgroundRead(name) => ReadCall(name)
    case RealtimeLoop => Listen
  }

  function Dial(c: Call, rung: nat): Pc {
    InCall(Session(c, Dialing, 0), rung)
  }

  /** An operation has the lock and a reachable radio: it is marked busy and named. */
  function Begin(core: Core, job: Job): Core {
    core.(operationInProgress := true, lastOperation := Some(job), lastErrorType := None)
  }

  /** An operation is over: the busy flag is cleared and an error is noted by its type. */
  function End(core: Core, out: Outcome): Core {
    core.(operationInProgress := false,
          lastErrorType := if out.Raised? then Some(out.error) else core.lastErrorType)
  }

  /** The task pushes the snapshot and leaves the lock. */
  function FinishOperation(job: Job, core: Core, out: Outcome, inLadder: bool, b: Burst): Move {
    Move(Done(out), End(core, out), if inLadder || job.Announced() then Drop else Keep,
         b.(published := true, released := true))
  }

  /** The lock has just been granted. */
  function Enter(job: Job, core: Core, reachable: bool, b: Burst): Move {
    var g := b.(granted := true);
    if job.BackgroundRead? then
      Move(Dial(ReadCall(job.name), 0), core, Keep, g.(started := Some(ReadCall(job.name))))
    else if !reachable then
      Move(Done(Raised(BluetoothUnavailableError)), core, if job.Announced() then Drop else Keep, g.(released := true))
    else
      var first := if job.NeedsPresence() then FrontRead else Action(job);
      Move(Dial(first, 0), Begin(core, job), Keep, g.(published := true, started := Some(first)))
  }

  /** A background read's client call ended: release the lock, then store a reported value. */
  ghost function FinishRead(core: Core, r: Reply, b: Burst): Move {
    match r
    case Got(report) =>
      var core1 := core.(values := Apply(core.values, report));
      Move(Done(Finished), core1, Keep, b.(released := true, published := core1 != core))
    case Failed(AuthenticationError) =>
      Move(Done(Finished), core.(lastErrorType := Some(AuthenticationError)), Keep, b.(released := true))
    case Cancelled => Move(Done(WasCancelled), core, Keep, b.(released := true))
    case _ => Move(Done(Finished), core, Keep, b.(released := true))
  }

  /** A front-panel read of the presence ladder ended without an error. */
  function ClimbLadder(job: Job, rung: nat, r: Reply, core: Core, cfg: Config, b: Burst): Move {
    if r == Flag(true) then
      Move(Dial(Action(job), 0), core, if rung > 0 then Drop else Keep, b.(started := Some(Action(job))))
    else if rung == 0 then
      if cfg.wakeSwitch then Move(Pressing, core, Keep, b.(asked := true))
      else Move(Napping(1), core, Raise, b.(asked := true))
    else if rung < cfg.attempts then Move(Napping(rung + 1), core, Keep, b)
    else FinishOperation(job, core, Raised(PresenceRequiredError), true, b)
  }

  /** The operation's own client call ended without an error. */
  function AfterAction(job: Job, r: Reply, core: Core, b: Burst): Move {
    match job
    case Actuate(lock) =>
      var position := if r.Flag? then r.value else lock;
      FinishOperation(job, core.(values := core.values.(isLocked := Some(position))), Finished, false, b)
    case _ =>
      if job.Enrol? && r != Enrolled(true) then FinishOperation(job, core, Raised(OperationError), false, b)
      else match job.PostRead()
        case Some(n) => Move(Dial(ReadCall(n), 0), core, Keep, b.(started := Some(ReadCall(n))))
        case None => FinishOperation(job, core, Finished, false, b)
  }

  /** A client call of a one-shot task ended with reply r. */
  ghost function OnReply(job: Job, call: Call, rung: nat, r: Reply, core: Core, cfg: Config, b0: Burst): Move {
    var b := b0.(ended := Some(Ending(call, r)));
    if job.BackgroundRead? then FinishRead(core, r, b)
    else if r.Failed? then FinishOperation(job, core, Raised(r.error), rung > 0, b)
    else if r.Cancelled? then FinishOperation(job, core, WasCancelled, rung > 0, b)
    else if call == FrontRead then ClimbLadder(job, rung, r, core, cfg, b)
    else if call == Action(job) then AfterAction(job, r, core, b)
    else
      var core1 := if r.Got? then core.(values := Apply(core.values, r.report)) else core;
      FinishOperation(job, core1, Finished, false, b)
  }

  /** The rows of a credential table, if the reply carries one. */
  function TableIn(r: Reply): Option<seq<string>> {
    if r.Got? && r.report.SawCredentials? then Some(r.report.rows) else None
  }

  /** What the client hands on: an empty credential table counts as no answer. */
  function Delivered(r: Reply): Reply {
    if TableIn(r) == Some([]) then Nothing else r
  }

  /** One attempt of a call is over; a read that brought nothing useful is retried a bounded number of times. */
  ghost function EndAttempt(job: Job, ses: Session, rung: nat, r: Reply, core: Core, cfg: Config, b: Burst): Move {
    if ses.call.ReadCall? && Delivered(r).Nothing? && ses.tries + 1 < BLE_READ_ATTEMPTS
    then Move(InCall(ses.(phase := Resting), rung), core, Keep, b)
    else OnReply(job, ses.call, rung, Delivered(r), core, cfg, b.(table := TableIn(r)))
  }

  ghost function Progress(job: Job, ses: Session, rung: nat, i: Input, core: Core, cfg: Config, b: Burst): Move
    requires InputOk(ses, i)
  {
    match i
    case Dialed => Move(InCall(ses.(phase := Live), rung), core, Keep, b.(connected := true))
    case Broke(r) => EndAttempt(job, ses, rung, r, core, cfg, b)
    case Answered(r) => Move(InCall(ses.(phase := Closing(r)), rung), core, Keep, b)
    case HungUp => EndAttempt(job, ses, rung, ses.phase.reply, core, cfg, b.(disconnected := true))
    case Rested => Move(InCall(ses.(phase := Dialing, tries := ses.tries + 1), rung), core, Keep, b)
  }

  /** A pending cancellation is delivered to a task that holds the lock. */
  ghost function Abort(job: Job, pc: Pc, core: Core, cfg: Config, b: Burst): Move
    requires Holds(pc) && !pc.Listening?
  {
    match pc
    case InCall(ses, rung) =>
      (match ses.phase
       case Live => Move(InCall(ses.(phase := Closing(Cancelled)), rung), core, Keep, b)
       case Closing(r) =>
         if Swallows(ses.call) then EndAttempt(job, ses, rung, r, core, cfg, b.(disconnected := true))
         else OnReply(job, ses.call, rung, Cancelled, core, cfg, b.(disconnected := true))
       case _ => OnReply(job, ses.call, rung, Cancelled, core, cfg, b))
    case Pressing => FinishOperation(job, core, WasCancelled, false, b)
    case Napping(_) => FinishOperation(job, core, WasCancelled, true, b)
  }

  /** The wake-switch call returned (or failed), or a nap between two polls is over. */
  function OnWake(pc: Pc, core: Core, b: Burst): Move
    requires pc.Pressing? || pc.Napping?
  {
    match pc
    case Pressing => Move(Napping(1), core, Raise, b)
    case Napping(rung) => Move(Dial(FrontRead, rung), core, Keep, b.(started := Some(FrontRead)))
  }

  // ---- the whole system ----

  /** The listen task the loop awaits, and whether a cancellation of it is pending. */
  datatype Inner = Inner(phase: Phase, cancel: bool)

  datatype State = State(
    cfg: Config,
    tasks: seq<Task>,
    holder: Option<nat>,    // the task that holds the operation lock
    waiters: seq<nat>,      // the lock's FIFO queue
    handle: Option<Inner>,  // the coordinator's listen handle
    started: bool,          // the coordinator still holds the loop's task object
    stop: bool,             // the real-time stop flag
    core: Core,
    data: Snapshot,
    bluetooth: BluetoothState,
    notified: bool,         // the shared keypad notification is showing
    log: Log)

  function Init(cfg: Config, b: BluetoothState): State {
    State(cfg, [Task(RealtimeLoop, Idle, false)], None, [], None, false, false,
          INITIAL_CORE, BuildSnapshot(INITIAL_CORE, b), b, false, Empty)
  }

  /** Task t takes an atomic step. */
  function Commit(s: State, t: nat, m: Move): State
    requires t < |s.tasks|
  {
    s.(tasks := s.tasks[t := s.tasks[t].(pc := m.pc, cancel := false)],
       holder := if m.burst.released then None else if m.burst.granted then Some(t) else s.holder,
       core := m.core,
       data := if m.burst.published then BuildSnapshot(m.core, s.bluetooth) else s.data,
       notified := if m.note == Keep then s.notified else m.note == Raise,
       log := Then(s.log, Did(m.burst)))
  }

  /** The listen is certain to end: its cancellation is pending, or it is already hanging up or done. */
  predicate Doomed(i: Inner) {
    i.cancel || i.phase.Closing? || i.phase.Over?
  }

  /** Cancels the held listen unless it is already done. */
  function Preempt(h: Option<Inner>): Option<Inner> {
    match h
    case Some(i) => if i.phase.Over? then h else Some(i.(cancel := true))
    case None => None
  }

  /** Cancels a task; a loop that awaits an unfinished listen passes the cancellation on to it. */
  function CancelTask(s: State, t: nat): State
    requires t < |s.tasks|
  {
    if s.tasks[t].pc.Listening? && s.handle.Some? && !s.handle.value.phase.Over? then s.(handle := Preempt(s.handle))
    else s.(tasks := s.tasks[t := s.tasks[t].(cancel := true)])
  }

  predicate Alive(pc: Pc) {
    !pc.Done? && !pc.Idle?
  }

  datatype Label =
    | Spawn(job: Job, barge: bool)
    | StartLoop
    | Stop
    | AskCancel(tid: nat)
    | See(state: BluetoothState)
    | Hear(event: LockEvent)
    | Grant
    | Leave(index: nat)
    | Step(tid: nat, input: Input)
    | Abandon(tid: nat)
    | WakeUp(tid: nat)
    | ListenStep(input: Input)
    | ListenCancel
    | LoopResume
    | LoopWake(barge: bool)
    | LoopCancel

  /** A free lock is taken at once when nobody waits; with only cancelled waiters left it may be. */
  predicate MayTake(s: State) {
    s.holder.None? && forall i | 0 <= i < |s.waiters| :: s.waiters[i] < |s.tasks| && s.tasks[s.waiters[i]].cancel
  }

  predicate BargeOk(s: State, barge: bool) {
    && (barge ==> MayTake(s))
    && (!barge ==> s.holder.Some? || s.waiters != [])
  }

  /** An auxiliary toggle sends a mask built from the cache when it is called. */
  predicate JobOk(s: State, job: Job) {
    match job
    case RealtimeLoop => false
    case Write(SetAuxiliary(toggle, enabled, mask)) =>
      mask == Auxiliary.BuildMask(s.core.values.settings.auxiliaryLocking, toggle, enabled)
    case _ => true
  }

  predicate IsOneShot(s: State, t: nat) {
    0 < t < |s.tasks|
  }

  predicate Enabled(s: State, l: Label) {
    match l
    case Spawn(job, barge) =>
      JobOk(s, job) && ((job.BackgroundRead? && !s.bluetooth.reachable) || BargeOk(s, barge))
    case StartLoop => |s.tasks| > 0 && s.tasks[0].pc.Idle? && !s.started
    case Stop => |s.tasks| > 0
    case AskCancel(t) => t < |s.tasks| && Alive(s.tasks[t].pc)
    case See(_) => true
    case Hear(_) => s.handle.Some? && s.handle.value.phase.Live?
    case Grant =>
      s.holder.None? && s.waiters != [] && s.waiters[0] < |s.tasks| && !s.tasks[s.waiters[0]].cancel
    case Leave(i) => i < |s.waiters| && s.waiters[i] < |s.tasks| && s.tasks[s.waiters[i]].cancel
    case Step(t, i) =>
      IsOneShot(s, t) && s.tasks[t].pc.InCall? && !s.tasks[t].cancel && InputOk(s.tasks[t].pc.session, i)
    case Abandon(t) =>
      IsOneShot(s, t) && s.tasks[t].cancel && Holds(s.tasks[t].pc) && !s.tasks[t].pc.Listening?
    case WakeUp(t) => IsOneShot(s, t) && !s.tasks[t].cancel && (s.tasks[t].pc.Pressing? || s.tasks[t].pc.Napping?)
    case ListenStep(i) =>
      && s.handle.Some? && !s.handle.value.cancel && |s.tasks| > 0
      && (|| InputOk(Session(Listen, s.handle.value.phase, 0), i)
          || (s.handle.value.phase.Fresh? && (i.Rested? || (i.Broke? && i.reply.Failed?))))
    case ListenCancel => s.handle.Some? && s.handle.value.cancel && !s.handle.value.phase.Over? && |s.tasks| > 0
    case LoopResume => s.handle.Some? && s.handle.value.phase.Over? && |s.tasks| > 0
    case LoopWake(barge) =>
      && |s.tasks| > 0 && s.tasks[0].pc.Pausing? && !s.tasks[0].cancel
      && (s.stop || !s.bluetooth.reachable || BargeOk(s, barge))
    case LoopCancel => |s.tasks| > 0 && s.tasks[0].pc.Pausing? && s.tasks[0].cancel
  }

  // ---- steps of one-shot tasks ----

  /** A job is called: a language change raises the notification, and a held listen is preempted. */
  function Arrive(s: State, job: Job): State {
    s.(tasks := s.tasks + [Task(job, Queued, false)],
       handle := Preempt(s.handle),
       notified := s.notified || job.Announced())
  }

  function SpawnNext(s: State, job: Job, barge: bool): State
    requires JobOk(s, job)
  {
    var t := |s.tasks|;
    if job.BackgroundRead? && !s.bluetooth.reachable then
      s.(tasks := s.tasks + [Task(job, Done(Finished), false)])
    else
      var b := Quiet(t).(arrived := Some(0 in s.waiters));
      var s1 := Arrive(s, job);
      if barge then Commit(s1, t, Enter(job, s.core, s.bluetooth.reachable, b))
      else s1.(waiters := s.waiters + [t], log := Then(s.log, Did(b)))
  }

  /** A cancelled waiter leaves the queue. */
  function LeaveNext(s: State, i: nat): State
    requires Enabled(s, Leave(i))
  {
    var t := s.waiters[i];
    var s1 := s.(waiters := s.waiters[..i] + s.waiters[i + 1..]);
    var b := Quiet(t).(left := true);
    if t == 0 then Commit(s1, 0, Move(if s.stop then Done(WasCancelled) else Pausing, s.core, Keep, b))
    else Commit(s1, t, Move(Done(WasCancelled), s.core, if s.tasks[t].job.Announced() then Drop else Keep, b))
  }

  /** The head of the queue takes the free lock. */
  function GrantNext(s: State): State
    requires Enabled(s, Grant)
  {
    var t := s.waiters[0];
    var s1 := s.(waiters := s.waiters[1..]);
    if t == 0 then EnterLoop(s1)
    else Commit(s1, t, Enter(s.tasks[t].job, s.core, s.bluetooth.reachable, Quiet(t)))
  }

  // ---- steps of the real-time loop ----

  /** The loop holds the lock: it creates the listen task and awaits it. */
  function EnterLoop(s: State): State
    requires |s.tasks| > 0
  {
    Commit(s, 0, Move(Listening, s.core, Keep, Quiet(0).(granted := true, started := Some(Listen))))
      .(handle := Some(Inner(Fresh, false)))
  }

  /** The top of the loop: leave, sleep while unreachable, or take the lock. */
  function LoopTop(s: State, barge: bool): State
    requires |s.tasks| > 0
  {
    if s.stop then Commit(s, 0, Move(Done(Finished), s.core, Keep, Quiet(0)))
    else if !s.bluetooth.reachable then Commit(s, 0, Move(Pausing, s.core, Keep, Quiet(0)))
    else if barge then EnterLoop(s)
    else Commit(s.(waiters := s.waiters + [0]), 0, Move(Queued, s.core, Keep, Quiet(0)))
  }

  /** The awaited listen is done: drop the handle, release the lock, and pause unless stopping. */
  function ResumeNext(s: State): State
    requires Enabled(s, LoopResume)
  {
    var r := s.handle.value.phase.reply;
    var interrupted := r.Cancelled? || s.tasks[0].cancel;
    var pc := if interrupted && s.stop then Done(WasCancelled) else Pausing;
    Commit(s, 0, Move(pc, s.core, Keep, Quiet(0).(ended := Some(Ending(Listen, r)), released := true)))
      .(handle := None)
  }

  /** The listen task itself moves on; the loop still awaits it. */
  function MoveListen(s: State, phase: Phase, b: Burst): State {
    s.(handle := Some(Inner(phase, false)), log := Then(s.log, Did(b)))
  }

  function ListenPhase(p: Phase, i: Input): Phase {
    match i
    case Dialed => Live
    case Broke(r) => Over(r)
    case Answered(r) => Closing(r)
    case HungUp => if p.Closing? then Over(p.reply) else p
    case Rested => Dialing  // the task's first step
  }

  function ListenNext(s: State, i: Input): State
    requires s.handle.Some?
  {
    MoveListen(s, ListenPhase(s.handle.value.phase, i), Quiet(0).(connected := i.Dialed?, disconnected := i.HungUp?))
  }

  /** A cancellation reaches the listen: it hangs up first, and a hang-up in progress swallows it. */
  function HangUpPhase(p: Phase): Phase {
    match p
    case Live => Closing(Cancelled)
    case Closing(r) => Over(r)
    case _ => Over(Cancelled)
  }

  function ListenCancelNext(s: State): State
    requires s.handle.Some?
  {
    MoveListen(s, HangUpPhase(s.handle.value.phase), Quiet(0).(disconnected := s.handle.value.phase.Closing?))
  }

  function StopNext(s: State): State
    requires |s.tasks| > 0
  {
    var s1 := s.(stop := true, handle := Preempt(s.handle));
    if s.started && Alive(s.tasks[0].pc) then CancelTask(s1.(started := false), 0)
    else s1.(started := false)
  }

  function HearNext(s: State, e: LockEvent): State {
    var core1 := s.core.(values := OnEvent(s.core.values, e));
    s.(core := core1,
       data := if core1 != s.core then BuildSnapshot(core1, s.bluetooth) else s.data,
       log := Then(s.log, Heard(e, core1 != s.core)))
  }

  ghost function Next(s: State, l: Label): State
    requires Enabled(s, l)
  {
    match l
    case Spawn(job, barge) => SpawnNext(s, job, barge)
    case StartLoop => s.(tasks := s.tasks[0 := s.tasks[0].(pc := Pausing)], started := true, stop := false)
    case Stop => StopNext(s)
    case AskCancel(t) => CancelTask(s, t)
    case See(b) => s.(bluetooth := b, data := BuildSnapshot(s.core, b), log := Then(s.log, Radio(b)))
    case Hear(e) => HearNext(s, e)
    case Grant => GrantNext(s)
    case Leave(i) => LeaveNext(s, i)
    case Step(t, i) =>
      var pc := s.tasks[t].pc;
      Commit(s, t, Progress(s.tasks[t].job, pc.session, pc.rung, i, s.core, s.cfg, Quiet(t)))
    case Abandon(t) => Commit(s, t, Abort(s.tasks[t].job, s.tasks[t].pc, s.core, s.cfg, Quiet(t)))
    case WakeUp(t) => Commit(s, t, OnWake(s.tasks[t].pc, s.core, Quiet(t)))
    case ListenStep(i) => ListenNext(s, i)
    case ListenCancel => ListenCancelNext(s)
    case LoopResume => ResumeNext(s)
    case LoopWake(barge) => LoopTop(s, barge)
    case LoopCancel => Commit(s, 0, Move(Done(WasCancelled), s.core, Keep, Quiet(0)))
  }

  // ---- runs ----

  ghost predicate IsRun(s: State, run: seq<Label>)
    decreases |run|
  {
    run == [] || (Enabled(s, run[0]) && IsRun(Next(s, run[0]), run[1..]))
  }

  ghost function After(s: State, run: seq<Label>): State
    requires IsRun(s, run)
    decreases |run|
  {
    if run == [] then s else After(Next(s, run[0]), run[1..])
  }
}
