/** What happened in a run, one entry for each atomic step, and the disciplines a good run keeps. */
module Trace {
  import opened Types

  /** A client call that opens BLE sessions. */
  datatype Call =
    | Operate(lock: bool)
    | SetCall(op: WriteOp)
    | EnrolCall(group: int, kind: string)
    | FrontRead
    | ReadCall(name: ReadName)
    | Listen

  predicate GatedCall(c: Call) {
    c.EnrolCall? || (c.SetCall? && c.op.NeedsPresence())
  }

  datatype Ending = Ending(call: Call, reply: Reply)
  datatype Flying = Flying(tid: nat, call: Call)

  /** One task's atomic step, between two of its suspension points. What the step did,
      in the order it did it: it joined the lock's queue (recording whether the real-time loop
      already stood in it), was granted the lock, connected, disconnected, saw a client call end,
      asked for a key press, pushed the snapshot, released the lock, began a client call. A step
      that ends a credential read also records the table the lock answered, and a cancelled waiter
      that it left the queue. */
  datatype Burst = Burst(
    tid: nat,
    arrived: Option<bool>,
    granted: bool,
    connected: bool,
    disconnected: bool,
    ended: Option<Ending>,
    asked: bool,
    published: bool,
    released: bool,
    started: Option<Call>,
    table: Option<seq<string>>,
    left: bool)

  function Quiet(t: nat): Burst {
    Burst(t, None, false, false, false, None, false, false, false, None, None, false)
  }

  datatype Entry =
    | Did(burst: Burst)
    | Heard(event: LockEvent, published: bool)  // an event pushed over the held listen
    | Radio(state: BluetoothState)              // a reachability change, always pushed

  datatype Log = Empty | Then(past: Log, last: Entry)

  // ---- the lock, the client call in flight and the open connection, as the log tells them ----

  function Owner(log: Log): Option<nat> {
    match log
    case Empty => None
    case Then(past, Did(b)) =>
      if b.released then None else if b.granted then Some(b.tid) else Owner(past)
    case Then(past, _) => Owner(past)
  }

  function InFlight(log: Log): Option<Flying> {
    match log
    case Empty => None
    case Then(past, Did(b)) =>
      if b.started.Some? then Some(Flying(b.tid, b.started.value))
      else if b.ended.Some? then None
      else InFlight(past)
    case Then(past, _) => InFlight(past)
  }

  function Linked(log: Log): Option<nat> {
    match log
    case Empty => None
    case Then(past, Did(b)) => if b.connected then Some(b.tid) else if b.disconnected then None else Linked(past)
    case Then(past, _) => Linked(past)
  }

  /** Whether a step may follow: at most one lock owner, one client call and one connection;
      calls only by the owner, connections only inside calls, no call ends and the lock is not
      released while a connection is open. */
  predicate Legal(b: Burst, owner: Option<nat>, flight: Option<Flying>, link: Option<nat>) {
    var owner1 := if b.granted then Some(b.tid) else owner;
    var link1 := if b.connected then Some(b.tid) else if b.disconnected then None else link;
    var flight1 := if b.ended.Some? then None else flight;
    && (b.granted ==> owner == None && flight == None && link == None)
    && (b.connected ==> owner1 == Some(b.tid) && link == None && !b.disconnected)
    && (b.connected ==> flight.Some? && flight.value.tid == b.tid)
    && (b.disconnected ==> link == Some(b.tid) && owner1 == Some(b.tid))
    && (b.ended.Some? ==> flight == Some(Flying(b.tid, b.ended.value.call)) && link1 == None)
    && (b.released ==> owner1 == Some(b.tid) && flight1 == None && link1 == None)
    && (b.started.Some? ==> owner1 == Some(b.tid) && !b.released && flight1 == None && link1 == None)
  }

  predicate Disciplined(log: Log) {
    match log
    case Empty => true
    case Then(past, Did(b)) => Disciplined(past) && Legal(b, Owner(past), InFlight(past), Linked(past))
    case Then(past, Heard(_, _)) => Disciplined(past) && Linked(past) == Some(0) && Owner(past) == Some(0)
    case Then(past, Radio(_)) => Disciplined(past)
  }

  /** Every presence-gated call begins in the very step in which the same task saw a front-panel
      read end with True, so no other client call lies between the two. */
  predicate PresenceSafe(log: Log) {
    match log
    case Empty => true
    case Then(past, Did(b)) =>
      && PresenceSafe(past)
      && (b.started.Some? && GatedCall(b.started.value) ==> b.ended == Some(Ending(FrontRead, Flag(true))))
    case Then(past, _) => PresenceSafe(past)
  }

  // ---- what the lock reported ----

  /** The report an entry makes under a read name. Ended reads, completed actuations (the observed
      position, else the commanded one) and pushed events report; nothing else does. */
  function Says(e: Entry, n: ReadName): Option<Report> {
    match e
    case Did(b) =>
      (match b.ended
       case Some(Ending(ReadCall(_), Got(r))) => if r.Name() == n then Some(r) else None
       case Some(Ending(Operate(lock), Flag(observed))) => if n == BoltState then Some(SawBolt(observed)) else None
       case Some(Ending(Operate(lock), Nothing)) => if n == BoltState then Some(SawBolt(lock)) else None
       case _ => None)
    case Heard(event, _) =>
      if n == BoltState && event.locked.Some? then Some(SawBolt(event.locked.value))
      else if n == BatteryLevel && event.battery.Some? then Some(SawBattery(event.battery.value))
      else None
    case Radio(_) => None
  }

  function LastReport(log: Log, n: ReadName): Option<Report> {
    match log
    case Empty => None
    case Then(past, e) => if Says(e, n).Some? then Says(e, n) else LastReport(past, n)
  }

  // ---- order of service ----

  /** The one-shot task that most recently began a client call (0 when none has). */
  function LastStarter(log: Log): nat {
    match log
    case Empty => 0
    case Then(past, Did(b)) => if b.started.Some? && b.tid > 0 then b.tid else LastStarter(past)
    case Then(past, _) => LastStarter(past)
  }

  /** One-shot tasks are numbered in order of arrival; their client calls begin in that order. */
  predicate InArrivalOrder(log: Log) {
    match log
    case Empty => true
    case Then(past, Did(b)) =>
      InArrivalOrder(past) && (b.started.Some? && b.tid > 0 ==> LastStarter(past) <= b.tid)
    case Then(past, _) => InArrivalOrder(past)
  }

  /** Listen windows begun since task t arrived. */
  function WindowsSince(log: Log, t: nat): nat {
    match log
    case Empty => 0
    case Then(past, Did(b)) =>
      if b.tid == t && b.arrived.Some? then 0
      else WindowsSince(past, t) + (if b.started == Some(Listen) then 1 else 0)
    case Then(past, _) => WindowsSince(past, t)
  }

  /** Whether the loop already stood in the queue when task t arrived. */
  function LoopWasAhead(log: Log, t: nat): bool {
    match log
    case Empty => false
    case Then(past, Did(b)) => if b.tid == t && b.arrived.Some? then b.arrived.value else LoopWasAhead(past, t)
    case Then(past, _) => LoopWasAhead(past, t)
  }

  /** Whether the loop that stood in the queue when task t arrived was cancelled there: it left before any
      listen window began. */
  function LoopLeft(log: Log, t: nat): bool {
    match log
    case Empty => false
    case Then(past, Did(b)) =>
      if b.tid == t && b.arrived.Some? then false
      else LoopLeft(past, t) || (b.left && b.tid == 0 && LoopWasAhead(past, t) && WindowsSince(past, t) == 0)
    case Then(past, _) => LoopLeft(past, t)
  }

  // ---- the presence ladder ----

  function FrontReads(log: Log, t: nat): nat {
    match log
    case Empty => 0
    case Then(past, Did(b)) => FrontReads(past, t) + (if b.tid == t && b.started == Some(FrontRead) then 1 else 0)
    case Then(past, _) => FrontReads(past, t)
  }

  function Asks(log: Log, t: nat): nat {
    match log
    case Empty => 0
    case Then(past, Did(b)) => Asks(past, t) + (if b.tid == t && b.asked then 1 else 0)
    case Then(past, _) => Asks(past, t)
  }

  /** How the first front-panel read of task t ended. */
  function FirstFront(log: Log, t: nat): Option<Reply> {
    match log
    case Empty => None
    case Then(past, e) =>
      var before := FirstFront(past, t);
      if before.Some? then before
      else match e
        case Did(b) =>
          if b.tid == t && b.ended.Some? && b.ended.value.call == FrontRead then Some(b.ended.value.reply) else None
        case _ => None
  }

  /** The panel answered the first check with anything but True, and without an error. */
  predicate Asleep(r: Option<Reply>) {
    match r
    case Some(Flag(awake)) => !awake
    case Some(Nothing) => true
    case _ => false
  }

  /** A background read was rejected as unauthenticated and nothing was pushed since. */
  predicate AuthLag(log: Log) {
    match log
    case Empty => false
    case Then(past, Did(b)) =>
      if b.published then false
      else (match b.ended
            case Some(Ending(ReadCall(_), Failed(AuthenticationError))) => true
            case _ => AuthLag(past))
    case Then(past, Heard(_, published)) => !published && AuthLag(past)
    case Then(past, Radio(_)) => false
  }
}
