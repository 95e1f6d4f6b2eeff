/** The coordinator object: its fields, the synchronous steps that update them, and its loops.
    What the outside world does at a suspension point is a parameter. */
module Runtime {
  import opened Types
  import opened Cache
  import opened Protocol
  import opened Trace
  import Auxiliary
  import Tally

  const ROTATION_FILL_SECONDS := 45.0
  const ROTATION_POLL_SECONDS := 3600.0
  const BATTERY_INITIAL_DELAY_SECONDS := 30.0

  const REFRESH_ORDER: seq<ReadName> :=
    [BoltState, BatteryLevel, DoorType, AssistTurn, PullSpring, AuxiliaryLocking, RelockDelay,
     LockOnCloseDelay, VerifyFailTime, AlertDelay, SystemVolume, Language, AlertVolume, AlarmVolume,
     CredentialTable]

  const ROTATION: seq<ReadName> :=
    [BoltState, BatteryLevel, DoorType, AssistTurn, PullSpring, AuxiliaryLocking, RelockDelay,
     LockOnCloseDelay, VerifyFailTime, AlertDelay, SystemVolume, Language, AlertVolume, AlarmVolume]

  /** Everything the world does during one background read: the reachability when it starts, the
      values other tasks store while it waits, and how its client call ends. */
  datatype Turn = Turn(radio: BluetoothState, others: seq<Report>, reply: Reply)

  /** The world's answers: what happens when read number i asks for name n. */
  type World = (nat, ReadName) -> Turn

  /** A read for one name is never answered with another name's value. */
  ghost predicate Fits(world: World) {
    forall i: nat, n: ReadName :: world(i, n).reply.Got? ==> world(i, n).reply.report.Name() == n
  }

  /** The turn brings a value under name n. */
  predicate Delivers(n: ReadName, turn: Turn) {
    turn.radio.reachable && turn.reply.Got? && turn.reply.report.Name() == n
  }

  ghost function Absorb(v: Values, reports: seq<Report>): Values
    decreases |reports|
  {
    if reports == [] then v else Absorb(Apply(v, reports[0]), reports[1..])
  }

  /** The cached values after one background read. */
  ghost function AfterTurn(v: Values, n: ReadName, turn: Turn): Values {
    var v1 := Absorb(v, turn.others);
    if Delivers(n, turn) then Apply(v1, turn.reply.report) else v1
  }

  /** Storing these values one after another changes something on the way, so that it is pushed. */
  ghost predicate Stirs(v: Values, reports: seq<Report>): (stirs: bool)
    ensures !stirs ==> Absorb(v, reports) == v
    decreases |reports|
  {
    reports != [] && (Apply(v, reports[0]) != v || Stirs(Apply(v, reports[0]), reports[1..]))
  }

  /** The read itself brings a value that was not cached. */
  ghost predicate BringsNews(v: Values, n: ReadName, turn: Turn) {
    Delivers(n, turn) && AfterTurn(v, n, turn) != Absorb(v, turn.others)
  }

  /** Something is pushed in the course of a background read. */
  ghost predicate Pushes(v: Values, radio: BluetoothState, n: ReadName, turn: Turn) {
    turn.radio != radio || Stirs(v, turn.others) || BringsNews(v, n, turn)
  }

  /** The transition system's background read stores and pushes the same as the coordinator's. */
  lemma ReadsStoreAlike(core: Core, n: ReadName, turn: Turn)
    requires turn.radio.reachable && (turn.reply.Got? ==> turn.reply.report.Name() == n)
    ensures var m := FinishRead(core.(values := Absorb(core.values, turn.others)), turn.reply, Quiet(1));
            && m.core == core.(values := AfterTurn(core.values, n, turn),
                               lastErrorType := if turn.reply == Failed(AuthenticationError)
                                                then Some(AuthenticationError) else core.lastErrorType)
            && (m.burst.published <==> BringsNews(core.values, n, turn))
  {
  }

  // ---- the two-pass refresh ----

  datatype Tick = Gap | Attempt(name: ReadName)

  /** What a refresh pass does from time `at` on, when the stop flag goes up at time `stop`:
      time counts the gaps and attempts already made, and the flag is looked at before each name. */
  function PassTicks(names: seq<ReadName>, gap: bool, at: nat, stop: nat): seq<Tick> {
    if names == [] || at >= stop then []
    else
      var head := ReadTicks(names[0], gap);
      head + PassTicks(names[1..], true, at + |head|, stop)
  }

  /** One read of a pass, after a gap or not. */
  function ReadTicks(name: ReadName, gap: bool): seq<Tick> {
    if gap then [Gap, Attempt(name)] else [Attempt(name)]
  }

  lemma ReadTicksAttempts(name: ReadName, gap: bool)
    ensures Attempts(ReadTicks(name, gap)) == [name]
  {
    assert Attempts([Attempt(name)]) == [name];
    assert [Gap, Attempt(name)][1..] == [Attempt(name)];
  }

  function Attempts(ticks: seq<Tick>): seq<ReadName> {
    if ticks == [] then []
    else if ticks[0].Gap? then Attempts(ticks[1..])
    else [ticks[0].name] + Attempts(ticks[1..])
  }

  /** After i names the pass has made these ticks, and the rest of it is still to come. */
  predicate OnTrack(ticks: seq<Tick>, names: seq<ReadName>, gap: bool, at: nat, stop: nat, i: nat)
    requires i <= |names|
  {
    PassTicks(names, gap, at, stop) == ticks + PassTicks(names[i..], i > 0 || gap, at + |ticks|, stop)
  }

  lemma TrackStart(names: seq<ReadName>, gap: bool, at: nat, stop: nat)
    ensures OnTrack([], names, gap, at, stop, 0)
  {
    assert names[0..] == names;
  }

  lemma TrackStep(ticks: seq<Tick>, names: seq<ReadName>, gap: bool, at: nat, stop: nat, i: nat)
    requires i < |names| && OnTrack(ticks, names, gap, at, stop, i) && at + |ticks| < stop
    ensures OnTrack(ticks + ReadTicks(names[i], i > 0 || gap), names, gap, at, stop, i + 1)
  {
    var head := ReadTicks(names[i], i > 0 || gap);
    var rest := PassTicks(names[i + 1..], true, at + |ticks| + |head|, stop);
    assert names[i..][0] == names[i] && names[i..][1..] == names[i + 1..];
    assert ticks + (head + rest) == ticks + head + rest;
  }

  lemma TrackEnd(ticks: seq<Tick>, names: seq<ReadName>, gap: bool, at: nat, stop: nat, i: nat)
    requires i <= |names| && OnTrack(ticks, names, gap, at, stop, i)
    requires i == |names| || at + |ticks| >= stop
    ensures ticks == PassTicks(names, gap, at, stop)
  {
  }

  /** One more read of a pass, in ticks and in cached values. */
  lemma ReadStep(v: Values, ticks: seq<Tick>, n: ReadName, gap: bool, world: World, k: nat)
    ensures Attempts(ticks + ReadTicks(n, gap)) == Attempts(ticks) + [n]
    ensures ReadAll(v, Attempts(ticks + ReadTicks(n, gap)), world, k)
         == AfterTurn(ReadAll(v, Attempts(ticks), world, k), n, world(k + |Attempts(ticks)|, n))
  {
    ReadTicksAttempts(n, gap);
    AttemptsAppend(ticks, ReadTicks(n, gap));
    ReadAllSnoc(v, Attempts(ticks), n, world, k);
  }

  function Missing(names: seq<ReadName>, v: Values): seq<ReadName> {
    if names == [] then []
    else if IsUnread(v, names[0]) then [names[0]] + Missing(names[1..], v)
    else Missing(names[1..], v)
  }

  /** The cached values after reading names in turn, the first of them with read number k. */
  ghost function ReadAll(v: Values, names: seq<ReadName>, world: World, k: nat): Values
    decreases |names|
  {
    if names == [] then v else ReadAll(AfterTurn(v, names[0], world(k, names[0])), names[1..], world, k + 1)
  }

  lemma {:induction false} ReadAllSnoc(v: Values, names: seq<ReadName>, n: ReadName, world: World, k: nat)
    ensures ReadAll(v, names + [n], world, k)
         == AfterTurn(ReadAll(v, names, world, k), n, world(k + |names|, n))
    decreases |names|
  {
    if names == [] {
      assert (names + [n])[1..] == [];
    } else {
      ReadAllSnoc(AfterTurn(v, names[0], world(k, names[0])), names[1..], n, world, k + 1);
      assert (names + [n])[1..] == names[1..] + [n];
    }
  }

  lemma {:induction false} AttemptsAppend(a: seq<Tick>, b: seq<Tick>)
    ensures Attempts(a + b) == Attempts(a) + Attempts(b)
    decreases |a|
  {
    if a == [] {
      assert a + b == b;
    } else {
      var ab, rest := a + b, a[1..];
      assert ab[0] == a[0] && ab[1..] == rest + b;
      AttemptsAppend(rest, b);
    }
  }

  /** The refresh as a function of the cache it starts from. */
  ghost function Refreshed(v: Values, world: World, stop: nat): (seq<Tick>, seq<Tick>, Values) {
    var once := PassTicks(REFRESH_ORDER, false, 0, stop);
    var v1 := ReadAll(v, Attempts(once), world, 0);
    var again := PassTicks(Missing(REFRESH_ORDER, v1), true, |once|, stop);
    (once, again, ReadAll(v1, Attempts(again), world, |Attempts(once)|))
  }

  // ---- the battery rotation ----

  /** The cached values after n reads of the rotation. */
  ghost function Rotated(v: Values, world: World, n: nat): Values {
    if n == 0 then v
    else
      var name := ROTATION[(n - 1) % |ROTATION|];
      AfterTurn(Rotated(v, world, n - 1), name, world(n - 1, name))
  }

  /** The steady poll interval; hours is None when the option does not parse as a number. */
  function PollSeconds(hours: Option<real>): real {
    var h := if hours.Some? then hours.value else 0.0;
    if h > 0.0 then h * 3600.0 else ROTATION_POLL_SECONDS
  }

  /** The wait after a read: steady once all gating values are known. */
  function Interval(v: Values, hours: Option<real>): real {
    if HaveAll(v) then PollSeconds(hours) else ROTATION_FILL_SECONDS
  }

  // ---- the presence ladder ----

  predicate NotAwake(r: Reply) {
    r == Flag(false) || r == Nothing
  }

  /** How an operation ends when one of its client calls fails or is cancelled. */
  function EndOf(r: Reply): Outcome
    requires r.Failed? || r.Cancelled?
  {
    if r.Failed? then Raised(r.error) else WasCancelled
  }

  datatype Presence = Awake | Absent | Broken(reply: Reply)

  /** The ends a front-panel read may have. */
  ghost predicate FrontPanel(front: nat -> Reply) {
    forall i: nat :: front(i).Flag? || front(i).Nothing? || front(i).Failed? || front(i).Cancelled?
  }

  /** What the ladder comes to when read number i is next and read number `last` is the last one. */
  function PresenceFrom(front: nat -> Reply, i: nat, last: nat): (presence: Presence)
    requires FrontPanel(front)
    ensures presence.Broken? ==> presence.reply.Failed? || presence.reply.Cancelled?
    decreases last - i
  {
    if front(i) == Flag(true) then Awake
    else if !NotAwake(front(i)) then Broken(front(i))
    else if i < last then PresenceFrom(front, i + 1, last)
    else Absent
  }

  /** The panel first answers True at read number n, after reads that only found it asleep. */
  ghost predicate WakesAt(front: nat -> Reply, i: nat, n: nat) {
    i <= n && front(n) == Flag(true) && forall k | i <= k < n :: NotAwake(front(k))
  }

  /** The ladder lets a write through exactly when the panel answers True within its reads. */
  lemma {:induction false} AwakeIffSeen(front: nat -> Reply, i: nat, last: nat)
    requires FrontPanel(front) && i <= last
    ensures PresenceFrom(front, i, last).Awake? <==> exists n: nat :: n <= last && WakesAt(front, i, n)
    decreases last - i
  {
    if front(i) == Flag(true) {
      assert WakesAt(front, i, i);
    } else if NotAwake(front(i)) && i < last {
      var next := i + 1;
      AwakeIffSeen(front, next, last);
      if n: nat :| n <= last && WakesAt(front, next, n) {
        assert WakesAt(front, i, n);
      }
      if n: nat :| n <= last && WakesAt(front, i, n) {
        assert n != i && WakesAt(front, next, n);
      }
    }
  }

  /** How a settings write ends: presence decides first, then the write itself, then its re-read. */
  function SetEnd(presence: Presence, acted: Reply, readBack: Option<Reply>): Outcome
    requires presence.Broken? ==> presence.reply.Failed? || presence.reply.Cancelled?
  {
    if presence.Absent? then Raised(PresenceRequiredError)
    else if presence.Broken? then EndOf(presence.reply)
    else if acted.Failed? || acted.Cancelled? then EndOf(acted)
    else if readBack.Some? && (readBack.value.Failed? || readBack.value.Cancelled?) then EndOf(readBack.value)
    else Finished
  }

  function SurfacedEnd(out: Outcome): Outcome {
    if out.Raised? then Raised(Surfaced(out.error)) else out
  }

  /** Resolves and observes the lock through the Bluetooth stack, and pushes each change. */
  class BluetoothManager {
    var state: BluetoothState

    constructor (reachable: bool)
      ensures state == BluetoothState(reachable, None, None)
    {
      state := BluetoothState(reachable, None, None);
    }

    method Discovered(now: int, rssi: Option<int>, listener: Coordinator)
      requires listener.manager == this
      modifies this, listener`data
      ensures state == BluetoothState(true, Some(now), rssi)
      ensures listener.data == BuildSnapshot(listener.View(), state)
    {
      state := BluetoothState(true, Some(now), rssi);
      listener.HandleBluetoothState(state);
    }

    method Unavailable(listener: Coordinator)
      requires listener.manager == this
      modifies this, listener`data
      ensures state == old(state).(reachable := false)
      ensures listener.data == BuildSnapshot(listener.View(), state)
    {
      state := state.(reachable := false);
      listener.HandleBluetoothState(state);
    }
  }

  class Coordinator {
    const manager: BluetoothManager
    var isLocked: Option<bool>
    var batteryPercent: Option<int>
    var settings: Settings
    var credentialCount: Option<nat>
    var credentialsByType: Option<Tally.Breakdown>
    var operationInProgress: bool
    var lastOperation: Option<Job>
    var lastErrorType: Option<Error>
    var listenHandle: Option<Inner>
    var data: Snapshot

    function Cached(): Values
      reads this
    {
      Values(isLocked, batteryPercent, settings, credentialCount, credentialsByType)
    }

    function View(): Core
      reads this
    {
      Core(Cached(), operationInProgress, lastOperation, lastErrorType)
    }

    /** The published snapshot is the current one. */
    ghost predicate Coherent()
      reads this, manager
    {
      data == BuildSnapshot(View(), manager.state)
    }

    constructor (manager: BluetoothManager)
      ensures this.manager == manager && View() == INITIAL_CORE && Coherent() && listenHandle == None
    {
      this.manager := manager;
      isLocked, batteryPercent, settings := None, None, UNREAD_SETTINGS;
      credentialCount, credentialsByType := None, None;
      operationInProgress, lastOperation, lastErrorType := false, None, None;
      listenHandle := None;
      data := BuildSnapshot(INITIAL_CORE, manager.state);
    }

    /** Builds the snapshot from the fields and pushes it to the entities. */
    method Push(state: BluetoothState)
      modifies this`data
      ensures data == BuildSnapshot(View(), state)
    {
      data := BuildSnapshot(View(), state);
    }

    method HandleBluetoothState(state: BluetoothState)
      modifies this`data
      ensures data == BuildSnapshot(View(), state)
    {
      Push(state);
    }

    /** Cancels the held listen so that another job can take the connection. */
    method PreemptListen()
      modifies this`listenHandle
      ensures listenHandle == Preempt(old(listenHandle))
      ensures old(listenHandle).Some? ==>
                && listenHandle.Some? && Doomed(listenHandle.value)
                && listenHandle.value.phase == old(listenHandle).value.phase
    {
      if listenHandle.Some? && !listenHandle.value.phase.Over? {
        listenHandle := Some(listenHandle.value.(cancel := true));
      }
    }

    /** Consumes one pushed event; pushes the snapshot only when a value changed. */
    method OnRealtimeEvent(event: LockEvent)
      modifies this
      ensures View() == old(View()).(values := OnEvent(old(Cached()), event))
      ensures data == if View() != old(View()) then BuildSnapshot(View(), manager.state) else old(data)
      ensures listenHandle == old(listenHandle)
    {
      var changed := false;
      if event.locked.Some? && event.locked != isLocked {
        isLocked := event.locked;
        changed := true;
      }
      if event.battery.Some? && event.battery != batteryPercent {
        batteryPercent := event.battery;
        changed := true;
      }
      if changed {
        Push(manager.state);
      }
    }

    /** Stores a reported value and tells whether anything changed. */
    method ApplyRead(r: Report) returns (changed: bool)
      modifies this`isLocked, this`batteryPercent, this`settings, this`credentialCount, this`credentialsByType
      ensures Cached() == Apply(old(Cached()), r)
      ensures changed <==> Cached() != old(Cached())
    {
      var next := settings;
      match r {
        case SawBolt(locked) =>
          if Some(locked) != isLocked {
            isLocked := Some(locked);
            return true;
          }
          return false;
        case SawBattery(percent) =>
          if Some(percent) != batteryPercent {
            batteryPercent := Some(percent);
            return true;
          }
          return false;
        case SawCredentials(rows) =>
          var count, byType := Tally.TallyRows(rows);
          if Some(count) != credentialCount || Some(byType) != credentialsByType {
            credentialCount, credentialsByType := Some(count), Some(byType);
            return true;
          }
          return false;
        case SawDoorType(text) => next := settings.(doorType := Some(text));
        case SawAssistTurn(on) => next := settings.(assistTurn := Some(on));
        case SawAuxiliary(mask) => next := settings.(auxiliaryLocking := Some(mask));
        case SawRelockDelay(seconds) => next := settings.(relockDelay := Some(seconds));
        case SawLockOnCloseDelay(seconds) => next := settings.(lockOnCloseDelay := Some(seconds));
        case SawVerifyFailTime(seconds) => next := settings.(verifyFailTime := Some(seconds));
        case SawAlertDelay(seconds) => next := settings.(alertDelay := Some(seconds));
        case SawSystemVolume(level) => next := settings.(systemVolume := Some(level));
        case SawLanguage(text) => next := settings.(language := Some(text));
        case SawAlertVolume(text) => next := settings.(alertVolume := Some(text));
        case SawAlarmVolume(text) => next := settings.(alarmVolume := Some(text));
        case SawPullSpring(on, seconds) =>
          next := settings.(pullSpringEnabled := Some(on), pullSpringRetraction := Some(seconds));
      }
      changed := next != settings;
      settings := next;
    }

    /** What other tasks store while this one is suspended, each pushed as its own task pushes it. */
    method Suspend(others: seq<Report>)
      modifies this
      ensures Cached() == Absorb(old(Cached()), others)
      ensures View() == old(View()).(values := Cached()) && listenHandle == old(listenHandle)
      ensures data == if Stirs(old(Cached()), others) then BuildSnapshot(View(), manager.state) else old(data)
    {
      ghost var start := Cached();
      ghost var stirred := false;
      var i := 0;
      while i < |others|
        invariant 0 <= i <= |others|
        invariant Absorb(start, others) == Absorb(Cached(), others[i..])
        invariant Stirs(start, others) <==> stirred || Stirs(Cached(), others[i..])
        invariant View() == old(View()).(values := Cached()) && listenHandle == old(listenHandle)
        invariant data == if stirred then BuildSnapshot(View(), manager.state) else old(data)
      {
        var changed := ApplyRead(others[i]);
        if changed {
          Push(manager.state);
          stirred := true;
        }
        assert others[i..][1..] == others[i + 1..];
        i := i + 1;
      }
    }

    /** The Bluetooth stack reports a change before a read starts. */
    method HearRadio(radio: BluetoothState)
      modifies this`data, manager
      ensures manager.state == radio
      ensures data == if radio != old(manager.state) then BuildSnapshot(View(), radio) else old(data)
    {
      if radio != manager.state {
        manager.state := radio;
        HandleBluetoothState(radio);
      }
    }

    /** What a background read does with its reply. */
    method StoreReply(reply: Reply)
      modifies this
      ensures Cached() == if reply.Got? then Apply(old(Cached()), reply.report) else old(Cached())
      ensures View() == old(View()).(values := Cached(), lastErrorType := lastErrorType)
      ensures listenHandle == old(listenHandle)
      ensures lastErrorType == if reply == Failed(AuthenticationError) then Some(AuthenticationError)
                               else old(lastErrorType)
      ensures data == if Cached() != old(Cached()) then BuildSnapshot(View(), manager.state) else old(data)
    {
      match reply
      case Failed(AuthenticationError) => lastErrorType := Some(AuthenticationError);
      case Got(report) =>
        var changed := ApplyRead(report);
        if changed {
          Push(manager.state);
        }
      case _ =>
    }

    /** Reads one value, guarded: an unreachable lock is skipped, a failure keeps the last value, a
        rejected credential notes its error type without a push, a change is pushed. Nothing else is. */
    method DoRead(name: ReadName, turn: Turn) returns (attempted: bool)
      requires turn.reply.Got? ==> turn.reply.report.Name() == name
      modifies this, manager
      ensures Cached() == AfterTurn(old(Cached()), name, turn)
      ensures attempted <==> turn.radio.reachable
      ensures manager.state == turn.radio
      ensures operationInProgress == old(operationInProgress) && lastOperation == old(lastOperation)
      ensures lastErrorType == if attempted && turn.reply == Failed(AuthenticationError)
                               then Some(AuthenticationError) else old(lastErrorType)
      ensures data == if Pushes(old(Cached()), old(manager.state), name, turn)
                      then BuildSnapshot(View().(lastErrorType := old(lastErrorType)), manager.state) else old(data)
      ensures listenHandle == if attempted then Preempt(old(listenHandle)) else old(listenHandle)
    {
      HearRadio(turn.radio);
      attempted := manager.state.reachable;
      if !attempted {
        Suspend(turn.others);
        return;
      }
      PreemptListen();
      Suspend(turn.others);
      StoreReply(turn.reply);
    }

    // ---- operations; the lock has just been granted ----

    /** Runs one actuation. The world decides how the client call ends and where the radio stands then. */
    method RunOperation(lock: bool, reply: Reply, radio: BluetoothState) returns (out: Outcome)
      requires reply.Flag? || reply.Nothing? || reply.Failed? || reply.Cancelled?
      modifies this, manager
      ensures !old(manager.state).reachable ==>
                out == Raised(BluetoothUnavailableError) && View() == old(View())
                && data == old(data) && manager.state == old(manager.state)
      ensures old(manager.state).reachable ==>
                && Coherent() && !operationInProgress && lastOperation == Some(Actuate(lock)) && manager.state == radio
                && out == (match reply
                           case Failed(e) => Raised(Surfaced(e))
                           case Cancelled => WasCancelled
                           case _ => Finished)
                && lastErrorType == (if reply.Failed? then Some(reply.error) else None)
                && Cached() == (match reply
                                case Flag(observed) => Apply(old(Cached()), SawBolt(observed))
                                case Nothing => Apply(old(Cached()), SawBolt(lock))
                                case _ => old(Cached()))
                && View() == OnReply(Actuate(lock), Operate(lock), 0, reply, Begin(old(View()), Actuate(lock)),
                                     Config(false, 1), Quiet(1)).core
    {
      var state := manager.state;
      if !state.reachable {
        return Raised(BluetoothUnavailableError);
      }
      operationInProgress := true;
      lastOperation := Some(Actuate(lock));
      lastErrorType := None;
      Push(state);
      manager.state := radio;  // the client call is awaited here
      if reply.Failed? {
        lastErrorType := Some(reply.error);
        out := Raised(Surfaced(reply.error));
      } else if reply.Cancelled? {
        out := WasCancelled;
      } else {
        isLocked := Some(if reply.Flag? then reply.value else lock);
        out := Finished;
      }
      operationInProgress := false;
      Push(manager.state);
    }

    /** Makes the front panel awake, or fails: check once, else ask once and poll while the window lasts. */
    method EnsurePresence(front: nat -> Reply, window: real, poll: real)
      returns (presence: Presence, polled: nat, asked: bool)
      requires poll > 0.0 && window >= 0.0
      requires FrontPanel(front)
      ensures 1 <= polled <= 1 + Polls(window, poll)
      ensures forall i | 0 <= i < polled - 1 :: NotAwake(front(i))
      ensures presence.Awake? <==> front(polled - 1) == Flag(true)
      ensures presence.Absent? <==> NotAwake(front(polled - 1))
      ensures presence.Absent? ==> polled == 1 + Polls(window, poll)
      ensures presence.Broken? ==> presence.reply == front(polled - 1)
      ensures asked <==> NotAwake(front(0))
      ensures presence == PresenceFrom(front, 0, Polls(window, poll))
    {
      polled, asked := 1, false;
      var reply := front(0);
      if reply == Flag(true) {
        return Awake, polled, asked;
      }
      if reply.Failed? || reply.Cancelled? {
        return Broken(reply), polled, asked;
      }
      asked := true;
      var attempts := Polls(window, poll);
      for i := 0 to attempts
        invariant polled == 1 + i
        invariant PresenceFrom(front, 0, attempts) == PresenceFrom(front, i, attempts)
        invariant forall j | 0 <= j < polled :: NotAwake(front(j))
      {
        reply := front(polled);
        polled := polled + 1;
        if reply == Flag(true) {
          return Awake, polled, asked;
        }
        if reply.Failed? || reply.Cancelled? {
          return Broken(reply), polled, asked;
        }
      }
      presence := Absent;
    }

    /** The write itself, and the re-read that confirms it when there is one. */
    method ActAndConfirm(acted: Reply, readBack: Option<Reply>) returns (out: Outcome)
      modifies this`isLocked, this`batteryPercent, this`settings, this`credentialCount, this`credentialsByType
      ensures out == SetEnd(Awake, acted, readBack)
      ensures Cached() == if out.Finished? && readBack.Some? && readBack.value.Got?
                          then Apply(old(Cached()), readBack.value.report) else old(Cached())
    {
      if acted.Failed? || acted.Cancelled? {
        return EndOf(acted);
      }
      if readBack.Some? {
        if readBack.value.Failed? || readBack.value.Cancelled? {
          return EndOf(readBack.value);
        } else if readBack.value.Got? {
          var _ := ApplyRead(readBack.value.report);
        }
      }
      out := Finished;
    }

    /** Runs one write under the lock: presence first if the job needs it, then the write, then the re-read. */
    method RunGuarded(job: Job, front: nat -> Reply, window: real, poll: real,
                      acted: Reply, readBack: Option<Reply>, radio: BluetoothState)
      returns (out: Outcome, wrote: bool)
      requires poll > 0.0 && window >= 0.0 && FrontPanel(front)
      modifies this, manager
      ensures !old(manager.state).reachable ==>
                out == Raised(BluetoothUnavailableError) && !wrote && View() == old(View()) && data == old(data)
      ensures old(manager.state).reachable ==>
                var presence := if job.NeedsPresence() then PresenceFrom(front, 0, Polls(window, poll)) else Awake;
                var end := SetEnd(presence, acted, readBack);
                && (wrote <==> presence.Awake?)
                && out == SurfacedEnd(end)
                && lastErrorType == (if end.Raised? then Some(end.error) else None)
                && Coherent() && !operationInProgress && lastOperation == Some(job) && manager.state == radio
      ensures Cached() == if out.Finished? && readBack.Some? && readBack.value.Got?
                          then Apply(old(Cached()), readBack.value.report) else old(Cached())
    {
      wrote := false;
      var state := manager.state;
      if !state.reachable {
        return Raised(BluetoothUnavailableError), false;
      }
      operationInProgress := true;
      lastOperation := Some(job);
      lastErrorType := None;
      Push(state);
      manager.state := radio;  // the client calls are awaited from here on
      var presence := Awake;
      if job.NeedsPresence() {
        var climbed, _, _ := EnsurePresence(front, window, poll);
        presence := climbed;
      }
      if presence.Awake? {
        wrote := true;
        out := ActAndConfirm(acted, readBack);
      } else {
        out := if presence.Absent? then Raised(PresenceRequiredError) else EndOf(presence.reply);
      }
      if out.Raised? {
        lastErrorType := Some(out.error);
      }
      out := SurfacedEnd(out);
      operationInProgress := false;
      Push(manager.state);
    }

    /** Runs one settings write. */
    method RunSetOperation(op: WriteOp, front: nat -> Reply, window: real, poll: real,
                           acted: Reply, readBack: Reply, radio: BluetoothState)
      returns (out: Outcome, wrote: bool)
      requires poll > 0.0 && window >= 0.0 && FrontPanel(front)
      requires readBack.Got? ==> op.PostRead() == Some(readBack.report.Name())
      modifies this, manager
      ensures !old(manager.state).reachable ==>
                out == Raised(BluetoothUnavailableError) && !wrote && View() == old(View())
      ensures old(manager.state).reachable ==>
                && (wrote <==> !op.NeedsPresence() || PresenceFrom(front, 0, Polls(window, poll)).Awake?)
                && (lastErrorType.Some? <==> out.Raised?)
                && (out.Raised? ==> out.error == Surfaced(lastErrorType.value))
                && (wrote && acted.Failed? ==> lastErrorType == Some(acted.error))
                && Coherent() && !operationInProgress && lastOperation == Some(Write(op)) && manager.state == radio
      ensures out.Finished? <==>
                && old(manager.state).reachable && wrote && !acted.Failed? && !acted.Cancelled?
                && (op.PostRead().Some? ==> !readBack.Failed? && !readBack.Cancelled?)
      ensures Cached() == if out.Finished? && op.PostRead().Some? && readBack.Got?
                          then Apply(old(Cached()), readBack.report) else old(Cached())
    {
      out, wrote := RunGuarded(Write(op), front, window, poll, acted,
                               if op.PostRead().Some? then Some(readBack) else None, radio);
    }

    /** Enrols a credential: anything but a reported success counts as a failed write, and a success is
        confirmed by re-reading the credential table. */
    method EnrolCredential(group: int, kind: string, front: nat -> Reply, window: real, poll: real,
                           enrolled: Reply, readBack: Reply, radio: BluetoothState)
      returns (out: Outcome, began: bool)
      requires poll > 0.0 && window >= 0.0 && FrontPanel(front)
      requires readBack.Got? ==> readBack.report.Name() == CredentialTable
      modifies this, manager
      ensures !old(manager.state).reachable ==>
                out == Raised(BluetoothUnavailableError) && !began && View() == old(View())
      ensures old(manager.state).reachable ==>
                && (began <==> PresenceFrom(front, 0, Polls(window, poll)).Awake?)
                && (lastErrorType.Some? <==> out.Raised?)
                && (out.Raised? ==> out.error == Surfaced(lastErrorType.value))
                && Coherent() && !operationInProgress
                && lastOperation == Some(Enrol(group, kind)) && manager.state == radio
      ensures out.Finished? ==> began && enrolled == Enrolled(true)
      ensures old(manager.state).reachable && began && (enrolled == Enrolled(false) || enrolled.Nothing?) ==>
                out == Raised(OperationError)
      ensures Cached() == if out.Finished? && readBack.Got? then Apply(old(Cached()), readBack.report)
                          else old(Cached())
    {
      var acted := if enrolled.Failed? || enrolled.Cancelled? || enrolled == Enrolled(true) then enrolled
                   else Failed(OperationError);
      out, began := RunGuarded(Enrol(group, kind), front, window, poll, acted, Some(readBack), radio);
    }

    /** The full mask an auxiliary toggle writes, built from the cached one. */
    method AuxiliaryWrite(toggle: Toggle, enabled: bool) returns (op: WriteOp)
      ensures op == SetAuxiliary(toggle, enabled, Auxiliary.BuildMask(settings.auxiliaryLocking, toggle, enabled))
      ensures Auxiliary.Full(op.mask) && op.mask[toggle] == enabled
      ensures forall t | t in Auxiliary.TOGGLES && t != toggle ::
                op.mask[t] <==> settings.auxiliaryLocking.Some? && t in settings.auxiliaryLocking.value
                                && settings.auxiliaryLocking.value[t]
    {
      op := SetAuxiliary(toggle, enabled, Auxiliary.BuildMask(settings.auxiliaryLocking, toggle, enabled));
    }

    // ---- background loops ----

    /** Reads each name in order, pausing before every read but possibly the first. Time has reached
        `at`, and `first` reads were made before. */
    method RefreshPass(names: seq<ReadName>, gapBeforeFirst: bool, world: World, first: nat, at: nat, stop: nat)
      returns (ticks: seq<Tick>)
      requires Fits(world)
      modifies this, manager
      ensures ticks == PassTicks(names, gapBeforeFirst, at, stop)
      ensures Cached() == ReadAll(old(Cached()), Attempts(ticks), world, first)
    {
      ticks := [];
      var used := 0;
      TrackStart(names, gapBeforeFirst, at, stop);
      for index := 0 to |names|
        invariant OnTrack(ticks, names, gapBeforeFirst, at, stop, index)
        invariant used == |Attempts(ticks)|
        invariant Cached() == ReadAll(old(Cached()), Attempts(ticks), world, first)
      {
        if at + |ticks| >= stop {
          TrackEnd(ticks, names, gapBeforeFirst, at, stop, index);
          return;
        }
        TrackStep(ticks, names, gapBeforeFirst, at, stop, index);
        var gap := index > 0 || gapBeforeFirst;
        ReadStep(old(Cached()), ticks, names[index], gap, world, first);
        var _ := DoRead(names[index], world(first + used, names[index]));
        ticks := ticks + ReadTicks(names[index], gap);
        used := used + 1;
      }
      TrackEnd(ticks, names, gapBeforeFirst, at, stop, |names|);
    }

    /** The names that still have no value. */
    method FindMissing(names: seq<ReadName>) returns (missing: seq<ReadName>)
      ensures missing == Missing(names, Cached())
    {
      missing := [];
      for i := 0 to |names|
        invariant Missing(names, Cached()) == missing + Missing(names[i..], Cached())
      {
        assert names[i..][1..] == names[i + 1..];
        if IsUnread(Cached(), names[i]) {
          missing := missing + [names[i]];
        }
      }
    }

    /** Reads every value once, then once more whatever is still unread. */
    method RefreshAll(world: World, stop: nat) returns (ticks: seq<Tick>)
      requires Fits(world)
      modifies this, manager
      ensures var (once, again, v) := Refreshed(old(Cached()), world, stop);
              ticks == once + again && Cached() == v
    {
      var once := RefreshPass(REFRESH_ORDER, false, world, 0, 0, stop);
      var missing := FindMissing(REFRESH_ORDER);
      ticks := once;
      if missing != [] {
        var again := RefreshPass(missing, true, world, |Attempts(once)|, |once|, stop);
        ticks := once + again;
      }
    }

    /** The wait before the next background read: short until every gating value is known. */
    function Pause(hours: Option<real>): (seconds: real)
      reads this
      ensures seconds == Interval(Cached(), hours)
    {
      var haveAll :=
        && batteryPercent.Some?
        && settings.doorType.Some?
        && settings.assistTurn.Some?
        && settings.pullSpringEnabled.Some?
        && settings.auxiliaryLocking.Some?
        && settings.relockDelay.Some?
        && settings.lockOnCloseDelay.Some?;
      if haveAll then PollSeconds(hours) else ROTATION_FILL_SECONDS
    }

    /** The wait is the steady one exactly when every gating name has a value. */
    lemma PauseIsSteadyIffKnown(hours: Option<real>)
      requires Paired(Cached())
      ensures Pause(hours) == if forall n | n in GATING :: Known(Cached(), n).Some? then PollSeconds(hours)
                              else ROTATION_FILL_SECONDS
    {
      HaveAllMeansKnown(Cached());
    }

    /** One cycle of the battery loop: one read, and the wait to follow it. */
    method Cycle(world: World, index: nat, hours: Option<real>) returns (wait: real)
      requires Fits(world)
      modifies this, manager
      ensures var name := ROTATION[index % |ROTATION|];
              Cached() == AfterTurn(old(Cached()), name, world(index, name))
      ensures wait == Interval(Cached(), hours)
    {
      var name := ROTATION[index % |ROTATION|];
      var _ := DoRead(name, world(index, name));
      wait := Pause(hours);
    }

    /** Waits a while after startup, then reads one value of the rotation per cycle, each followed by a
        wait. The stop flag goes up during wait number `stop`, the first one being number 0; the waits begun
        are returned. */
    method BatteryLoop(world: World, stop: nat, hours: Option<real>) returns (waits: seq<real>)
      requires Fits(world)
      modifies this, manager
      ensures |waits| == stop + 1 && Cached() == Rotated(old(Cached()), world, stop)
      ensures waits[0] == BATTERY_INITIAL_DELAY_SECONDS
      ensures forall i | 0 < i <= stop :: waits[i] == Interval(Rotated(old(Cached()), world, i), hours)
      ensures stop == 0 ==> data == old(data) && lastErrorType == old(lastErrorType)
    {
      waits := [BATTERY_INITIAL_DELAY_SECONDS];
      if stop == 0 {
        return;
      }
      var index := 0;
      while index < stop
        invariant 0 <= index <= stop && |waits| == index + 1 && waits[0] == BATTERY_INITIAL_DELAY_SECONDS
        invariant Cached() == Rotated(old(Cached()), world, index)
        invariant forall i | 0 < i <= index :: waits[i] == Interval(Rotated(old(Cached()), world, i), hours)
      {
        var wait := Cycle(world, index, hours);
        index := index + 1;
        waits := waits + [wait];
      }
    }
  }
}
