/** The coordinator's cached state as a value, the published snapshot, and what one report does to them. */
module Cache {
  import opened Types
  import Tally

  /** The static feature settings; None means not read yet. */
  datatype Settings = Settings(
    doorType: Option<string>,
    assistTurn: Option<bool>,
    pullSpringEnabled: Option<bool>,
    pullSpringRetraction: Option<int>,
    auxiliaryLocking: Option<Mask>,
    systemVolume: Option<int>,
    language: Option<string>,
    alertVolume: Option<string>,
    alarmVolume: Option<string>,
    verifyFailTime: Option<int>,
    relockDelay: Option<int>,
    lockOnCloseDelay: Option<int>,
    alertDelay: Option<int>)

  const UNREAD_SETTINGS := Settings(None, None, None, None, None, None, None, None, None, None, None, None, None)

  /** The cached values: everything the lock reported. */
  datatype Values = Values(
    isLocked: Option<bool>,
    batteryPercent: Option<int>,
    settings: Settings,
    credentialCount: Option<nat>,
    credentialsByType: Option<Tally.Breakdown>)

  const UNREAD := Values(None, None, UNREAD_SETTINGS, None, None)

  /** Every coordinator field that the snapshot is built from. */
  datatype Core = Core(
    values: Values,
    operationInProgress: bool,
    lastOperation: Option<Job>,
    lastErrorType: Option<Error>)

  const INITIAL_CORE := Core(UNREAD, false, None, None)

  /** The immutable record pushed to entities. */
  datatype Snapshot = Snapshot(
    reachable: bool,
    lastSeen: Option<int>,
    rssi: Option<int>,
    controlEnabled: bool,
    operationInProgress: bool,
    lastOperation: Option<Job>,
    lastErrorType: Option<Error>,
    isLocked: Option<bool>,
    batteryPercent: Option<int>,
    doorType: Option<string>,
    assistTurn: Option<bool>,
    pullSpringEnabled: Option<bool>,
    pullSpringRetraction: Option<int>,
    auxiliaryLocking: Option<Mask>,
    systemVolume: Option<int>,
    language: Option<string>,
    alertVolume: Option<string>,
    alarmVolume: Option<string>,
    verifyFailTime: Option<int>,
    relockDelay: Option<int>,
    lockOnCloseDelay: Option<int>,
    alertDelay: Option<int>,
    credentialCount: Option<nat>,
    credentialsByType: Option<Tally.Breakdown>)

  function BuildSnapshot(c: Core, b: BluetoothState): Snapshot {
    var v, w := c.values, c.values.settings;
    Snapshot(
      b.reachable, b.lastSeen, b.rssi, true,
      c.operationInProgress, c.lastOperation, c.lastErrorType,
      v.isLocked, v.batteryPercent,
      w.doorType, w.assistTurn, w.pullSpringEnabled, w.pullSpringRetraction,
      w.auxiliaryLocking, w.systemVolume, w.language, w.alertVolume, w.alarmVolume,
      w.verifyFailTime, w.relockDelay, w.lockOnCloseDelay, w.alertDelay,
      v.credentialCount, v.credentialsByType)
  }

  /** The cached state after the coordinator stored one reported value. */
  ghost function Apply(v: Values, r: Report): Values {
    match r
    case SawBolt(locked) => v.(isLocked := Some(locked))
    case SawBattery(percent) => v.(batteryPercent := Some(percent))
    case SawCredentials(rows) =>
      v.(credentialCount := Some(|rows|), credentialsByType := Some(Tally.BreakdownOf(rows)))
    case SawDoorType(text) => v.(settings := v.settings.(doorType := Some(text)))
    case SawAssistTurn(on) => v.(settings := v.settings.(assistTurn := Some(on)))
    case SawAuxiliary(mask) => v.(settings := v.settings.(auxiliaryLocking := Some(mask)))
    case SawRelockDelay(seconds) => v.(settings := v.settings.(relockDelay := Some(seconds)))
    case SawLockOnCloseDelay(seconds) => v.(settings := v.settings.(lockOnCloseDelay := Some(seconds)))
    case SawVerifyFailTime(seconds) => v.(settings := v.settings.(verifyFailTime := Some(seconds)))
    case SawAlertDelay(seconds) => v.(settings := v.settings.(alertDelay := Some(seconds)))
    case SawSystemVolume(level) => v.(settings := v.settings.(systemVolume := Some(level)))
    case SawLanguage(text) => v.(settings := v.settings.(language := Some(text)))
    case SawAlertVolume(text) => v.(settings := v.settings.(alertVolume := Some(text)))
    case SawAlarmVolume(text) => v.(settings := v.settings.(alarmVolume := Some(text)))
    case SawPullSpring(on, seconds) =>
      v.(settings := v.settings.(pullSpringEnabled := Some(on), pullSpringRetraction := Some(seconds)))
  }

  /** The cached state after one pushed event: bolt position and battery when present. */
  function OnEvent(v: Values, e: LockEvent): Values {
    var v1 := if e.locked.Some? then v.(isLocked := e.locked) else v;
    if e.battery.Some? then v1.(batteryPercent := e.battery) else v1
  }

  /** What is cached under a read name: the reported value, or the tally of a credential table. */
  datatype Fact = Plain(report: Report) | Table(count: nat, byType: Tally.Breakdown)

  ghost function FactOf(r: Report): Fact {
    match r
    case SawCredentials(rows) => Table(|rows|, Tally.BreakdownOf(rows))
    case _ => Plain(r)
  }

  function Wrap<T>(o: Option<T>, make: T -> Fact): Option<Fact> {
    match o
    case None => None
    case Some(x) => Some(make(x))
  }

  /** The cached fact under one read name. */
  function Known(v: Values, n: ReadName): Option<Fact> {
    match n
    case BoltState => Wrap(v.isLocked, x => Plain(SawBolt(x)))
    case BatteryLevel => Wrap(v.batteryPercent, x => Plain(SawBattery(x)))
    case DoorType => Wrap(v.settings.doorType, x => Plain(SawDoorType(x)))
    case AssistTurn => Wrap(v.settings.assistTurn, x => Plain(SawAssistTurn(x)))
    case PullSpring =>
      if v.settings.pullSpringEnabled.Some? && v.settings.pullSpringRetraction.Some?
      then Some(Plain(SawPullSpring(v.settings.pullSpringEnabled.value, v.settings.pullSpringRetraction.value)))
      else None
    case AuxiliaryLocking => Wrap(v.settings.auxiliaryLocking, x => Plain(SawAuxiliary(x)))
    case RelockDelay => Wrap(v.settings.relockDelay, x => Plain(SawRelockDelay(x)))
    case LockOnCloseDelay => Wrap(v.settings.lockOnCloseDelay, x => Plain(SawLockOnCloseDelay(x)))
    case VerifyFailTime => Wrap(v.settings.verifyFailTime, x => Plain(SawVerifyFailTime(x)))
    case AlertDelay => Wrap(v.settings.alertDelay, x => Plain(SawAlertDelay(x)))
    case SystemVolume => Wrap(v.settings.systemVolume, x => Plain(SawSystemVolume(x)))
    case Language => Wrap(v.settings.language, x => Plain(SawLanguage(x)))
    case AlertVolume => Wrap(v.settings.alertVolume, x => Plain(SawAlertVolume(x)))
    case AlarmVolume => Wrap(v.settings.alarmVolume, x => Plain(SawAlarmVolume(x)))
    case CredentialTable =>
      if v.credentialCount.Some? && v.credentialsByType.Some?
      then Some(Table(v.credentialCount.value, v.credentialsByType.value))
      else None
  }

  /** Two-field values are always stored together. */
  predicate Paired(v: Values) {
    && (v.settings.pullSpringEnabled.Some? <==> v.settings.pullSpringRetraction.Some?)
    && (v.credentialCount.Some? <==> v.credentialsByType.Some?)
  }

  /** Whether a name still has no value from a completed read. */
  predicate IsUnread(v: Values, n: ReadName) {
    match n
    case BoltState => v.isLocked.None?
    case BatteryLevel => v.batteryPercent.None?
    case DoorType => v.settings.doorType.None?
    case AssistTurn => v.settings.assistTurn.None?
    case PullSpring => v.settings.pullSpringEnabled.None?
    case AuxiliaryLocking => v.settings.auxiliaryLocking.None?
    case RelockDelay => v.settings.relockDelay.None?
    case LockOnCloseDelay => v.settings.lockOnCloseDelay.None?
    case VerifyFailTime => v.settings.verifyFailTime.None?
    case AlertDelay => v.settings.alertDelay.None?
    case SystemVolume => v.settings.systemVolume.None?
    case Language => v.settings.language.None?
    case AlertVolume => v.settings.alertVolume.None?
    case AlarmVolume => v.settings.alarmVolume.None?
    case CredentialTable => v.credentialCount.None?
  }

  /** The seven values whose absence keeps the battery loop on its short interval. */
  predicate HaveAll(v: Values) {
    && v.batteryPercent.Some?
    && v.settings.doorType.Some?
    && v.settings.assistTurn.Some?
    && v.settings.pullSpringEnabled.Some?
    && v.settings.auxiliaryLocking.Some?
    && v.settings.relockDelay.Some?
    && v.settings.lockOnCloseDelay.Some?
  }

  /** The fact a snapshot shows to entities under one read name. */
  function Shown(d: Snapshot, n: ReadName): Option<Fact> {
    match n
    case BoltState => Wrap(d.isLocked, x => Plain(SawBolt(x)))
    case BatteryLevel => Wrap(d.batteryPercent, x => Plain(SawBattery(x)))
    case DoorType => Wrap(d.doorType, x => Plain(SawDoorType(x)))
    case AssistTurn => Wrap(d.assistTurn, x => Plain(SawAssistTurn(x)))
    case PullSpring =>
      if d.pullSpringEnabled.Some? && d.pullSpringRetraction.Some?
      then Some(Plain(SawPullSpring(d.pullSpringEnabled.value, d.pullSpringRetraction.value)))
      else None
    case AuxiliaryLocking => Wrap(d.auxiliaryLocking, x => Plain(SawAuxiliary(x)))
    case RelockDelay => Wrap(d.relockDelay, x => Plain(SawRelockDelay(x)))
    case LockOnCloseDelay => Wrap(d.lockOnCloseDelay, x => Plain(SawLockOnCloseDelay(x)))
    case VerifyFailTime => Wrap(d.verifyFailTime, x => Plain(SawVerifyFailTime(x)))
    case AlertDelay => Wrap(d.alertDelay, x => Plain(SawAlertDelay(x)))
    case SystemVolume => Wrap(d.systemVolume, x => Plain(SawSystemVolume(x)))
    case Language => Wrap(d.language, x => Plain(SawLanguage(x)))
    case AlertVolume => Wrap(d.alertVolume, x => Plain(SawAlertVolume(x)))
    case AlarmVolume => Wrap(d.alarmVolume, x => Plain(SawAlarmVolume(x)))
    case CredentialTable =>
      if d.credentialCount.Some? && d.credentialsByType.Some?
      then Some(Table(d.credentialCount.value, d.credentialsByType.value))
      else None
  }

  /** A snapshot shows every cached fact under its own name, and the state of the radio. */
  lemma SnapshotShowsCache(c: Core, b: BluetoothState)
    ensures forall n: ReadName :: Shown(BuildSnapshot(c, b), n) == Known(c.values, n)
    ensures var d := BuildSnapshot(c, b); BluetoothState(d.reachable, d.lastSeen, d.rssi) == b
  {
    forall n: ReadName ensures Shown(BuildSnapshot(c, b), n) == Known(c.values, n) {
      match n { case _ => }
    }
  }

  /** Storing a report changes the fact under its own name and nothing else. */
  lemma ApplyTouchesOwnName(v: Values, r: Report)
    ensures forall n: ReadName :: Known(Apply(v, r), n) == if n == r.Name() then Some(FactOf(r)) else Known(v, n)
    ensures Paired(v) ==> Paired(Apply(v, r))
  {
    forall n: ReadName
      ensures Known(Apply(v, r), n) == if n == r.Name() then Some(FactOf(r)) else Known(v, n)
    {
      match n { case _ => }
    }
  }

  /** A report changes the cached state exactly when its fact is not the one already known. */
  lemma ChangedIffNewFact(v: Values, r: Report)
    requires Paired(v)
    ensures Apply(v, r) != v <==> Known(v, r.Name()) != Some(FactOf(r))
  {
    ApplyTouchesOwnName(v, r);
    if Known(v, r.Name()) == Some(FactOf(r)) {
      match r { case _ => assert Apply(v, r) == v; }
    }
  }

  /** Applying a credential table is a no-op exactly when it permutes the table applied before. */
  lemma PermutedTableIsNoChange(v: Values, before: seq<string>, after: seq<string>)
    requires Known(v, CredentialTable) == Some(FactOf(SawCredentials(before)))
    ensures Apply(v, SawCredentials(after)) == v <==> multiset(before) == multiset(after)
  {
    Tally.SameBreakdownIffPermutation(before, after);
    if multiset(before) == multiset(after) {
      assert |before| == |multiset(before)| == |multiset(after)| == |after|;
    }
  }

  /** The retry pass and the cache agree on which values are still missing. */
  lemma UnreadIffUnknown(v: Values, n: ReadName)
    requires Paired(v)
    ensures IsUnread(v, n) <==> Known(v, n) == None
  {
    match n { case _ => }
  }

  /** The names that keep the battery loop on its short interval while they have no value. */
  const GATING: set<ReadName> :=
    {BatteryLevel, DoorType, AssistTurn, PullSpring, AuxiliaryLocking, RelockDelay, LockOnCloseDelay}

  /** The steady-interval check asks for seven facts. */
  lemma HaveAllMeansKnown(v: Values)
    ensures Paired(v) ==> (HaveAll(v) <==> forall n | n in GATING :: Known(v, n).Some?)
  {
    if Paired(v) && forall n | n in GATING :: Known(v, n).Some? {
      assert Known(v, BatteryLevel) != None && Known(v, DoorType) != None && Known(v, AssistTurn) != None
          && Known(v, PullSpring) != None && Known(v, AuxiliaryLocking) != None
          && Known(v, RelockDelay) != None && Known(v, LockOnCloseDelay) != None;
    }
  }
}
