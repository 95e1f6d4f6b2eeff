/** The values that cross the boundary between the lock, the client and the coordinator. */
module Types {
  /** How often one read is tried before it gives up. */
  const BLE_READ_ATTEMPTS: nat := 3

  datatype Option<+T> = None | Some(value: T)

  /** The four auxiliary-locking toggles, in the order the mask writer expects them. */
  datatype Toggle = TouchToLock | CloseToLock | ResumeLock | AnyUnlockLock

  /** A toggle mask as a read reports it; the lock may leave toggles out. */
  type Mask = map<Toggle, bool>

  /** The named single-value reads. */
  datatype ReadName =
    | BoltState
    | BatteryLevel
    | DoorType
    | AssistTurn
    | PullSpring
    | AuxiliaryLocking
    | RelockDelay
    | LockOnCloseDelay
    | VerifyFailTime
    | AlertDelay
    | SystemVolume
    | Language
    | AlertVolume
    | AlarmVolume
    | CredentialTable

  /** A value the lock reported, tagged with the read it answers. */
  datatype Report =
    | SawBolt(locked: bool)
    | SawBattery(percent: int)
    | SawDoorType(text: string)
    | SawAssistTurn(enabled: bool)
    | SawPullSpring(enabled: bool, seconds: int)
    | SawAuxiliary(mask: Mask)
    | SawRelockDelay(seconds: int)
    | SawLockOnCloseDelay(seconds: int)
    | SawVerifyFailTime(seconds: int)
    | SawAlertDelay(seconds: int)
    | SawSystemVolume(level: int)
    | SawLanguage(text: string)
    | SawAlertVolume(text: string)
    | SawAlarmVolume(text: string)
    | SawCredentials(rows: seq<string>)  // the type name of every row
  {
    function Name(): ReadName {
      match this
      case SawBolt(_) => BoltState
      case SawBattery(_) => BatteryLevel
      case SawDoorType(_) => DoorType
      case SawAssistTurn(_) => AssistTurn
      case SawPullSpring(_, _) => PullSpring
      case SawAuxiliary(_) => AuxiliaryLocking
      case SawRelockDelay(_) => RelockDelay
      case SawLockOnCloseDelay(_) => LockOnCloseDelay
      case SawVerifyFailTime(_) => VerifyFailTime
      case SawAlertDelay(_) => AlertDelay
      case SawSystemVolume(_) => SystemVolume
      case SawLanguage(_) => Language
      case SawAlertVolume(_) => AlertVolume
      case SawAlarmVolume(_) => AlarmVolume
      case SawCredentials(_) => CredentialTable
    }
  }

  /** One pushed event of a real-time listen; either field may be absent. */
  datatype LockEvent = LockEvent(locked: Option<bool>, battery: Option<int>)

  /** The exception types the coordinator tells apart by name. */
  datatype Error =
    | AuthenticationError
    | BluetoothUnavailableError
    | OperationError
    | PresenceRequiredError
    | ForeignError(name: string)  // any other exception type

  /** The error an operation's caller sees: a foreign one arrives wrapped. */
  function Surfaced(e: Error): Error {
    if e.ForeignError? then OperationError else e
  }

  /** A settings write and the arguments it was called with. */
  datatype WriteOp =
    | SetAlertVolume(level: int)
    | SetAlarmVolume(silent: bool)
    | SetAlertDelay(seconds: int)
    | SetVerifyFailTime(seconds: int)
    | SetRelockDelay(seconds: int)
    | SetLockOnCloseDelay(seconds: int)
    | EnableLockOnClose
    | EnableRelock
    | SetAssistTurn(enabled: bool)
    | SetAuxiliary(toggle: Toggle, enabled: bool, mask: Mask)
    | ChangeLanguage(code: string)
    | AddVisitorPassword(pin: string, group: int)
    | DeleteUser(user: int)
  {
    /** Whether the write may only run with the front keypad awake. */
    predicate NeedsPresence() {
      AddVisitorPassword? || DeleteUser?
    }

    /** The value read back to confirm the write. */
    function PostRead(): Option<ReadName> {
      match this
      case SetAlertVolume(_) => Some(AlertVolume)
      case SetAlarmVolume(_) => Some(AlarmVolume)
      case SetAssistTurn(_) => Some(AssistTurn)
      case SetAuxiliary(_, _, _) => Some(AuxiliaryLocking)
      case ChangeLanguage(_) => Some(Language)
      case AddVisitorPassword(_, _) => Some(CredentialTable)
      case DeleteUser(_) => Some(CredentialTable)
      case _ => None
    }
  }

  /** What one task runs. */
  datatype Job =
    | RealtimeLoop
    | Actuate(lock: bool)
    | Write(op: WriteOp)
    | Enrol(group: int, kind: string)
    | BackgroundRead(name: ReadName)
  {
    /** Jobs that mark the coordinator busy while they hold the operation lock. */
    predicate IsOperation() {
      Actuate? || Write? || Enrol?
    }

    predicate NeedsPresence() {
      Enrol? || (Write? && op.NeedsPresence())
    }

    /** The language change raises the keypad notification before it queues. */
    predicate Announced() {
      Write? && op.ChangeLanguage?
    }

    function PostRead(): Option<ReadName> {
      match this
      case Write(op) => op.PostRead()
      case Enrol(_, _) => Some(CredentialTable)
      case _ => None
    }
  }

  /** Bluetooth reachability as the manager last saw it. */
  datatype BluetoothState = BluetoothState(reachable: bool, lastSeen: Option<int>, rssi: Option<int>)

  /** How a client call ends. */
  datatype Reply =
    | Got(report: Report)
    | Flag(value: bool)      // a front-panel presence read, or an observed bolt position
    | Enrolled(success: bool) // the terminal enrol report
    | Nothing                // None
    | Failed(error: Error)
    | Cancelled
}
