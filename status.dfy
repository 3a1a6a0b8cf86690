/**
 * The status codes carried by response frames. Each is a closed set of
 * named values plus `Unknown`, which every unlisted byte decodes to, so
 * decoding a status never fails. The `*Code` functions give each value's
 * declared discriminant (`Unknown` takes the next free number).
 */
module Status {
  import opened Bytes

  datatype AtCommandStatus = Ok | Error | InvalidCommand | InvalidParam | NoResponse | Unknown

  datatype TxStatus =
    | Standard | NoAck | CcaFailure | TxPurged | NetworkAckFailure
    | NotConnected | InternalError | ResourceDepletion | PayloadTooLarge | Unknown

  datatype ModemStatus =
    | HardwareReset | WatchdogReset | AssociatedCoordinator | DissociatedCoordinator
    | CoordinatorNewNetwork | InputVoltageTooHigh | Unknown

  function AtCommandStatusCode(s: AtCommandStatus): u8 {
    match s
    case Ok => 0
    case Error => 1
    case InvalidCommand => 2
    case InvalidParam => 3
    case NoResponse => 4
    case Unknown => 5
  }

  function TxStatusCode(s: TxStatus): u8 {
    match s
    case Standard => 0x00
    case NoAck => 0x01
    case CcaFailure => 0x02
    case TxPurged => 0x03
    case NetworkAckFailure => 0x21
    case NotConnected => 0x22
    case InternalError => 0x31
    case ResourceDepletion => 0x32
    case PayloadTooLarge => 0x74
    case Unknown => 0x75
  }

  function ModemStatusCode(s: ModemStatus): u8 {
    match s
    case HardwareReset => 0x00
    case WatchdogReset => 0x01
    case AssociatedCoordinator => 0x02
    case DissociatedCoordinator => 0x03
    case CoordinatorNewNetwork => 0x06
    case InputVoltageTooHigh => 0x0D
    case Unknown => 0x0E
  }

  /** `TxStatus::from`: a named status exactly when the byte is that status's code. */
  function TxStatusFrom(v: u8): (s: TxStatus)
    ensures s != TxStatus.Unknown ==> TxStatusCode(s) == v
    ensures s == TxStatus.Unknown <==> forall t: TxStatus :: t != TxStatus.Unknown ==> TxStatusCode(t) != v
  {
    match v
    case 0x00 => TxStatus.Standard
    case 0x01 => TxStatus.NoAck
    case 0x02 => TxStatus.CcaFailure
    case 0x03 => TxStatus.TxPurged
    case 0x21 => TxStatus.NetworkAckFailure
    case 0x22 => TxStatus.NotConnected
    case 0x31 => TxStatus.InternalError
    case 0x32 => TxStatus.ResourceDepletion
    case 0x74 => TxStatus.PayloadTooLarge
    case _ => TxStatus.Unknown
  }

  /** `ModemStatus::from`, likewise. */
  function ModemStatusFrom(v: u8): (s: ModemStatus)
    ensures s != ModemStatus.Unknown ==> ModemStatusCode(s) == v
    ensures s == ModemStatus.Unknown <==> forall t: ModemStatus :: t != ModemStatus.Unknown ==> ModemStatusCode(t) != v
  {
    match v
    case 0x00 => ModemStatus.HardwareReset
    case 0x01 => ModemStatus.WatchdogReset
    case 0x02 => ModemStatus.AssociatedCoordinator
    case 0x03 => ModemStatus.DissociatedCoordinator
    case 0x06 => ModemStatus.CoordinatorNewNetwork
    case 0x0D => ModemStatus.InputVoltageTooHigh
    case _ => ModemStatus.Unknown
  }

  /**
   * The status byte of a local AT command response: codes 0 to 3 are
   * named, everything else, NoResponse's code 4 included, is Unknown.
   */
  function LocalAtStatus(v: u8): (s: AtCommandStatus)
    ensures s != AtCommandStatus.Unknown ==> AtCommandStatusCode(s) == v
    ensures s != AtCommandStatus.NoResponse
    ensures s == AtCommandStatus.Unknown <==> v >= 4
  {
    match v
    case 0 => AtCommandStatus.Ok
    case 1 => AtCommandStatus.Error
    case 2 => AtCommandStatus.InvalidCommand
    case 3 => AtCommandStatus.InvalidParam
    case _ => AtCommandStatus.Unknown
  }

  /** The status byte of a remote AT command response: codes 0 to 4 are named. */
  function RemoteAtStatus(v: u8): (s: AtCommandStatus)
    ensures s != AtCommandStatus.Unknown ==> AtCommandStatusCode(s) == v
    ensures s == AtCommandStatus.Unknown <==> v >= 5
  {
    match v
    case 0 => AtCommandStatus.Ok
    case 1 => AtCommandStatus.Error
    case 2 => AtCommandStatus.InvalidCommand
    case 3 => AtCommandStatus.InvalidParam
    case 4 => AtCommandStatus.NoResponse
    case _ => AtCommandStatus.Unknown
  }

  /** The two AT status tables agree on every byte but 4. */
  lemma AtStatusTablesDifferOnlyAtFour(v: u8)
    ensures LocalAtStatus(v) == RemoteAtStatus(v) <==> v != 4
  {
  }

  /** Every transmit status survives encoding to its code and decoding. */
  lemma TxStatusRoundTrip(s: TxStatus)
    ensures TxStatusFrom(TxStatusCode(s)) == s
  {
  }

  lemma ModemStatusRoundTrip(s: ModemStatus)
    ensures ModemStatusFrom(ModemStatusCode(s)) == s
  {
  }

  /** Every AT status but NoResponse survives the local table; all survive the remote one. */
  lemma AtStatusRoundTrip(s: AtCommandStatus)
    ensures s != AtCommandStatus.NoResponse ==> LocalAtStatus(AtCommandStatusCode(s)) == s
    ensures RemoteAtStatus(AtCommandStatusCode(s)) == s
  {
  }
}
