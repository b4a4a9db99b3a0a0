/** Rows, constants and derived predicates shared by the whole model.
    Times are integers counting microseconds, the resolution of the database's timestamps. */
module Domain {

  datatype Option<+T> = None | Some(value: T)

  type Id = string

  const SECOND: int := 1_000_000
  const DEFAULT_OFFLINE_TIMEOUT: int := 300
  const CAPABILITIES_RESPONSE_TIMEOUT: int := 60
  const OTA_UPDATE_TIMEOUT: int := 600
  const MAX_INTERVAL: int := 86400
  const LOW_BATTERY_THRESHOLD: real := 20.0
  const MAX_METRIC_NAME_LEN: int := 64
  const MAX_MESSAGE_LEN: int := 256
  const NO_CAPABILITIES_ALERT: string := "no_capabilities_response"
  const LOW_BATTERY_ALERT: string := "low_battery"

  function Max(a: int, b: int): int { if a >= b then a else b }

  // ---------------------------------------------------------------- alerts

  datatype Level = Ok | Warning | Error

  datatype Alert = Alert(level: Level, message: string)

  const NO_ALERT: Alert := Alert(Ok, "")
  const TIMEOUT_ALERT: Alert := Alert(Error, NO_CAPABILITIES_ALERT)

  function Truncate(message: string): string {
    if |message| <= MAX_MESSAGE_LEN then message else message[..MAX_MESSAGE_LEN]
  }

  // ------------------------------------------------------------- calibration

  /** The calibration mirror: a dictionary kept as its entries in iteration order. */
  type Mirror = seq<(string, real)>

  /** Assignment to a dictionary key: in place when present, else appended. */
  function Put(m: Mirror, key: string, value: real): Mirror {
    if m == [] then [(key, value)]
    else if m[0].0 == key then [(key, value)] + m[1..]
    else [m[0]] + Put(m[1..], key, value)
  }

  function RoundHalfEven(x: real): int {
    var f := x.Floor;
    var rest := x - f as real;
    if rest < 0.5 then f else if rest > 0.5 then f + 1 else if f % 2 == 0 then f else f + 1
  }

  function Round2(x: real): real { RoundHalfEven(x * 100.0) as real / 100.0 }

  function Round4(x: real): real { RoundHalfEven(x * 10000.0) as real / 10000.0 }

  // ------------------------------------------------------------- identifiers

  predicate SafeChar(c: char) {
    'a' <= c <= 'z' || 'A' <= c <= 'Z' || '0' <= c <= '9' || c == '_' || c == '-'
  }

  predicate AllSafe(s: string) { forall i :: 0 <= i < |s| ==> SafeChar(s[i]) }

  /** What the anchored identifier pattern matches: `$` also matches before one final newline. */
  predicate MatchesIdentifier(s: string) {
    (|s| > 0 && AllSafe(s)) ||
    (|s| > 1 && s[|s| - 1] == '\n' && AllSafe(s[..|s| - 1]))
  }

  predicate SafeKey(s: string) { |s| <= MAX_METRIC_NAME_LEN && MatchesIdentifier(s) }

  // ----------------------------------------------------------------- devices

  datatype Device = Device(
    deviceType: string,
    displayName: string,
    location: string,
    locationType: string,
    isApproved: bool,
    lastSeen: Option<int>,
    hardwareCode: Option<string>,
    hwRev: Option<nat>,
    otaCapable: bool,
    diagCapable: bool,
    fwVersion: string,
    publishInterval: nat,
    calibration: Mirror,
    batteryPercent: Option<real>,
    alert: Alert,
    alertUpdatedAt: Option<int>,
    diagRequestedAt: Option<int>,
    capabilitiesRequestedAt: Option<int>)
  {
    /** Three publish intervals, or five minutes while the interval is unknown. The offline test and
        the re-assertion deadline of an alert use the same window. */
    function Window(): int {
      (if publishInterval > 0 then 3 * publishInterval else DEFAULT_OFFLINE_TIMEOUT) * SECOND
    }

    predicate IsOnline(now: int) { lastSeen.Some? && now - lastSeen.value < Window() }

    /** Ten times the minimum delay between two automatic diagnostics polls (110% of the interval). */
    function TenCooldowns(): int {
      (if publishInterval > 0 then 11 * publishInterval else 10 * DEFAULT_OFFLINE_TIMEOUT) * SECOND
    }

    predicate IsBatteryLow() { batteryPercent.Some? && batteryPercent.value <= LOW_BATTERY_THRESHOLD }

    predicate IsBatteryOk() { batteryPercent.Some? && batteryPercent.value > LOW_BATTERY_THRESHOLD }

    function CapabilitiesTimeout(): int {
      Max(CAPABILITIES_RESPONSE_TIMEOUT, 3 * publishInterval) * SECOND
    }

    function OtaTimeout(): int { Max(OTA_UPDATE_TIMEOUT, 3 * publishInterval) * SECOND }
  }

  /** The row created when an unknown device publishes its first sensor message. */
  function FreshDevice(deviceType: string): Device {
    Device(deviceType, "", "", "", false, None, None, None, false, false, "", 0, [], None,
           NO_ALERT, None, None, None)
  }

  // ---------------------------------------------------------------- commands

  datatype Body =
    | Plain(name: string, version: string)
    | SetOffset(metric: string, offset: real)
    | SetCalibration(key: string, value: real)
    | OtaUpdate(target: string, hw: string, rev: nat)
  {
    function Action(): string {
      match this
      case Plain(name, _) => name
      case SetOffset(_, _) => "set_offset"
      case SetCalibration(_, _) => "set_calibration"
      case OtaUpdate(_, _, _) => "ota_update"
    }

    /** The command's `ver` argument, empty when it has none. */
    function Version(): string {
      match this
      case Plain(_, version) => version
      case OtaUpdate(target, _, _) => target
      case _ => ""
    }
  }

  const REQUEST_CAPABILITIES: Body := Plain("request_capabilities", "")
  const REQUEST_COMMANDS: Body := Plain("request_commands", "")
  const GET_STATUS: Body := Plain("get_status", "")
  const GET_DIAG: Body := Plain("get_diag", "")
  const CONFIRM_UPLINK: Body := Plain("set_confirm_uplink", "")

  datatype Status = Pending | Success | Failed | TimedOut

  datatype Command = Command(
    pk: nat, device: Id, body: Body, sentAt: int,
    status: Status, acked: bool, ackedAt: Option<int>)
  {
    /** Move the row to `status`, keeping the legacy `acked` flag and its time in step. */
    function Mark(newStatus: Status, when: int): Command {
      this.(status := newStatus, acked := newStatus != Pending, ackedAt := Some(when))
    }
  }

  function NewCommand(pk: nat, device: Id, body: Body, now: int): Command {
    Command(pk, device, body, now, Pending, false, None)
  }

  // -------------------------------------------------------------- other rows

  datatype StatusEntry = StatusEntry(time: int, device: Id, alert: Alert)

  datatype Reading = Reading(time: int, device: Id, metric: string, value: real)

  /** Why the server published a command; the broker never sees this. */
  datatype Cause = Direct | Push | Request | Flush | WakeUp | DiagPoll | Repush

  /** One command published on `<deviceType>/<device>/command`. */
  datatype Publish = Publish(at: int, deviceType: string, device: Id, body: Body, cause: Cause)

  datatype Firmware = Firmware(hwCode: string, hwRev: nat, version: string)

  // ------------------------------------------------------- incoming payloads

  datatype ReportedLevel = LEmpty | LOk | LInfo | LWarning | LError | LOther

  /** A capabilities payload after parsing. `hw` is the registry row the claimed code resolved to;
      `fw` is None when the claim is malformed and Some("") when it is absent. */
  datatype CapabilitiesReport = CapabilitiesReport(
    hw: Option<string>, hwRev: Option<nat>, ota: Option<bool>, diag: Option<bool>,
    storeEmpty: bool, fw: Option<string>, interval: Option<real>)

  datatype AckStatus = AckOk | AckError | AckStart | AckOther

  /** An ack payload; the last four fields carry the legacy offset report. */
  datatype AckReport = AckReport(
    action: string, status: AckStatus,
    hasTemp: bool, temp: Option<real>, humi: Option<real>, press: Option<real>)
}
