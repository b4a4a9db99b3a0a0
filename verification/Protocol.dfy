/** What each message handler and web action does to the server's tables, as functions on values.
    A handler works on a `Session`: one device row checked out of the device table, beside the
    tables it appends to. `Step` opens the session, runs the handler and puts the row back. */
module Protocol {
  import opened Domain

  // ----------------------------------------------------------------- session

  datatype Session = Session(
    id: Id, device: Device, commands: seq<Command>, nextPk: nat,
    statusLog: seq<StatusEntry>, readings: seq<Reading>, wire: seq<Publish>)

  datatype State = State(
    devices: map<Id, Device>, commands: seq<Command>, nextPk: nat,
    statusLog: seq<StatusEntry>, readings: seq<Reading>, wire: seq<Publish>)

  const EMPTY: State := State(map[], [], 0, [], [], [])

  function Open(s: State, id: Id, device: Device): Session {
    Session(id, device, s.commands, s.nextPk, s.statusLog, s.readings, s.wire)
  }

  function Commit(s: State, x: Session): State {
    State(s.devices[x.id := x.device], x.commands, x.nextPk, x.statusLog, x.readings, x.wire)
  }

  function Send(x: Session, now: int, up: bool, bodies: seq<Body>, cause: Cause): Session {
    if up then x.(wire := x.wire + Published(now, x.device.deviceType, x.id, bodies, cause)) else x
  }

  function Published(now: int, deviceType: string, id: Id, bodies: seq<Body>, cause: Cause): seq<Publish> {
    seq(|bodies|, i requires 0 <= i < |bodies| => Publish(now, deviceType, id, bodies[i], cause))
  }

  function Heard(x: Session, now: int): Session { x.(device := x.device.(lastSeen := Some(now))) }

  // ------------------------------------------------------------------ alerts

  function Clear(x: Session, now: int): Session {
    x.(device := x.device.(alert := NO_ALERT, alertUpdatedAt := None),
       statusLog := x.statusLog + [StatusEntry(now, x.id, NO_ALERT)])
  }

  function Raise(x: Session, now: int, alert: Alert): Session {
    x.(device := x.device.(alert := alert, alertUpdatedAt := Some(now)),
       statusLog := x.statusLog + [StatusEntry(now, x.id, alert)])
  }

  /** Alert reconciliation on incoming sensor data. */
  function Reconcile(x: Session, now: int): Session {
    var d := x.device;
    if d.alert.message == NO_CAPABILITIES_ALERT then Clear(x, now)
    else if d.alert.level == Ok then x
    else if d.alertUpdatedAt.None? then x.(device := d.(alertUpdatedAt := Some(now)))
    else if now - d.alertUpdatedAt.value > d.Window() then Clear(x, now)
    else x
  }

  // ---------------------------------------------------------------- commands

  /** Which command rows a bulk update selects. */
  datatype Selection =
    | ByAction(device: Id, action: string)
    | OtaOlderThan(device: Id, sentBefore: int)
    | OtaForVersion(device: Id, version: string)

  predicate IsPending(c: Command, id: Id, action: string) {
    c.device == id && c.status == Pending && c.body.Action() == action
  }

  predicate Matches(q: Selection, c: Command) {
    match q
    case ByAction(id, action) => IsPending(c, id, action)
    case OtaOlderThan(id, sentBefore) => IsPending(c, id, "ota_update") && c.sentAt < sentBefore
    case OtaForVersion(id, version) =>
      IsPending(c, id, "ota_update") && c.body.Version() != "" && c.body.Version() == version
  }

  /** Mark every matching row. */
  function Settle(rows: seq<Command>, q: Selection, status: Status, now: int): seq<Command> {
    seq(|rows|, i requires 0 <= i < |rows| =>
      if Matches(q, rows[i]) then rows[i].Mark(status, now) else rows[i])
  }

  function SettleIn(x: Session, q: Selection, status: Status, now: int): Session {
    x.(commands := Settle(x.commands, q, status, now))
  }

  function ExpireOta(x: Session, now: int): Session {
    SettleIn(x, OtaOlderThan(x.id, now - x.device.OtaTimeout()), TimedOut, now)
  }

  function Log(x: Session, body: Body, now: int): Session {
    x.(commands := x.commands + [NewCommand(x.nextPk, x.id, body, now)], nextPk := x.nextPk + 1)
  }

  predicate IsFlushed(c: Command, id: Id) {
    c.device == id && !c.acked && c.body.Action() != "ota_update"
  }

  /** The commands a waking device is sent again, oldest first. */
  function FlushBodies(rows: seq<Command>, id: Id): seq<Body> {
    if rows == [] then []
    else
      var last := rows[|rows| - 1];
      FlushBodies(rows[..|rows| - 1], id) + if IsFlushed(last, id) then [last.body] else []
  }

  /** Index of the newest pending row for an action, or -1. */
  function NewestPending(rows: seq<Command>, id: Id, action: string): (i: int)
    ensures -1 <= i < |rows|
  {
    if rows == [] then -1
    else if IsPending(rows[|rows| - 1], id, action) then |rows| - 1
    else NewestPending(rows[..|rows| - 1], id, action)
  }

  function Acknowledge(rows: seq<Command>, id: Id, action: string, status: Status, now: int): seq<Command> {
    var i := NewestPending(rows, id, action);
    if i < 0 then rows else rows[i := rows[i].Mark(status, now)]
  }

  /** Publish request_capabilities and start the response timer; nothing happens while the broker is down. */
  function RequestCapabilities(x: Session, now: int, up: bool, logged: bool, cause: Cause): Session {
    if !up then x
    else
      var y := Send(x, now, up, [REQUEST_CAPABILITIES], cause);
      var z := y.(device := y.device.(capabilitiesRequestedAt := Some(now)));
      if logged then Log(z, REQUEST_CAPABILITIES, now) else z
  }

  // ----------------------------------------------------------------- sensors

  function WakeUpResync(x: Session, now: int, up: bool): Session {
    var y := Send(x, now, up, FlushBodies(x.commands, x.id), Flush);
    var z := RequestCapabilities(y, now, up, false, WakeUp);
    Send(z, now, up, [REQUEST_COMMANDS] + if z.device.diagCapable then [GET_STATUS] else [], WakeUp)
  }

  predicate CapabilitiesOverdue(d: Device, now: int) {
    d.capabilitiesRequestedAt.Some? && now - d.capabilitiesRequestedAt.value > d.CapabilitiesTimeout()
  }

  function CheckCapabilities(x: Session, now: int): Session {
    if CapabilitiesOverdue(x.device, now) then
      var y := Raise(x, now, TIMEOUT_ALERT);
      SettleIn(y.(device := y.device.(capabilitiesRequestedAt := None)),
               ByAction(x.id, "request_capabilities"), TimedOut, now)
    else x
  }

  predicate DiagDue(d: Device, now: int) {
    && d.alert.level != Ok
    && d.diagCapable
    && d.IsOnline(now)
    && !d.IsBatteryLow()
    && (d.diagRequestedAt.Some? ==> 10 * (now - d.diagRequestedAt.value) >= d.TenCooldowns())
  }

  function PollDiag(x: Session, now: int, up: bool): Session {
    if DiagDue(x.device, now) then
      var y := Send(x, now, up, [GET_DIAG], DiagPoll);
      y.(device := y.device.(diagRequestedAt := Some(now)))
    else x
  }

  const METRIC_ALIASES: map<string, string> := map[
    "temp" := "temperature", "humi" := "humidity", "press" := "pressure", "uv" := "uv_index",
    "batv" := "bat_voltage", "battery_v" := "bat_voltage", "bat" := "bat_percent",
    "battery_pct" := "bat_percent", "light_lux" := "lux", "wifi_rssi" := "rssi"]

  function Canonical(metric: string): string {
    if metric in METRIC_ALIASES then METRIC_ALIASES[metric] else metric
  }

  /** A sensor payload: metric names with their value when it converts to a number. */
  type Payload = seq<(string, Option<real>)>

  function NewReadings(data: Payload, id: Id, now: int): seq<Reading> {
    if data == [] then []
    else
      var (name, value) := data[|data| - 1];
      NewReadings(data[..|data| - 1], id, now) +
      if SafeKey(name) && value.Some? then [Reading(now, id, Canonical(name), value.value)] else []
  }

  /** The battery level carried by the last bat_percent reading of a device. */
  function LatestBattery(readings: seq<Reading>, id: Id): Option<real> {
    if readings == [] then None
    else
      var last := readings[|readings| - 1];
      if last.device == id && last.metric == "bat_percent" then Some(last.value)
      else LatestBattery(readings[..|readings| - 1], id)
  }

  function TrackBattery(x: Session, now: int, level: Option<real>): Session {
    if level.None? then x
    else
      var y := x.(device := x.device.(batteryPercent := level));
      if y.device.alert == Alert(Warning, LOW_BATTERY_ALERT) && y.device.IsBatteryOk() then Clear(y, now)
      else y
  }

  function Ingest(x: Session, now: int, up: bool, data: Payload): (z: Session)
    ensures z.id == x.id
  {
    var y := PollDiag(x, now, up);
    var stored := NewReadings(data, x.id, now);
    TrackBattery(y.(readings := y.readings + stored), now, LatestBattery(stored, x.id))
  }

  /** Up to the approval check: everything that happens for unapproved devices too. */
  function Receive(x: Session, created: bool, now: int, up: bool): (y: Session)
    ensures y.id == x.id
  {
    var z := ExpireOta(Reconcile(Heard(x, now), now), now);
    if created || !x.device.IsOnline(now) then WakeUpResync(z, now, up) else CheckCapabilities(z, now)
  }

  function OnSensors(x: Session, created: bool, now: int, up: bool, data: Payload): Session {
    var y := Receive(x, created, now, up);
    if y.device.isApproved then Ingest(y, now, up, data) else y
  }

  // ---------------------------------------------------------- status and diag

  function OnStatus(x: Session, now: int, level: ReportedLevel, message: Option<string>): Session {
    match level
    case LInfo => x
    case LOther => x
    case LEmpty => Clear(Heard(x, now), now)
    case LOk => Clear(Heard(x, now), now)
    case _ =>
      var text := if message.Some? then Truncate(message.value) else x.device.alert.message;
      Raise(Heard(x, now), now, Alert(if level == LError then Error else Warning, text))
  }

  function DiagAlert(level: ReportedLevel, message: Option<string>): Alert {
    match level
    case LWarning => Alert(Warning, if message.Some? then Truncate(message.value) else "")
    case LError => Alert(Error, if message.Some? then Truncate(message.value) else "")
    case _ => NO_ALERT
  }

  function OnDiag(x: Session, now: int, level: ReportedLevel, message: Option<string>): Session {
    if level == LEmpty || level == LOther then x
    else
      var alert := DiagAlert(level, message);
      var y := Heard(x, now);
      if alert != y.device.alert then
        if alert.level == Ok then Clear(y, now) else Raise(y, now, alert)
      else
        y.(device := y.device.(alertUpdatedAt := if alert.level == Ok then None else Some(now)))
  }

  // ----------------------------------------- capabilities, calibration, acks

  function Identify(d: Device, r: CapabilitiesReport): Device {
    d.(hardwareCode := r.hw,
       hwRev := if r.hwRev.Some? && r.hwRev.value <= 65535 then r.hwRev else d.hwRev,
       otaCapable := if r.ota.Some? then r.ota.value else d.otaCapable,
       diagCapable := if r.diag.Some? then r.diag.value else d.diagCapable,
       fwVersion := if r.fw.Some? then r.fw.value else d.fwVersion,
       publishInterval :=
         if r.interval.Some? && 0.0 < r.interval.value <= MAX_INTERVAL as real then r.interval.value.Floor
         else d.publishInterval,
       capabilitiesRequestedAt := None)
  }

  /** The command that restores one mirrored value: offsets go by bare metric name. */
  function RestoreCommand(key: string, value: real): Body {
    if "cal_" <= key then SetOffset(key[4..], value) else SetCalibration(key, value)
  }

  function RestoreCommands(m: Mirror): seq<Body> {
    seq(|m|, i requires 0 <= i < |m| => RestoreCommand(m[i].0, m[i].1))
  }

  function OnCapabilities(x: Session, now: int, up: bool, r: CapabilitiesReport): Session {
    var identified := x.(device := Identify(x.device, r));
    var y := if identified.device.alert == TIMEOUT_ALERT then Clear(identified, now) else identified;
    var z := SettleIn(y, ByAction(x.id, "request_capabilities"), Success, now);
    var w := SettleIn(z, OtaForVersion(x.id, z.device.fwVersion), Success, now);
    if r.storeEmpty then Send(w, now, up, RestoreCommands(w.device.calibration), Repush) else w
  }

  function OnCommands(x: Session, now: int): Session { Heard(x, now) }

  function ReportedMirror(data: Payload): Mirror {
    if data == [] then []
    else
      var (key, value) := data[|data| - 1];
      var m := ReportedMirror(data[..|data| - 1]);
      if SafeKey(key) && value.Some? then Put(m, key, Round4(value.value)) else m
  }

  function OnCalibration(x: Session, now: int, data: Payload): Session {
    var y := Heard(x, now);
    y.(device := y.device.(calibration := ReportedMirror(data)))
  }

  function PutOffset(m: Mirror, key: string, offset: Option<real>): Mirror {
    if offset.Some? then Put(m, "cal_" + key, Round2(offset.value)) else m
  }

  function OnAck(x: Session, now: int, a: AckReport): Session {
    if a.action == "" && a.hasTemp then
      x.(device := x.device.(calibration :=
        PutOffset(PutOffset(PutOffset(x.device.calibration, "temp", a.temp), "humi", a.humi), "press", a.press)))
    else if a.action == "" || a.status == AckStart || a.status == AckOther then x
    else
      x.(commands := Acknowledge(x.commands, x.id, a.action,
                                 if a.status == AckOk then Success else Failed, now))
  }

  // ------------------------------------------------------------- web actions

  function SendLogged(x: Session, now: int, up: bool, body: Body, cause: Cause): Session {
    if up then Log(Send(x, now, up, [body], cause), body, now) else x
  }

  /** The two publishes of the command view may fail separately; without the first the second is not tried. */
  function OnUserCommand(x: Session, now: int, up: bool, body: Body, upAgain: bool): Session {
    RequestCapabilities(SendLogged(x, now, up, body, Direct), now, up && upAgain, false, Request)
  }

  function OnRequestCapabilities(x: Session, now: int, up: bool): Session {
    Send(RequestCapabilities(x, now, up, true, Request), now, up, [REQUEST_COMMANDS], Request)
  }

  function OnConfirmUplink(x: Session, now: int, up: bool): Session {
    if x.device.diagCapable then SendLogged(x, now, up, CONFIRM_UPLINK, Direct) else x
  }

  function OnSetOffset(x: Session, now: int, up: bool, metric: string, value: real): Session {
    if metric !in ["temp", "humi", "press"] || !up then x
    else
      var y := SendLogged(x, now, up, SetOffset(metric, Round2(value)), Direct);
      y.(device := y.device.(calibration := Put(y.device.calibration, "cal_" + metric, Round2(value))))
  }

  function OnSetCalibration(x: Session, now: int, up: bool, key: string, value: real): Session {
    if !(|key| <= MAX_METRIC_NAME_LEN && |key| > 0 && AllSafe(key)) || !up then x
    else
      var y := SendLogged(x, now, up, SetCalibration(key, Round4(value)), Direct);
      y.(device := y.device.(calibration := Put(y.device.calibration, key, Round4(value))))
  }

  predicate OtaAllowed(d: Device, f: Firmware) {
    d.otaCapable && d.hardwareCode == Some(f.hwCode) && d.hwRev == Some(f.hwRev)
  }

  function OnOtaPush(x: Session, now: int, up: bool, f: Firmware): Session {
    if OtaAllowed(x.device, f) then SendLogged(x, now, up, OtaUpdate(f.version, f.hwCode, f.hwRev), Push) else x
  }

  function OnEdit(x: Session, name: string, location: string, locationType: string, interval: Option<int>): Session {
    x.(device := x.device.(displayName := name, location := location, locationType := locationType,
       publishInterval :=
         if interval.None? then x.device.publishInterval
         else if interval.value < 0 then 0
         else if interval.value > MAX_INTERVAL then MAX_INTERVAL
         else interval.value))
  }

  function OnApprove(x: Session, approved: bool): Session { x.(device := x.device.(isApproved := approved)) }

  // --------------------------------------- actions that remove or move rows

  function DropCommands(s: State, id: Id, pk: Option<nat>): State {
    s.(commands := CommandsWithout(s.commands, id, pk))
  }

  function CommandsWithout(rows: seq<Command>, id: Id, pk: Option<nat>): seq<Command> {
    if rows == [] then []
    else
      var c := rows[|rows| - 1];
      CommandsWithout(rows[..|rows| - 1], id, pk) +
      if c.device == id && (pk.None? || pk.value == c.pk) then [] else [c]
  }

  function LogsWithout(rows: seq<StatusEntry>, id: Id): seq<StatusEntry> {
    if rows == [] then []
    else LogsWithout(rows[..|rows| - 1], id) +
         if rows[|rows| - 1].device == id then [] else [rows[|rows| - 1]]
  }

  function ReadingsWithout(rows: seq<Reading>, id: Id): seq<Reading> {
    if rows == [] then []
    else ReadingsWithout(rows[..|rows| - 1], id) +
         if rows[|rows| - 1].device == id then [] else [rows[|rows| - 1]]
  }

  /** A reading of the device in the range (both ends included), of the metric when one is given. */
  predicate Erased(r: Reading, id: Id, metric: Option<string>, start: int, end: int) {
    r.device == id && (metric.Some? ==> r.metric == metric.value) && start <= r.time <= end
  }

  function ReadingsOutside(rows: seq<Reading>, id: Id, metric: Option<string>, start: int, end: int): seq<Reading> {
    if rows == [] then []
    else ReadingsOutside(rows[..|rows| - 1], id, metric, start, end) +
         if Erased(rows[|rows| - 1], id, metric, start, end) then [] else [rows[|rows| - 1]]
  }

  function Erase(s: State, id: Id, metric: Option<string>, start: int, end: int): State {
    s.(readings := ReadingsOutside(s.readings, id, metric, start, end))
  }

  function Delete(s: State, id: Id): State {
    s.(devices := s.devices - {id},
       commands := CommandsWithout(s.commands, id, None),
       statusLog := LogsWithout(s.statusLog, id),
       readings := ReadingsWithout(s.readings, id))
  }

  function MoveCommands(rows: seq<Command>, from: Id, to: Id): seq<Command> {
    seq(|rows|, i requires 0 <= i < |rows| => if rows[i].device == from then rows[i].(device := to) else rows[i])
  }

  function MoveLogs(rows: seq<StatusEntry>, from: Id, to: Id): seq<StatusEntry> {
    seq(|rows|, i requires 0 <= i < |rows| => if rows[i].device == from then rows[i].(device := to) else rows[i])
  }

  function MoveReadings(rows: seq<Reading>, from: Id, to: Id): seq<Reading> {
    seq(|rows|, i requires 0 <= i < |rows| => if rows[i].device == from then rows[i].(device := to) else rows[i])
  }

  /** The columns a rename copies; the location type and the diagnostics flag fall back to their defaults. */
  function RenamedDevice(d: Device): Device { d.(locationType := "", diagCapable := false) }

  function Rename(s: State, from: Id, to: Id): State
    requires from in s.devices
  {
    s.(devices := (s.devices - {from})[to := RenamedDevice(s.devices[from])],
       commands := MoveCommands(s.commands, from, to),
       statusLog := MoveLogs(s.statusLog, from, to),
       readings := MoveReadings(s.readings, from, to))
  }

  /** Time of a device's latest reading of a metric. */
  function Latest(rows: seq<Reading>, id: Id, metric: string): Option<int> {
    if rows == [] then None
    else
      var r := rows[|rows| - 1];
      var before := Latest(rows[..|rows| - 1], id, metric);
      if r.device == id && r.metric == metric && (before.None? || r.time >= before.value) then Some(r.time)
      else before
  }

  /** The source's series replaces the target's only when its latest reading is strictly newer;
      a metric the target lacks is simply taken over. */
  predicate SourceWins(rows: seq<Reading>, source: Id, target: Id, metric: string) {
    var s := Latest(rows, source, metric);
    var t := Latest(rows, target, metric);
    s.Some? && (t.None? || s.value > t.value)
  }

  /** Winner per metric: what becomes of one row when each metric keeps one side's whole series. */
  function MergedRow(r: Reading, all: seq<Reading>, source: Id, target: Id): (kept: seq<Reading>)
    ensures |kept| <= 1
  {
    if r.device == source then if SourceWins(all, source, target, r.metric) then [r.(device := target)] else []
    else if r.device == target && SourceWins(all, source, target, r.metric) then []
    else [r]
  }

  function MergedPrefix(rows: seq<Reading>, all: seq<Reading>, source: Id, target: Id): seq<Reading> {
    if rows == [] then []
    else MergedPrefix(rows[..|rows| - 1], all, source, target) + MergedRow(rows[|rows| - 1], all, source, target)
  }

  function MergedReadings(rows: seq<Reading>, source: Id, target: Id): seq<Reading> {
    MergedPrefix(rows, rows, source, target)
  }

  /** The later of two optional times. */
  function Later(a: Option<int>, b: Option<int>): Option<int> {
    if a.Some? && (b.None? || a.value > b.value) then a else b
  }

  function Merge(s: State, source: Id, target: Id): State
    requires source in s.devices && target in s.devices
  {
    var merged := s.devices[target].(lastSeen := Later(s.devices[source].lastSeen, s.devices[target].lastSeen));
    s.(devices := s.devices[target := merged] - {source},
       commands := MoveCommands(s.commands, source, target),
       statusLog := MoveLogs(s.statusLog, source, target),
       readings := MergedReadings(s.readings, source, target))
  }

  // ------------------------------------------------------------------ events

  datatype Action =
    | Sensors(deviceType: string, data: Payload)
    | StatusReport(level: ReportedLevel, message: Option<string>)
    | Capabilities(report: CapabilitiesReport)
    | CommandList
    | Calibration(data: Payload)
    | Diag(level: ReportedLevel, message: Option<string>)
    | Ack(ack: AckReport)
    | UserCommand(body: Body, upAgain: bool)
    | RequestCaps
    | ConfirmUplink
    | Offset(metric: string, value: real)
    | CalibrationValue(key: string, value: real)
    | OtaPush(firmware: Firmware)
    | Edit(name: string, location: string, locationType: string, interval: Option<int>)
    | Approve(approved: bool)
    | ClearCommands(pk: Option<nat>)
    | EraseReadings(only: Option<string>, start: int, end: int)
    | DeleteDevice
    | RenameTo(newId: Id)
    | MergeInto(target: Id)

  /** One message or web request about device `id`, handled at `now`; `up` says whether the broker
      accepts publishes while it is handled (the command view has a flag of its own for its second one). */
  datatype Event = Event(now: int, up: bool, id: Id, action: Action)

  predicate ValidNewId(s: string) { |s| > 0 && AllSafe(s) }

  predicate IsSessionAction(a: Action) {
    !(a.ClearCommands? || a.EraseReadings? || a.DeleteDevice? || a.RenameTo? || a.MergeInto?)
  }

  function Handle(x: Session, created: bool, e: Event): Session
    requires IsSessionAction(e.action)
  {
    match e.action
    case Sensors(_, data) => OnSensors(x, created, e.now, e.up, data)
    case StatusReport(level, message) => OnStatus(x, e.now, level, message)
    case Capabilities(report) => OnCapabilities(x, e.now, e.up, report)
    case CommandList => OnCommands(x, e.now)
    case Calibration(data) => OnCalibration(x, e.now, data)
    case Diag(level, message) => OnDiag(x, e.now, level, message)
    case Ack(ack) => OnAck(x, e.now, ack)
    case UserCommand(body, upAgain) => OnUserCommand(x, e.now, e.up, body, upAgain)
    case RequestCaps => OnRequestCapabilities(x, e.now, e.up)
    case ConfirmUplink => OnConfirmUplink(x, e.now, e.up)
    case Offset(metric, value) => OnSetOffset(x, e.now, e.up, metric, value)
    case CalibrationValue(key, value) => OnSetCalibration(x, e.now, e.up, key, value)
    case OtaPush(firmware) => OnOtaPush(x, e.now, e.up, firmware)
    case Edit(name, location, locationType, interval) => OnEdit(x, name, location, locationType, interval)
    case Approve(approved) => OnApprove(x, approved)
  }

  function Step(s: State, e: Event): State {
    var known := e.id in s.devices;
    if IsSessionAction(e.action) then
      if known then Commit(s, Handle(Open(s, e.id, s.devices[e.id]), false, e))
      else if e.action.Sensors? then
        Commit(s, Handle(Open(s, e.id, FreshDevice(e.action.deviceType)), true, e))
      else s
    else if !known then s
    else
      match e.action
      case ClearCommands(pk) => DropCommands(s, e.id, pk)
      case EraseReadings(metric, start, end) => if start < end then Erase(s, e.id, metric, start, end) else s
      case DeleteDevice => Delete(s, e.id)
      case RenameTo(newId) => if Renames(s, e) then Rename(s, e.id, newId) else s
      case MergeInto(target) => if Merges(s, e) then Merge(s, e.id, target) else s
  }

  predicate Renames(s: State, e: Event) {
    e.action.RenameTo? && e.id in s.devices && ValidNewId(e.action.newId) && e.action.newId !in s.devices
  }

  predicate Merges(s: State, e: Event) {
    e.action.MergeInto? && e.id in s.devices && ValidNewId(e.action.target) && e.action.target != e.id &&
    e.action.target in s.devices
  }

  /** The state after a run that starts with empty tables. */
  function Run(es: seq<Event>): State {
    if es == [] then EMPTY else Step(Run(es[..|es| - 1]), es[|es| - 1])
  }

  /** Clock readings never go backwards. */
  predicate Timed(es: seq<Event>) {
    forall i, j :: 0 <= i < j < |es| ==> es[i].now <= es[j].now
  }

  /** The device that was known as `id` before the event, if it existed at all. */
  function Prior(s: State, e: Event, id: Id): Option<Id> {
    if Renames(s, e) && id == e.action.newId then Some(e.id)
    else if id in s.devices then Some(id)
    else None
  }
}
