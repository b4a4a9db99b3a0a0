/** A handler loads a device row once and writes it back in several column-wise saves, between which it updates the
    command table: its database operations, and that they amount to what the handler does. */
module Saves {
  import opened Domain
  import opened Protocol
  import opened AlertClock

  datatype Column =
    | DisplayName | Location | LocationType | IsApproved | LastSeen | HardwareCode | HwRev | OtaCapable
    | DiagCapable | FwVersion | PublishInterval | CalibrationMap | BatteryPercent | AlertPair | AlertUpdatedAt
    | DiagRequestedAt | CapabilitiesRequestedAt

  /** Columns only the web views save, columns both sides save, columns only the message worker saves. A merge is a web
      request too, and it may save the target's `last_seen`. (A rename saves nothing: it puts a copy of the whole device
      in the place of the row.) */
  const WEB_ONLY: set<Column> := {DisplayName, Location, LocationType, IsApproved}
  const SHARED: set<Column> := {LastSeen, PublishInterval, CalibrationMap, CapabilitiesRequestedAt}
  const WORKER_ONLY: set<Column> := {HardwareCode, HwRev, OtaCapable, DiagCapable, FwVersion,
                                     BatteryPercent, AlertPair, AlertUpdatedAt, DiagRequestedAt}

  /** `save(update_fields=columns)`: the row takes these columns of the in-memory object. */
  function Save(row: Device, local: Device, columns: set<Column>): Device {
    row.(displayName := if DisplayName in columns then local.displayName else row.displayName,
         location := if Location in columns then local.location else row.location,
         locationType := if LocationType in columns then local.locationType else row.locationType,
         isApproved := if IsApproved in columns then local.isApproved else row.isApproved,
         lastSeen := if LastSeen in columns then local.lastSeen else row.lastSeen,
         hardwareCode := if HardwareCode in columns then local.hardwareCode else row.hardwareCode,
         hwRev := if HwRev in columns then local.hwRev else row.hwRev,
         otaCapable := if OtaCapable in columns then local.otaCapable else row.otaCapable,
         diagCapable := if DiagCapable in columns then local.diagCapable else row.diagCapable,
         fwVersion := if FwVersion in columns then local.fwVersion else row.fwVersion,
         publishInterval := if PublishInterval in columns then local.publishInterval else row.publishInterval,
         calibration := if CalibrationMap in columns then local.calibration else row.calibration,
         batteryPercent := if BatteryPercent in columns then local.batteryPercent else row.batteryPercent,
         alert := if AlertPair in columns then local.alert else row.alert,
         alertUpdatedAt := if AlertUpdatedAt in columns then local.alertUpdatedAt else row.alertUpdatedAt,
         diagRequestedAt := if DiagRequestedAt in columns then local.diagRequestedAt else row.diagRequestedAt,
         capabilitiesRequestedAt :=
           if CapabilitiesRequestedAt in columns then local.capabilitiesRequestedAt else row.capabilitiesRequestedAt)
  }

  /** Rows `a` and `b` hold the same value in the column. */
  predicate Same(a: Device, b: Device, column: Column) {
    match column
    case DisplayName => a.displayName == b.displayName
    case Location => a.location == b.location
    case LocationType => a.locationType == b.locationType
    case IsApproved => a.isApproved == b.isApproved
    case LastSeen => a.lastSeen == b.lastSeen
    case HardwareCode => a.hardwareCode == b.hardwareCode
    case HwRev => a.hwRev == b.hwRev
    case OtaCapable => a.otaCapable == b.otaCapable
    case DiagCapable => a.diagCapable == b.diagCapable
    case FwVersion => a.fwVersion == b.fwVersion
    case PublishInterval => a.publishInterval == b.publishInterval
    case CalibrationMap => a.calibration == b.calibration
    case BatteryPercent => a.batteryPercent == b.batteryPercent
    case AlertPair => a.alert == b.alert
    case AlertUpdatedAt => a.alertUpdatedAt == b.alertUpdatedAt
    case DiagRequestedAt => a.diagRequestedAt == b.diagRequestedAt
    case CapabilitiesRequestedAt => a.capabilitiesRequestedAt == b.capabilitiesRequestedAt
  }

  datatype Saved = Saved(local: Device, columns: set<Column>)

  predicate Consistent(d: Device) {
    (d.alert.level == Ok <==> d.alertUpdatedAt.None?) && (d.alert.level == Ok ==> d.alert.message == "")
  }

  // ------------------------------------------------------ the saves of a handler

  function ReceiveSaves(x: Session, created: bool, now: int, up: bool): seq<Saved> {
    var r := Reconcile(Heard(x, now), now).device;
    var d := Receive(x, created, now, up).device;
    var cleared := x.device.alert.message == NO_CAPABILITIES_ALERT || r.alert != x.device.alert;
    var restarted := !cleared && r.alertUpdatedAt != x.device.alertUpdatedAt;
    [Saved(r, {LastSeen} +
           (if cleared then {AlertPair, AlertUpdatedAt} else if restarted then {AlertUpdatedAt} else {}))] +
    if Wakes(x.device, created, now) then if up then [Saved(d, {CapabilitiesRequestedAt})] else []
    else if CapabilitiesOverdue(x.device, now) then [Saved(d, {AlertPair, AlertUpdatedAt, CapabilitiesRequestedAt})]
    else []
  }

  function IngestSaves(x: Session, now: int, up: bool, data: Payload): seq<Saved> {
    var polled := PollDiag(x, now, up).device;
    var level := LatestBattery(NewReadings(data, x.id, now), x.id);
    var d := Ingest(x, now, up, data).device;
    (if DiagDue(x.device, now) then [Saved(polled, {DiagRequestedAt})] else []) +
    (if level.Some? && level != x.device.batteryPercent then [Saved(d, {BatteryPercent})] else []) +
    (if level.Some? && d.alert != x.device.alert then [Saved(d, {AlertPair, AlertUpdatedAt})] else [])
  }

  /** The saves a message handler issues, in order, from the row it loaded. */
  function SavesOf(x: Session, created: bool, e: Event): seq<Saved>
    requires IsSessionAction(e.action)
  {
    var d := Handle(x, created, e).device;
    match e.action
    case Sensors(_, data) =>
      var y := Receive(x, created, e.now, e.up);
      ReceiveSaves(x, created, e.now, e.up) + if y.device.isApproved then IngestSaves(y, e.now, e.up, data) else []
    case StatusReport(level, _) =>
      if level == LInfo || level == LOther then [] else [Saved(d, {AlertPair, AlertUpdatedAt, LastSeen})]
    case Diag(level, _) =>
      if level == LEmpty || level == LOther then [] else [Saved(d, {AlertPair, AlertUpdatedAt, LastSeen})]
    case Capabilities(_) =>
      [Saved(d, {HardwareCode, HwRev, OtaCapable, DiagCapable, FwVersion, PublishInterval, CapabilitiesRequestedAt,
                 AlertPair, AlertUpdatedAt})]
    case CommandList => [Saved(d, {LastSeen})]
    case Calibration(_) => [Saved(d, {CalibrationMap, LastSeen})]
    case Ack(a) => if a.action == "" && a.hasTemp then [Saved(d, {CalibrationMap})] else []
    case _ => []
  }

  predicate IsMessage(a: Action) {
    a.Sensors? || a.StatusReport? || a.Capabilities? || a.CommandList? || a.Calibration? || a.Diag? || a.Ack?
  }

  function SaveAll(row: Device, saves: seq<Saved>): Device {
    if saves == [] then row
    else Save(SaveAll(row, saves[..|saves| - 1]), saves[|saves| - 1].local, saves[|saves| - 1].columns)
  }

  lemma {:induction false} SaveLast(row: Device, saves: seq<Saved>, s: Saved)
    ensures SaveAll(row, saves + [s]) == Save(SaveAll(row, saves), s.local, s.columns)
  {
  }

  lemma {:induction false} SaveMore(row: Device, saves: seq<Saved>, more: seq<Saved>)
    ensures SaveAll(row, saves + more) == SaveAll(SaveAll(row, saves), more)
  {
    hide Save;
    if more == [] {
      assert saves + more == saves;
    } else {
      assert (saves + more)[..|saves + more| - 1] == saves + more[..|more| - 1];
      SaveMore(row, saves, more[..|more| - 1]);
    }
  }

  lemma FirstSave(x: Session, created: bool, now: int, up: bool)
    ensures var r := Reconcile(Heard(x, now), now).device;
            var first := ReceiveSaves(x, created, now, up)[0];
            Save(x.device, first.local, first.columns) == r
  {
    hide Receive, Reconcile;
    ReconcileColumns(x, now);
  }

  lemma SecondSave(x: Session, created: bool, now: int, up: bool)
    ensures var r := Reconcile(Heard(x, now), now).device;
            var saves := ReceiveSaves(x, created, now, up);
            var d := Receive(x, created, now, up).device;
            && 1 <= |saves| <= 2
            && (|saves| == 2 ==> Save(r, saves[1].local, saves[1].columns) == d)
            && (|saves| == 1 ==> r == d)
  {
    hide Receive, Reconcile, Save;
    ReceiveColumns(x, created, now, up);
    ReconcileColumns(x, now);
    var r := Reconcile(Heard(x, now), now).device;
    var d := Receive(x, created, now, up).device;
    RequestColumns(r, d);
  }

  lemma RequestColumns(row: Device, d: Device)
    ensures Save(row, d, {CapabilitiesRequestedAt}) == row.(capabilitiesRequestedAt := d.capabilitiesRequestedAt)
    ensures Save(row, d, {AlertPair, AlertUpdatedAt, CapabilitiesRequestedAt}) ==
            row.(alert := d.alert, alertUpdatedAt := d.alertUpdatedAt,
                 capabilitiesRequestedAt := d.capabilitiesRequestedAt)
  {
  }

  lemma {:induction false} SaveOnce(row: Device, saves: seq<Saved>)
    ensures SaveAll(row, []) == row
    ensures |saves| == 1 ==> SaveAll(row, saves) == Save(row, saves[0].local, saves[0].columns)
    ensures |saves| == 2 ==>
              SaveAll(row, saves) == Save(Save(row, saves[0].local, saves[0].columns), saves[1].local, saves[1].columns)
  {
  }

  lemma ReceiveSavesAll(x: Session, created: bool, now: int, up: bool)
    ensures SaveAll(x.device, ReceiveSaves(x, created, now, up)) == Receive(x, created, now, up).device
  {
    hide Receive, Save, SaveAll, Reconcile, ReceiveSaves;
    FirstSave(x, created, now, up);
    SecondSave(x, created, now, up);
    SaveOnce(x.device, ReceiveSaves(x, created, now, up));
  }

  lemma {:induction false} IngestDevice(x: Session, now: int, up: bool, data: Payload)
    ensures var p := PollDiag(x, now, up).device;
            var d := Ingest(x, now, up, data).device;
            var level := LatestBattery(NewReadings(data, x.id, now), x.id);
            var b := p.(batteryPercent := if level.Some? then level else p.batteryPercent);
            && p == x.device.(diagRequestedAt := if DiagDue(x.device, now) then Some(now) else x.device.diagRequestedAt)
            && (d == b || (level.Some? && d == b.(alert := NO_ALERT, alertUpdatedAt := None) &&
                           d.alert != x.device.alert))
  {
  }

  lemma IngestSavesAll(x: Session, now: int, up: bool, data: Payload)
    ensures SaveAll(x.device, IngestSaves(x, now, up, data)) == Ingest(x, now, up, data).device
  {
    hide Ingest, PollDiag, NewReadings, LatestBattery, DiagDue, Save, SaveAll;
    var p := PollDiag(x, now, up).device;
    var d := Ingest(x, now, up, data).device;
    var level := LatestBattery(NewReadings(data, x.id, now), x.id);
    IngestDevice(x, now, up, data);
    var s1 := if DiagDue(x.device, now) then [Saved(p, {DiagRequestedAt})] else [];
    var s2 := if level.Some? && level != x.device.batteryPercent then [Saved(d, {BatteryPercent})] else [];
    var s3 := if level.Some? && d.alert != x.device.alert then [Saved(d, {AlertPair, AlertUpdatedAt})] else [];
    SaveOnce(x.device, s1);
    SaveMore(x.device, s1, s2);
    SaveOnce(p, s2);
    SaveMore(x.device, s1 + s2, s3);
    var b := p.(batteryPercent := if level.Some? then level else p.batteryPercent);
    SaveOnce(b, s3);
    SavedColumns(x.device, p, d);
    SavedColumns(p, p, d);
    SavedColumns(b, p, d);
  }

  lemma SavedColumns(row: Device, p: Device, d: Device)
    ensures Save(row, p, {DiagRequestedAt}) == row.(diagRequestedAt := p.diagRequestedAt)
    ensures Save(row, d, {BatteryPercent}) == row.(batteryPercent := d.batteryPercent)
    ensures Save(row, d, {AlertPair, AlertUpdatedAt}) == row.(alert := d.alert, alertUpdatedAt := d.alertUpdatedAt)
  {
  }

  /** Status and diagnostics reports write the alert, its clock and `last_seen`. */
  lemma ReportDevice(x: Session, created: bool, e: Event)
    requires e.action.StatusReport? || e.action.Diag?
    ensures var d := Handle(x, created, e).device;
            && d == x.device.(alert := d.alert, alertUpdatedAt := d.alertUpdatedAt, lastSeen := d.lastSeen)
            && (Consistent(x.device) ==> Consistent(d))
            && (SavesOf(x, created, e) == [] ==> d == x.device)
  {
    hide OnStatus, OnDiag, Consistent;
    match e.action
    case StatusReport(level, message) => StatusDevice(x, e.now, level, message);
    case Diag(level, message) => DiagDevice(x, e.now, level, message);
  }

  lemma StatusDevice(x: Session, now: int, level: ReportedLevel, message: Option<string>)
    ensures var d := OnStatus(x, now, level, message).device;
            && d == x.device.(alert := d.alert, alertUpdatedAt := d.alertUpdatedAt, lastSeen := d.lastSeen)
            && (Consistent(x.device) ==> Consistent(d))
            && (level == LInfo || level == LOther ==> d == x.device)
  {
  }

  lemma DiagDevice(x: Session, now: int, level: ReportedLevel, message: Option<string>)
    ensures var d := OnDiag(x, now, level, message).device;
            && d == x.device.(alert := d.alert, alertUpdatedAt := d.alertUpdatedAt, lastSeen := d.lastSeen)
            && (Consistent(x.device) ==> Consistent(d))
            && (level == LEmpty || level == LOther ==> d == x.device)
  {
  }

  lemma CapabilitiesDevice(x: Session, now: int, up: bool, r: CapabilitiesReport)
    ensures var d, i := OnCapabilities(x, now, up, r).device, Identify(x.device, r);
            && d == i.(alert := d.alert, alertUpdatedAt := d.alertUpdatedAt)
            && (Consistent(x.device) ==> Consistent(d))
  {
  }

  lemma ReportColumns(row: Device, d: Device)
    ensures Save(row, d, {AlertPair, AlertUpdatedAt, LastSeen}) ==
            row.(alert := d.alert, alertUpdatedAt := d.alertUpdatedAt, lastSeen := d.lastSeen)
    ensures Save(row, d, {LastSeen}) == row.(lastSeen := d.lastSeen)
  {
  }

  lemma CalibrationColumns(row: Device, d: Device)
    ensures Save(row, d, {CalibrationMap, LastSeen}) == row.(calibration := d.calibration, lastSeen := d.lastSeen)
    ensures Save(row, d, {CalibrationMap}) == row.(calibration := d.calibration)
  {
  }

  lemma CapabilitiesSave(x: Session, created: bool, e: Event)
    requires e.action.Capabilities?
    ensures SaveAll(x.device, SavesOf(x, created, e)) == Handle(x, created, e).device
  {
    hide OnCapabilities, SaveAll;
    CapabilitiesDevice(x, e.now, e.up, e.action.report);
    SaveOnce(x.device, SavesOf(x, created, e));
  }

  lemma MessageSaves(x: Session, created: bool, e: Event)
    requires IsMessage(e.action) && !e.action.Sensors? && !e.action.Capabilities?
    ensures SaveAll(x.device, SavesOf(x, created, e)) == Handle(x, created, e).device
  {
    hide OnSensors, OnCapabilities, ReportedMirror, PutOffset, Acknowledge, SaveAll, Save, Consistent, OnStatus, OnDiag;
    if e.action.StatusReport? || e.action.Diag? { ReportDevice(x, created, e); }
    ReportColumns(x.device, Handle(x, created, e).device);
    CalibrationColumns(x.device, Handle(x, created, e).device);
    SaveOnce(x.device, SavesOf(x, created, e));
  }

  /** Nothing a handler changes on its in-memory row is forgotten by its saves: undisturbed, the row ends as
      the handler left the object. */
  lemma SavesAreComplete(x: Session, created: bool, e: Event)
    requires IsMessage(e.action)
    ensures SaveAll(x.device, SavesOf(x, created, e)) == Handle(x, created, e).device
  {
    if e.action.Sensors? {
      hide Receive, Ingest, ReceiveSaves, IngestSaves, SaveAll;
      var y := Receive(x, created, e.now, e.up);
      ReceiveSavesAll(x, created, e.now, e.up);
      IngestSavesAll(y, e.now, e.up, e.action.data);
      SaveMore(x.device, ReceiveSaves(x, created, e.now, e.up), IngestSaves(y, e.now, e.up, e.action.data));
      SaveMore(x.device, ReceiveSaves(x, created, e.now, e.up), []);
      SaveOnce(y.device, []);
    } else if e.action.Capabilities? {
      CapabilitiesSave(x, created, e);
    } else {
      MessageSaves(x, created, e);
    }
  }

  // --------------------------------------------------------------- sane saves

  /** A worker save never touches the web's columns, and writes the alert and its clock together or not at
      all. */
  predicate Sane(s: Saved) {
    && s.columns <= WORKER_ONLY + SHARED
    && (AlertPair in s.columns <==> AlertUpdatedAt in s.columns)
    && (AlertPair in s.columns ==> Consistent(s.local))
  }

  ghost predicate AllSane(saves: seq<Saved>) { forall i :: 0 <= i < |saves| ==> Sane(saves[i]) }

  lemma ReceiveSane(x: Session, created: bool, now: int, up: bool)
    requires Consistent(x.device)
    ensures AllSane(ReceiveSaves(x, created, now, up)) && |ReceiveSaves(x, created, now, up)| > 0
    ensures Consistent(Receive(x, created, now, up).device)
  {
    hide Receive;
    ReceiveColumns(x, created, now, up);
  }

  lemma IngestSane(x: Session, now: int, up: bool, data: Payload)
    requires Consistent(x.device)
    ensures AllSane(IngestSaves(x, now, up, data))
  {
  }

  lemma SensorsSane(x: Session, created: bool, e: Event)
    requires e.action.Sensors? && Consistent(x.device)
    ensures AllSane(SavesOf(x, created, e))
  {
    hide Receive, Ingest, ReceiveSaves, IngestSaves, Sane, Consistent, OnSensors;
    ReceiveSane(x, created, e.now, e.up);
    IngestSane(Receive(x, created, e.now, e.up), e.now, e.up, e.action.data);
  }

  lemma MessageSane(x: Session, created: bool, e: Event)
    requires IsMessage(e.action) && !e.action.Sensors? && Consistent(x.device)
    ensures AllSane(SavesOf(x, created, e))
  {
    hide OnSensors, OnCapabilities, OnStatus, OnDiag, ReportedMirror, PutOffset, Acknowledge, Consistent;
    if e.action.StatusReport? || e.action.Diag? { ReportDevice(x, created, e); }
    if e.action.Capabilities? { CapabilitiesDevice(x, e.now, e.up, e.action.report); }
  }

  lemma SavesAreSane(x: Session, created: bool, e: Event)
    requires IsMessage(e.action) && Consistent(x.device)
    ensures AllSane(SavesOf(x, created, e))
  {
    hide SavesOf, Sane, Consistent;
    if e.action.Sensors? { SensorsSane(x, created, e); } else { MessageSane(x, created, e); }
  }

  // ----------------------------------------------------- all database operations

  /** One database operation: a save of the row, or an update or insert in the command table. */
  datatype Task =
    | SaveColumns(saved: Saved)
    | SettleRows(selection: Selection, status: Status, now: int)
    | AnswerRow(id: Id, action: string, status: Status, now: int)
    | CreateRow(id: Id, body: Body, now: int)

  function SaveTasks(saves: seq<Saved>): seq<Task> {
    seq(|saves|, i requires 0 <= i < |saves| => SaveColumns(saves[i]))
  }

  /** The operations of a message handler, in order, from the row it loaded. */
  function TasksOf(x: Session, created: bool, e: Event): seq<Task>
    requires IsSessionAction(e.action)
  {
    var saves := SaveTasks(SavesOf(x, created, e));
    match e.action
    case Sensors(_, _) =>
      var r := Reconcile(Heard(x, e.now), e.now).device;
      var n := |ReceiveSaves(x, created, e.now, e.up)|;
      var fires := TimeoutFires(x.device, created, e);
      saves[..1] + [SettleRows(OtaOlderThan(x.id, e.now - r.OtaTimeout()), TimedOut, e.now)] + saves[1..n] +
      (if fires then [SettleRows(ByAction(x.id, "request_capabilities"), TimedOut, e.now)] else []) + saves[n..]
    case Capabilities(r) =>
      saves + [SettleRows(ByAction(x.id, "request_capabilities"), Success, e.now),
               SettleRows(OtaForVersion(x.id, Identify(x.device, r).fwVersion), Success, e.now)]
    case Ack(a) =>
      if a.action == "" || (a.status != AckOk && a.status != AckError) then saves
      else saves + [AnswerRow(x.id, a.action, if a.status == AckOk then Success else Failed, e.now)]
    case _ => saves
  }

  /** What one operation makes of the row and of the command table. */
  function OnRow(row: Device, t: Task): Device {
    if t.SaveColumns? then Save(row, t.saved.local, t.saved.columns) else row
  }

  function OnRows(rows: seq<Command>, nextPk: nat, t: Task): seq<Command> {
    match t
    case SaveColumns(_) => rows
    case SettleRows(q, status, now) => Settle(rows, q, status, now)
    case AnswerRow(id, action, status, now) => Acknowledge(rows, id, action, status, now)
    case CreateRow(id, body, now) => rows + [NewCommand(nextPk, id, body, now)]
  }

  function SavesIn(tasks: seq<Task>): seq<Saved> {
    if tasks == [] then []
    else
      SavesIn(tasks[..|tasks| - 1]) +
      if tasks[|tasks| - 1].SaveColumns? then [tasks[|tasks| - 1].saved] else []
  }

  function RowsAfter(rows: seq<Command>, nextPk: nat, tasks: seq<Task>): seq<Command> {
    if tasks == [] then rows
    else OnRows(RowsAfter(rows, nextPk, tasks[..|tasks| - 1]), nextPk, tasks[|tasks| - 1])
  }

  lemma {:induction false} SavesInAppend(a: seq<Task>, b: seq<Task>)
    ensures SavesIn(a + b) == SavesIn(a) + SavesIn(b)
  {
    if b == [] {
      assert a + b == a;
    } else {
      assert (a + b)[..|a + b| - 1] == a + b[..|b| - 1];
      SavesInAppend(a, b[..|b| - 1]);
    }
  }

  lemma {:induction false} SavesInTasks(saves: seq<Saved>)
    ensures SavesIn(SaveTasks(saves)) == saves
  {
    if saves != [] {
      assert SaveTasks(saves)[..|saves| - 1] == SaveTasks(saves[..|saves| - 1]);
      SavesInTasks(saves[..|saves| - 1]);
    }
  }

  lemma {:induction false} RowsAppend(rows: seq<Command>, nextPk: nat, a: seq<Task>, b: seq<Task>)
    ensures RowsAfter(rows, nextPk, a + b) == RowsAfter(RowsAfter(rows, nextPk, a), nextPk, b)
  {
    if b == [] {
      assert a + b == a;
    } else {
      assert (a + b)[..|a + b| - 1] == a + b[..|b| - 1];
      RowsAppend(rows, nextPk, a, b[..|b| - 1]);
    }
  }

  lemma {:induction false} RowsUntouched(rows: seq<Command>, nextPk: nat, tasks: seq<Task>)
    requires forall i :: 0 <= i < |tasks| ==> tasks[i].SaveColumns?
    ensures RowsAfter(rows, nextPk, tasks) == rows
  {
    if tasks != [] { RowsUntouched(rows, nextPk, tasks[..|tasks| - 1]); }
  }

  lemma {:induction false} OneTask(rows: seq<Command>, nextPk: nat, t: Task)
    ensures RowsAfter(rows, nextPk, [t]) == OnRows(rows, nextPk, t)
    ensures SavesIn([t]) == if t.SaveColumns? then [t.saved] else []
  {
  }

  /** Handlers insert their saves and updates in this order: the saves among them are those of the handler. */
  lemma {:induction false} TasksSave(x: Session, created: bool, e: Event)
    requires IsMessage(e.action)
    ensures SavesIn(TasksOf(x, created, e)) == SavesOf(x, created, e)
  {
    hide SavesOf, SavesIn, Receive, Reconcile, ReceiveSaves, TimeoutFires;
    var saves := SaveTasks(SavesOf(x, created, e));
    SavesInTasks(SavesOf(x, created, e));
    match e.action
    case Sensors(_, _) => SensorTasksSave(x, created, e);
    case Capabilities(r) =>
      var q1 := SettleRows(ByAction(x.id, "request_capabilities"), Success, e.now);
      var q2 := SettleRows(OtaForVersion(x.id, Identify(x.device, r).fwVersion), Success, e.now);
      assert [q1, q2] == [q1] + [q2];
      OneTask([], 0, q1);
      OneTask([], 0, q2);
      SavesInAppend([q1], [q2]);
      SavesInAppend(saves, [q1, q2]);
    case Ack(a) =>
      if a.action != "" && (a.status == AckOk || a.status == AckError) {
        var t := AnswerRow(x.id, a.action, if a.status == AckOk then Success else Failed, e.now);
        OneTask([], 0, t);
        SavesInAppend(saves, [t]);
      }
    case _ =>
  }

  lemma SensorTasksSave(x: Session, created: bool, e: Event)
    requires e.action.Sensors?
    ensures SavesIn(TasksOf(x, created, e)) == SavesOf(x, created, e)
  {
    hide SavesIn, Receive, Reconcile, ReceiveSaves, IngestSaves, TimeoutFires;
    var saves := SaveTasks(SavesOf(x, created, e));
    var r := Reconcile(Heard(x, e.now), e.now).device;
    var n := |ReceiveSaves(x, created, e.now, e.up)|;
    ReceiveCount(x, created, e.now, e.up);
    var q1 := SettleRows(OtaOlderThan(x.id, e.now - r.OtaTimeout()), TimedOut, e.now);
    var q2 := SettleRows(ByAction(x.id, "request_capabilities"), TimedOut, e.now);
    var fired := if TimeoutFires(x.device, created, e) then [q2] else [];
    OneTask([], 0, q1);
    OneTask([], 0, q2);
    NoSaves();
    SavesInAppend(saves[..1], [q1]);
    SavesInAppend(saves[..1] + [q1], saves[1..n]);
    SavesInAppend(saves[..1] + [q1] + saves[1..n], fired);
    SavesInAppend(saves[..1] + [q1] + saves[1..n] + fired, saves[n..]);
    SavesInAppend(saves[..1], saves[1..n]);
    SavesInAppend(saves[..n], saves[n..]);
    assert saves[..1] + saves[1..n] == saves[..n] && saves[..n] + saves[n..] == saves;
    SavesInTasks(SavesOf(x, created, e));
  }

  lemma NoSaves()
    ensures SavesIn([]) == []
  {
  }

  lemma ReceiveCount(x: Session, created: bool, now: int, up: bool)
    ensures |ReceiveSaves(x, created, now, up)| > 0
  {
  }

  lemma SensorRows(x: Session, created: bool, e: Event)
    requires e.action.Sensors?
    ensures var r := Reconcile(Heard(x, e.now), e.now).device;
            var expired := Settle(x.commands, OtaOlderThan(x.id, e.now - r.OtaTimeout()), TimedOut, e.now);
            Handle(x, created, e).commands ==
            if TimeoutFires(x.device, created, e)
            then Settle(expired, ByAction(x.id, "request_capabilities"), TimedOut, e.now) else expired
  {
    hide Settle, Ingest, Reconcile, FlushBodies, Published;
    IngestRows(Receive(x, created, e.now, e.up), e.now, e.up, e.action.data);
    ReconcileRows(x, e.now);
    ReconcileColumns(x, e.now);
  }

  lemma IngestRows(x: Session, now: int, up: bool, data: Payload)
    ensures Ingest(x, now, up, data).commands == x.commands
  {
  }

  lemma ReconcileRows(x: Session, now: int)
    ensures Reconcile(Heard(x, now), now).commands == x.commands && Reconcile(Heard(x, now), now).id == x.id
  {
  }

  /** Nothing a handler does to the row or to the command table is missing from its operations: undisturbed, they leave
      both exactly as the handler says. */
  lemma {:induction false} TasksAreComplete(x: Session, created: bool, e: Event)
    requires IsMessage(e.action)
    ensures SaveAll(x.device, SavesIn(TasksOf(x, created, e))) == Handle(x, created, e).device
    ensures RowsAfter(x.commands, x.nextPk, TasksOf(x, created, e)) == Handle(x, created, e).commands
  {
    hide SavesIn, RowsAfter, TasksOf, SavesOf, Handle, SaveAll;
    TasksSave(x, created, e);
    SavesAreComplete(x, created, e);
    if e.action.Sensors? {
      SensorTasksRows(x, created, e);
    } else {
      MessageTasksRows(x, created, e);
    }
  }

  lemma SensorTasksRows(x: Session, created: bool, e: Event)
    requires e.action.Sensors?
    ensures RowsAfter(x.commands, x.nextPk, TasksOf(x, created, e)) == Handle(x, created, e).commands
  {
    hide RowsAfter, SavesOf, Handle, Reconcile, ReceiveSaves, Settle, TimeoutFires, Receive, Ingest;
    var saves := SaveTasks(SavesOf(x, created, e));
    var r := Reconcile(Heard(x, e.now), e.now).device;
    ReceiveCount(x, created, e.now, e.up);
    SensorCount(x, created, e);
    var n := |ReceiveSaves(x, created, e.now, e.up)|;
    var q1 := SettleRows(OtaOlderThan(x.id, e.now - r.OtaTimeout()), TimedOut, e.now);
    var q2 := SettleRows(ByAction(x.id, "request_capabilities"), TimedOut, e.now);
    var fired := if TimeoutFires(x.device, created, e) then [q2] else [];
    SensorRows(x, created, e);
    RowsUntouched(x.commands, x.nextPk, saves[..1]);
    RowsAppend(x.commands, x.nextPk, saves[..1], [q1]);
    OneTask(x.commands, x.nextPk, q1);
    var expired := OnRows(x.commands, x.nextPk, q1);
    RowsAppend(x.commands, x.nextPk, saves[..1] + [q1], saves[1..n]);
    RowsUntouched(expired, x.nextPk, saves[1..n]);
    RowsAppend(x.commands, x.nextPk, saves[..1] + [q1] + saves[1..n], fired);
    OneTask(expired, x.nextPk, q2);
    RowsUntouched(expired, x.nextPk, []);
    RowsAppend(x.commands, x.nextPk, saves[..1] + [q1] + saves[1..n] + fired, saves[n..]);
    RowsUntouched(Handle(x, created, e).commands, x.nextPk, saves[n..]);
  }

  lemma SensorCount(x: Session, created: bool, e: Event)
    requires e.action.Sensors?
    ensures |SavesOf(x, created, e)| >= |ReceiveSaves(x, created, e.now, e.up)|
  {
  }

  lemma MessageTasksRows(x: Session, created: bool, e: Event)
    requires IsMessage(e.action) && !e.action.Sensors?
    ensures RowsAfter(x.commands, x.nextPk, TasksOf(x, created, e)) == Handle(x, created, e).commands
  {
    hide RowsAfter, SavesOf, OnCapabilities, Acknowledge, Settle, ReportedMirror, PutOffset, OnStatus, OnDiag;
    var saves := SaveTasks(SavesOf(x, created, e));
    RowsUntouched(x.commands, x.nextPk, saves);
    match e.action
    case Capabilities(r) =>
      var q1 := SettleRows(ByAction(x.id, "request_capabilities"), Success, e.now);
      var q2 := SettleRows(OtaForVersion(x.id, Identify(x.device, r).fwVersion), Success, e.now);
      assert saves + [q1, q2] == saves + [q1] + [q2];
      RowsAppend(x.commands, x.nextPk, saves, [q1]);
      RowsAppend(x.commands, x.nextPk, saves + [q1], [q2]);
      OneTask(x.commands, x.nextPk, q1);
      OneTask(OnRows(x.commands, x.nextPk, q1), x.nextPk, q2);
      CapabilitiesRows(x, e.now, e.up, r);
    case Ack(a) =>
      if a.action != "" && (a.status == AckOk || a.status == AckError) {
        var t := AnswerRow(x.id, a.action, if a.status == AckOk then Success else Failed, e.now);
        RowsAppend(x.commands, x.nextPk, saves, [t]);
        OneTask(x.commands, x.nextPk, t);
      }
    case StatusReport(level, message) => ReportRows(x, e.now, level, message);
    case Diag(level, message) => ReportRows(x, e.now, level, message);
    case _ =>
  }

  lemma CapabilitiesRows(x: Session, now: int, up: bool, r: CapabilitiesReport)
    ensures OnCapabilities(x, now, up, r).commands ==
            Settle(Settle(x.commands, ByAction(x.id, "request_capabilities"), Success, now),
                   OtaForVersion(x.id, Identify(x.device, r).fwVersion), Success, now)
  {
  }

  lemma ReportRows(x: Session, now: int, level: ReportedLevel, message: Option<string>)
    ensures OnStatus(x, now, level, message).commands == x.commands
    ensures OnDiag(x, now, level, message).commands == x.commands
  {
  }
}
