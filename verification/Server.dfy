/** The handlers and views in the form the source has them: they assign the columns of a row loaded
    from the device table, save it, and loop over the other tables. Each is proved to do exactly what
    `Protocol.Step` says. */
module Server {
  import opened Domain
  import opened Protocol
  import opened Merging

  /** Saving the row twice is saving it once; loading it back gives the session that saved it. */
  lemma CommitTwice(s: State, x: Session, y: Session)
    requires x.id == y.id
    ensures Commit(Commit(s, x), y) == Commit(s, y)
    ensures Open(Commit(s, x), x.id, x.device) == x
  {
  }

  lemma SavedAfterReconcile(x: Session, now: int)
    ensures var r := Reconcile(Heard(x, now), now);
            r == x.(device := r.device, statusLog := r.statusLog)
    ensures var r := Reconcile(Heard(x, now), now);
            ExpireOta(r, now) ==
            r.(commands := Settle(x.commands, OtaOlderThan(x.id, now - r.device.OtaTimeout()), TimedOut, now))
  {
  }

  class Database {
    var devices: map<Id, Device>
    var commands: seq<Command>
    var nextPk: nat
    var statusLog: seq<StatusEntry>
    var readings: seq<Reading>
    ghost var wire: seq<Publish>

    ghost function View(): State
      reads this
    {
      State(devices, commands, nextPk, statusLog, readings, wire)
    }

    constructor ()
      ensures View() == EMPTY
    {
      devices, commands, nextPk, statusLog, readings, wire := map[], [], 0, [], [], [];
    }

    // ------------------------------------------------------------ publishing

    method MqttPublish(now: int, up: bool, device: Device, id: Id, body: Body, cause: Cause)
      modifies this`wire
      ensures wire == if up then old(wire) + [Publish(now, device.deviceType, id, body, cause)] else old(wire)
    {
      if up { wire := wire + [Publish(now, device.deviceType, id, body, cause)]; }
    }

    method RequestCapabilities(now: int, up: bool, id: Id, loaded: Device, logCommand: bool, cause: Cause)
      returns (device: Device)
      requires id in devices && devices[id] == loaded
      modifies this`devices, this`wire, this`commands, this`nextPk
      ensures var x := Protocol.RequestCapabilities(old(Open(View(), id, loaded)), now, up, logCommand, cause);
              device == x.device && View() == Commit(old(View()), x)
    {
      device := loaded;
      MqttPublish(now, up, device, id, REQUEST_CAPABILITIES, cause);
      if up {
        device := device.(capabilitiesRequestedAt := Some(now));
        devices := devices[id := device];
        if logCommand {
          commands := commands + [NewCommand(nextPk, id, REQUEST_CAPABILITIES, now)];
          nextPk := nextPk + 1;
        }
      }
      assert Published(now, loaded.deviceType, id, [REQUEST_CAPABILITIES], cause) ==
             [Publish(now, loaded.deviceType, id, REQUEST_CAPABILITIES, cause)];
      assert devices == old(devices)[id := device];
    }

    method FlushPendingCommands(now: int, up: bool, id: Id, device: Device)
      modifies this`wire
      ensures wire == if up then old(wire) + Published(now, device.deviceType, id, FlushBodies(commands, id), Flush)
                      else old(wire)
    {
      for i := 0 to |commands|
        invariant wire == if up
                          then old(wire) + Published(now, device.deviceType, id, FlushBodies(commands[..i], id), Flush)
                          else old(wire)
      {
        var cmd := commands[i];
        assert commands[..i + 1][..i] == commands[..i];
        if cmd.device == id && !cmd.acked && cmd.body.Action() != "ota_update" {
          MqttPublish(now, up, device, id, cmd.body, Flush);
        }
      }
      assert commands[..|commands|] == commands;
    }

    method CheckOtaTimeouts(now: int, id: Id, device: Device)
      modifies this`commands
      ensures commands == Settle(old(commands), OtaOlderThan(id, now - device.OtaTimeout()), TimedOut, now)
    {
      var timeout := device.OtaTimeout();
      for i := 0 to |commands|
        invariant |commands| == |old(commands)|
        invariant forall k :: 0 <= k < i ==>
                    commands[k] == Settle(old(commands), OtaOlderThan(id, now - timeout), TimedOut, now)[k]
        invariant forall k :: i <= k < |commands| ==> commands[k] == old(commands)[k]
      {
        var cmd := commands[i];
        if cmd.device == id && cmd.status == Pending && cmd.body.Action() == "ota_update" {
          var elapsed := now - cmd.sentAt;
          if elapsed > timeout {
            commands := commands[i := cmd.Mark(TimedOut, now)];
          }
        }
      }
    }

    method ResolveOtaUpdates(now: int, id: Id, device: Device)
      modifies this`commands
      ensures commands == Settle(old(commands), OtaForVersion(id, device.fwVersion), Success, now)
    {
      for i := 0 to |commands|
        invariant |commands| == |old(commands)|
        invariant forall k :: 0 <= k < i ==>
                    commands[k] == Settle(old(commands), OtaForVersion(id, device.fwVersion), Success, now)[k]
        invariant forall k :: i <= k < |commands| ==> commands[k] == old(commands)[k]
      {
        var cmd := commands[i];
        if cmd.device == id && cmd.status == Pending && cmd.body.Action() == "ota_update" {
          var target := cmd.body.Version();
          if target != "" && device.fwVersion == target {
            commands := commands[i := cmd.Mark(Success, now)];
          }
        }
      }
    }

    method RepushCalibration(now: int, up: bool, id: Id, device: Device)
      modifies this`wire
      ensures wire ==
              if up then old(wire) + Published(now, device.deviceType, id, RestoreCommands(device.calibration), Repush)
              else old(wire)
    {
      var mirror := device.calibration;
      for i := 0 to |mirror|
        invariant wire == if up
                          then old(wire) + Published(now, device.deviceType, id, RestoreCommands(mirror[..i]), Repush)
                          else old(wire)
      {
        var (key, value) := mirror[i];
        var cmd: Body;
        if "cal_" <= key {
          cmd := SetOffset(key[4..], value);
        } else {
          cmd := SetCalibration(key, value);
        }
        assert RestoreCommands(mirror[..i + 1]) == RestoreCommands(mirror[..i]) + [cmd];
        MqttPublish(now, up, device, id, cmd, Repush);
      }
      assert mirror[..|mirror|] == mirror;
    }

    // ------------------------------------------------------- sensor messages

    method HandleSensorMessage(now: int, up: bool, deviceType: string, id: Id, data: Payload)
      modifies this
      ensures View() == Step(old(View()), Event(now, up, id, Sensors(deviceType, data)))
    {
      hide Receive, Ingest;
      ghost var s0 := View();
      var created := id !in devices;
      var device := if created then FreshDevice(deviceType) else devices[id];
      ghost var x := Open(s0, id, device);
      devices := devices[id := device];
      assert View() == Commit(s0, x);
      device := ReceiveSensorMessage(now, up, id, device, created);
      ghost var y := Receive(x, created, now, up);
      CommitTwice(s0, x, y);
      if device.isApproved {
        InsertReadings(now, up, id, device, data);
        CommitTwice(s0, y, Ingest(y, now, up, data));
      }
    }

    /** The sensor handler before the approval check. */
    method ReceiveSensorMessage(now: int, up: bool, id: Id, loaded: Device, created: bool) returns (device: Device)
      requires id in devices && devices[id] == loaded
      modifies this
      ensures var x := Receive(old(Open(View(), id, loaded)), created, now, up);
              device == x.device && View() == Commit(old(View()), x)
    {
      ghost var x := Open(View(), id, loaded);
      device := loaded;
      var wasOnline := device.IsOnline(now);
      device := device.(lastSeen := Some(now));
      device := ReconcileAlert(now, id, device);
      devices := devices[id := device];
      CheckOtaTimeouts(now, id, device);
      ghost var y := ExpireOta(Reconcile(Heard(x, now), now), now);
      SavedAfterReconcile(x, now);
      assert View() == Commit(old(View()), y);
      if created || !wasOnline {
        device := WakeUpRequests(now, up, id, device);
        CommitTwice(old(View()), y, WakeUpResync(y, now, up));
      } else {
        device := CheckCapabilitiesTimeout(now, id, device);
        CommitTwice(old(View()), y, CheckCapabilities(y, now));
      }
    }

    /** Release an alert that normal data or silence has made obsolete. */
    method ReconcileAlert(now: int, id: Id, loaded: Device) returns (device: Device)
      modifies this`statusLog
      ensures var x := Reconcile(old(Open(View(), id, loaded)), now);
              device == x.device && statusLog == x.statusLog
    {
      device := loaded;
      if device.alert.message == NO_CAPABILITIES_ALERT {
        device := device.(alert := Alert(Ok, ""), alertUpdatedAt := None);
        statusLog := statusLog + [StatusEntry(now, id, Alert(Ok, ""))];
      } else if device.alert.level != Ok {
        if device.alertUpdatedAt == None {
          device := device.(alertUpdatedAt := Some(now));
        } else if now - device.alertUpdatedAt.value > device.Window() {
          device := device.(alert := Alert(Ok, ""), alertUpdatedAt := None);
          statusLog := statusLog + [StatusEntry(now, id, Alert(Ok, ""))];
        }
      }
    }

    /** Flag a device whose capabilities request has stayed unanswered too long. */
    method CheckCapabilitiesTimeout(now: int, id: Id, loaded: Device) returns (device: Device)
      requires id in devices && devices[id] == loaded
      modifies this
      ensures var x := CheckCapabilities(old(Open(View(), id, loaded)), now);
              device == x.device && View() == Commit(old(View()), x)
    {
      device := loaded;
      assert devices == devices[id := device];
      if device.capabilitiesRequestedAt != None {
        var elapsed := now - device.capabilitiesRequestedAt.value;
        var timeout := Max(CAPABILITIES_RESPONSE_TIMEOUT, 3 * device.publishInterval) * SECOND;
        if elapsed > timeout {
          device := device.(alert := Alert(Error, NO_CAPABILITIES_ALERT), alertUpdatedAt := Some(now));
          device := device.(capabilitiesRequestedAt := None);
          devices := devices[id := device];
          statusLog := statusLog + [StatusEntry(now, id, Alert(Error, NO_CAPABILITIES_ALERT))];
          commands := Settle(commands, ByAction(id, "request_capabilities"), TimedOut, now);
        }
      }
    }

    /** The wake-up branch of the sensor handler. */
    method WakeUpRequests(now: int, up: bool, id: Id, loaded: Device) returns (device: Device)
      requires id in devices && devices[id] == loaded
      modifies this
      ensures var x := WakeUpResync(old(Open(View(), id, loaded)), now, up);
              device == x.device && View() == Commit(old(View()), x)
    {
      FlushPendingCommands(now, up, id, loaded);
      device := RequestCapabilities(now, up, id, loaded, false, WakeUp);
      MqttPublish(now, up, device, id, REQUEST_COMMANDS, WakeUp);
      if device.diagCapable {
        MqttPublish(now, up, device, id, GET_STATUS, WakeUp);
      }
      ghost var bodies := [REQUEST_COMMANDS] + if device.diagCapable then [GET_STATUS] else [];
      assert Published(now, device.deviceType, id, bodies, WakeUp) ==
             [Publish(now, device.deviceType, id, REQUEST_COMMANDS, WakeUp)] +
             if device.diagCapable then [Publish(now, device.deviceType, id, GET_STATUS, WakeUp)] else [];
    }

    method MaybeRequestDiag(now: int, up: bool, id: Id, loaded: Device) returns (device: Device)
      requires id in devices && devices[id] == loaded
      modifies this`wire, this`devices
      ensures var x := PollDiag(old(Open(View(), id, loaded)), now, up);
              device == x.device && View() == Commit(old(View()), x)
    {
      device := loaded;
      assert devices == devices[id := loaded];
      if device.alert.level == Ok { return; }
      if !device.diagCapable { return; }
      if !device.IsOnline(now) { return; }
      if device.IsBatteryLow() { return; }
      if device.diagRequestedAt != None {
        var elapsed := now - device.diagRequestedAt.value;
        if 10 * elapsed < device.TenCooldowns() { return; }
      }
      MqttPublish(now, up, device, id, GET_DIAG, DiagPoll);
      assert Published(now, loaded.deviceType, id, [GET_DIAG], DiagPoll) ==
             [Publish(now, loaded.deviceType, id, GET_DIAG, DiagPoll)];
      device := device.(diagRequestedAt := Some(now));
      devices := devices[id := device];
    }

    /** The sensor handler after the approval check. */
    method InsertReadings(now: int, up: bool, id: Id, loaded: Device, data: Payload)
      requires id in devices && devices[id] == loaded
      modifies this
      ensures View() == Commit(old(View()), Ingest(old(Open(View(), id, loaded)), now, up, data))
    {
      hide NewReadings, LatestBattery, DiagDue, TrackBattery;
      ghost var s0 := View();
      var device := MaybeRequestDiag(now, up, id, loaded);
      var rows, level := CollectReadings(now, id, data);
      readings := readings + rows;
      ReconcileBattery(now, id, device, level);
      ghost var y := PollDiag(Open(s0, id, loaded), now, up);
      CommitTwice(s0, y, y.(readings := y.readings + rows));
      CommitTwice(s0, y.(readings := y.readings + rows), Ingest(Open(s0, id, loaded), now, up, data));
    }

    /** The rows to insert, and the last battery level among them. */
    method CollectReadings(now: int, id: Id, data: Payload) returns (rows: seq<Reading>, level: Option<real>)
      ensures rows == NewReadings(data, id, now) && level == LatestBattery(rows, id)
    {
      hide SafeKey;
      rows, level := [], None;
      for i := 0 to |data|
        invariant rows == NewReadings(data[..i], id, now)
        invariant level == LatestBattery(rows, id)
      {
        var (name, value) := data[i];
        assert data[..i + 1][..i] == data[..i];
        if SafeKey(name) && value.Some? {
          var metric := if name in METRIC_ALIASES then METRIC_ALIASES[name] else name;
          ghost var before := rows;
          rows := rows + [Reading(now, id, metric, value.value)];
          assert rows[..|rows| - 1] == before;
          if metric == "bat_percent" { level := value; }
        }
      }
      assert data[..|data|] == data;
    }

    /** Track the battery level and release a low-battery warning the reading contradicts. */
    method ReconcileBattery(now: int, id: Id, loaded: Device, level: Option<real>)
      requires id in devices && devices[id] == loaded
      modifies this`devices, this`statusLog
      ensures View() == Commit(old(View()), TrackBattery(old(Open(View(), id, loaded)), now, level))
    {
      var device := loaded;
      assert devices == devices[id := device];
      if level.Some? {
        device := device.(batteryPercent := level);
        devices := devices[id := device];
        if device.alert.level == Warning && device.alert.message == LOW_BATTERY_ALERT && device.IsBatteryOk() {
          device := device.(alert := Alert(Ok, ""), alertUpdatedAt := None);
          devices := devices[id := device];
          statusLog := statusLog + [StatusEntry(now, id, Alert(Ok, ""))];
        }
      }
      assert devices == old(devices)[id := device];
    }

    // ------------------------------------------------- other device messages

    method HandleStatusMessage(now: int, up: bool, id: Id, level: ReportedLevel, message: Option<string>)
      modifies this
      ensures View() == Step(old(View()), Event(now, up, id, StatusReport(level, message)))
    {
      hide OnSensors, OnCapabilities, OnAck, Rename, Merge, Delete, DropCommands, Truncate;
      if id !in devices { return; }
      var device := devices[id];
      if level == LInfo || level == LOther {
        assert devices == devices[id := device];
        return;
      }
      if level == LEmpty || level == LOk {
        device := device.(alert := Alert(Ok, ""), alertUpdatedAt := None);
      } else {
        device := device.(alert := device.alert.(level := if level == LWarning then Warning else Error));
        if message.Some? {
          device := device.(alert := device.alert.(message := Truncate(message.value)));
        }
        device := device.(alertUpdatedAt := Some(now));
      }
      device := device.(lastSeen := Some(now));
      devices := devices[id := device];
      statusLog := statusLog + [StatusEntry(now, id, device.alert)];
    }

    method HandleDiagMessage(now: int, up: bool, id: Id, level: ReportedLevel, message: Option<string>)
      modifies this
      ensures View() == Step(old(View()), Event(now, up, id, Diag(level, message)))
    {
      hide OnSensors, OnCapabilities, OnAck, Rename, Merge, Delete, DropCommands, Clear, Raise, DiagAlert;
      if id !in devices { return; }
      var device := devices[id];
      assert devices == devices[id := device];
      if level == LEmpty || level == LOther { return; }
      ReflectHealth(now, id, device, level, message);
    }

    /** Reflect a reported health level onto the device alert, logging it only when it changes. */
    method ReflectHealth(now: int, id: Id, loaded: Device, level: ReportedLevel, message: Option<string>)
      requires level != LEmpty && level != LOther
      modifies this`devices, this`statusLog
      ensures View() == Commit(old(View()), OnDiag(old(Open(View(), id, loaded)), now, level, message))
    {
      hide DiagAlert;
      var device := loaded;
      var alert := HealthAlert(level, message);
      var changed := device.alert != alert;
      device := device.(alert := alert,
                        alertUpdatedAt := if alert.level != Ok then Some(now) else None,
                        lastSeen := Some(now));
      devices := devices[id := device];
      if changed {
        statusLog := statusLog + [StatusEntry(now, id, alert)];
      }
    }

    method HealthAlert(level: ReportedLevel, message: Option<string>) returns (alert: Alert)
      ensures alert == DiagAlert(level, message)
      ensures alert.level == Ok ==> alert == NO_ALERT
    {
      var text := if message.Some? then Truncate(message.value) else "";
      var alertLevel := if level == LWarning then Warning else if level == LError then Error else Ok;
      alert := Alert(alertLevel, if alertLevel != Ok then text else "");
    }

    method HandleCapabilitiesMessage(now: int, up: bool, id: Id, r: CapabilitiesReport)
      modifies this
      ensures View() == Step(old(View()), Event(now, up, id, Capabilities(r)))
    {
      if id !in devices { return; }
      StoreCapabilities(now, up, id, devices[id], r);
    }

    method StoreCapabilities(now: int, up: bool, id: Id, loaded: Device, r: CapabilitiesReport)
      modifies this
      ensures View() == Commit(old(View()), OnCapabilities(old(Open(View(), id, loaded)), now, up, r))
    {
      var device := StoreIdentity(loaded, r);
      var hadTimeoutAlert := device.alert.level == Error && device.alert.message == NO_CAPABILITIES_ALERT;
      if hadTimeoutAlert {
        device := device.(alert := Alert(Ok, ""), alertUpdatedAt := None);
        statusLog := statusLog + [StatusEntry(now, id, Alert(Ok, ""))];
      }
      devices := devices[id := device];
      commands := Settle(commands, ByAction(id, "request_capabilities"), Success, now);
      ResolveOtaUpdates(now, id, device);
      if r.storeEmpty && device.calibration != [] {
        RepushCalibration(now, up, id, device);
      } else if r.storeEmpty {
        assert wire + Published(now, device.deviceType, id, RestoreCommands(device.calibration), Repush) == wire;
      }
    }

    method StoreIdentity(loaded: Device, r: CapabilitiesReport) returns (device: Device)
      ensures device == Identify(loaded, r)
    {
      var hwRev, ota, diag := loaded.hwRev, loaded.otaCapable, loaded.diagCapable;
      var fw, interval := loaded.fwVersion, loaded.publishInterval;
      if r.hwRev.Some? && r.hwRev.value <= 65535 { hwRev := r.hwRev; }
      if r.ota.Some? { ota := r.ota.value; }
      if r.diag.Some? { diag := r.diag.value; }
      if r.fw.Some? { fw := r.fw.value; }
      if r.interval.Some? && 0.0 < r.interval.value <= MAX_INTERVAL as real { interval := r.interval.value.Floor; }
      device := loaded.(hardwareCode := r.hw, hwRev := hwRev, otaCapable := ota, diagCapable := diag,
                        fwVersion := fw, publishInterval := interval, capabilitiesRequestedAt := None);
    }

    method HandleCommandsMessage(now: int, up: bool, id: Id)
      modifies this
      ensures View() == Step(old(View()), Event(now, up, id, CommandList))
    {
      if id !in devices { return; }
      devices := devices[id := devices[id].(lastSeen := Some(now))];
    }

    method HandleCalibrationMessage(now: int, up: bool, id: Id, data: Payload)
      modifies this
      ensures View() == Step(old(View()), Event(now, up, id, Calibration(data)))
    {
      if id !in devices { return; }
      var device := devices[id];
      var mirror: Mirror := [];
      for i := 0 to |data|
        invariant mirror == ReportedMirror(data[..i])
      {
        var (key, value) := data[i];
        assert data[..i + 1][..i] == data[..i];
        if SafeKey(key) && value.Some? {
          mirror := Put(mirror, key, Round4(value.value));
        }
      }
      assert data[..|data|] == data;
      device := device.(calibration := mirror);
      device := device.(lastSeen := Some(now));
      devices := devices[id := device];
    }

    method HandleAckMessage(now: int, up: bool, id: Id, a: AckReport)
      modifies this
      ensures View() == Step(old(View()), Event(now, up, id, Ack(a)))
    {
      if id !in devices { return; }
      var device := devices[id];
      assert devices == devices[id := device];
      if a.action == "" && a.hasTemp {
        var mirror := device.calibration;
        if a.temp.Some? { mirror := Put(mirror, "cal_" + "temp", Round2(a.temp.value)); }
        if a.humi.Some? { mirror := Put(mirror, "cal_" + "humi", Round2(a.humi.value)); }
        if a.press.Some? { mirror := Put(mirror, "cal_" + "press", Round2(a.press.value)); }
        devices := devices[id := device.(calibration := mirror)];
        return;
      }
      if a.action == "ota_update" && a.status == AckStart { return; }
      if a.action == "" || !(a.status == AckOk || a.status == AckError) { return; }
      var i := FindNewestPending(id, a.action);
      if i >= 0 {
        commands := commands[i := commands[i].Mark(if a.status == AckOk then Success else Failed, now)];
      }
    }

    /** Newest first, the first row still pending for the action. */
    method FindNewestPending(id: Id, action: string) returns (i: int)
      ensures i == NewestPending(commands, id, action)
    {
      i := |commands| - 1;
      assert commands[..i + 1] == commands;
      while i >= 0 && !IsPending(commands[i], id, action)
        invariant -1 <= i < |commands|
        invariant NewestPending(commands[..i + 1], id, action) == NewestPending(commands, id, action)
      {
        assert commands[..i + 1][..i] == commands[..i];
        i := i - 1;
      }
    }

    // ------------------------------------------------------------- web views

    method CreateCommandLog(now: int, id: Id, body: Body)
      modifies this`commands, this`nextPk
      ensures commands == old(commands) + [NewCommand(old(nextPk), id, body, now)] && nextPk == old(nextPk) + 1
    {
      commands := commands + [NewCommand(nextPk, id, body, now)];
      nextPk := nextPk + 1;
    }

    /** Publish a command and record it; a failed publish records nothing. */
    method PublishAndLog(now: int, up: bool, id: Id, device: Device, body: Body, cause: Cause)
      modifies this`commands, this`nextPk, this`wire
      ensures var x := SendLogged(old(Open(View(), id, device)), now, up, body, cause);
              commands == x.commands && nextPk == x.nextPk && wire == x.wire
    {
      MqttPublish(now, up, device, id, body, cause);
      assert Published(now, device.deviceType, id, [body], cause) == [Publish(now, device.deviceType, id, body, cause)];
      if up { CreateCommandLog(now, id, body); }
    }

    method DeviceCommandView(now: int, up: bool, id: Id, body: Body, upAgain: bool)
      modifies this
      ensures View() == Step(old(View()), Event(now, up, id, UserCommand(body, upAgain)))
    {
      if id !in devices { return; }
      var device := devices[id];
      assert devices == devices[id := device];
      PublishAndLog(now, up, id, device, body, Direct);
      if !up { return; }
      var saved := RequestCapabilities(now, upAgain, id, device, false, Request);
    }

    method RequestCapabilitiesView(now: int, up: bool, id: Id)
      modifies this
      ensures View() == Step(old(View()), Event(now, up, id, RequestCaps))
    {
      if id !in devices { return; }
      var device := devices[id];
      assert devices == devices[id := device];
      device := RequestCapabilities(now, up, id, device, true, Request);
      MqttPublish(now, up, device, id, REQUEST_COMMANDS, Request);
      assert Published(now, device.deviceType, id, [REQUEST_COMMANDS], Request) ==
             [Publish(now, device.deviceType, id, REQUEST_COMMANDS, Request)];
    }

    method ConfirmUplinkView(now: int, up: bool, id: Id)
      modifies this
      ensures View() == Step(old(View()), Event(now, up, id, ConfirmUplink))
    {
      if id !in devices { return; }
      assert devices == devices[id := devices[id]];
      if !devices[id].diagCapable { return; }
      PublishAndLog(now, up, id, devices[id], CONFIRM_UPLINK, Direct);
    }

    method OffsetView(now: int, up: bool, id: Id, metric: string, value: real)
      modifies this
      ensures View() == Step(old(View()), Event(now, up, id, Offset(metric, value)))
    {
      if id !in devices { return; }
      var device := devices[id];
      assert devices == devices[id := device];
      if metric !in ["temp", "humi", "press"] { return; }
      var rounded := Round2(value);
      PublishAndLog(now, up, id, device, SetOffset(metric, rounded), Direct);
      if !up { return; }
      devices := devices[id := device.(calibration := Put(device.calibration, "cal_" + metric, rounded))];
    }

    method CalibrationView(now: int, up: bool, id: Id, key: string, value: real)
      modifies this
      ensures View() == Step(old(View()), Event(now, up, id, CalibrationValue(key, value)))
    {
      if id !in devices { return; }
      var device := devices[id];
      assert devices == devices[id := device];
      if !(|key| > 0 && AllSafe(key)) || |key| > 64 { return; }
      var rounded := Round4(value);
      PublishAndLog(now, up, id, device, SetCalibration(key, rounded), Direct);
      if !up { return; }
      devices := devices[id := device.(calibration := Put(device.calibration, key, rounded))];
    }

    method OtaPushView(now: int, up: bool, id: Id, f: Firmware)
      modifies this
      ensures View() == Step(old(View()), Event(now, up, id, OtaPush(f)))
    {
      if id !in devices { return; }
      var device := devices[id];
      assert devices == devices[id := device];
      if !device.otaCapable { return; }
      if device.hardwareCode != Some(f.hwCode) || device.hwRev != Some(f.hwRev) { return; }
      PublishAndLog(now, up, id, device, OtaUpdate(f.version, f.hwCode, f.hwRev), Push);
    }

    method EditView(now: int, up: bool, id: Id, name: string, location: string, locationType: string,
                    interval: Option<int>)
      modifies this
      ensures View() == Step(old(View()), Event(now, up, id, Edit(name, location, locationType, interval)))
    {
      hide OnSensors, OnCapabilities, OnAck, Rename, Merge, Delete, DropCommands, Truncate;
      if id !in devices { return; }
      var device := devices[id];
      device := device.(displayName := name);
      device := device.(location := location);
      device := device.(locationType := locationType);
      if interval.Some? {
        var atMost := if interval.value <= MAX_INTERVAL then interval.value else MAX_INTERVAL;
        device := device.(publishInterval := Max(0, atMost));
      }
      devices := devices[id := device];
    }

    method ApproveView(now: int, up: bool, id: Id, approved: bool)
      modifies this
      ensures View() == Step(old(View()), Event(now, up, id, Approve(approved)))
    {
      if id !in devices { return; }
      devices := devices[id := devices[id].(isApproved := approved)];
    }

    method ClearCommandsView(now: int, up: bool, id: Id, pk: Option<nat>)
      modifies this
      ensures View() == Step(old(View()), Event(now, up, id, ClearCommands(pk)))
    {
      if id !in devices { return; }
      DropCommandRows(id, pk);
    }

    /** Delete the command rows of a device, or the one with the given key. */
    method DropCommandRows(id: Id, pk: Option<nat>)
      modifies this`commands
      ensures commands == CommandsWithout(old(commands), id, pk)
    {
      var kept: seq<Command> := [];
      for i := 0 to |commands|
        invariant commands == old(commands) && kept == CommandsWithout(commands[..i], id, pk)
      {
        var cmd := commands[i];
        assert commands[..i + 1][..i] == commands[..i];
        if cmd.device != id || (pk.Some? && cmd.pk != pk.value) { kept := kept + [cmd]; }
      }
      assert commands[..|commands|] == commands;
      commands := kept;
    }

    method DropLogRows(id: Id)
      modifies this`statusLog
      ensures statusLog == LogsWithout(old(statusLog), id)
    {
      var kept: seq<StatusEntry> := [];
      for i := 0 to |statusLog|
        invariant statusLog == old(statusLog) && kept == LogsWithout(statusLog[..i], id)
      {
        assert statusLog[..i + 1][..i] == statusLog[..i];
        if statusLog[i].device != id { kept := kept + [statusLog[i]]; }
      }
      assert statusLog[..|statusLog|] == statusLog;
      statusLog := kept;
    }

    method DropReadingRows(id: Id)
      modifies this`readings
      ensures readings == ReadingsWithout(old(readings), id)
    {
      var kept: seq<Reading> := [];
      for i := 0 to |readings|
        invariant readings == old(readings) && kept == ReadingsWithout(readings[..i], id)
      {
        assert readings[..i + 1][..i] == readings[..i];
        if readings[i].device != id { kept := kept + [readings[i]]; }
      }
      assert readings[..|readings|] == readings;
      readings := kept;
    }

    /** Delete the aberrant readings of a device in a time range. */
    method EraseReadingsView(now: int, up: bool, id: Id, metric: Option<string>, start: int, end: int)
      modifies this
      ensures View() == Step(old(View()), Event(now, up, id, EraseReadings(metric, start, end)))
    {
      if id !in devices || start >= end { return; }
      var kept: seq<Reading> := [];
      for i := 0 to |readings|
        invariant View() == old(View()) && kept == ReadingsOutside(readings[..i], id, metric, start, end)
      {
        var r := readings[i];
        assert readings[..i + 1][..i] == readings[..i];
        if r.device != id || (metric.Some? && r.metric != metric.value) || r.time < start || end < r.time {
          kept := kept + [r];
        }
      }
      assert readings[..|readings|] == readings;
      readings := kept;
    }

    method DeleteView(now: int, up: bool, id: Id)
      modifies this
      ensures View() == Step(old(View()), Event(now, up, id, DeleteDevice))
    {
      if id !in devices { return; }
      DropReadingRows(id);
      DropLogRows(id);
      DropCommandRows(id, None);
      devices := devices - {id};
    }

    /** The rename view: a free identifier renames, a taken one merges into its owner (once confirmed). */
    method RenameView(now: int, up: bool, id: Id, newId: Id, confirmed: bool)
      modifies this
      ensures View() == if newId !in old(devices) then Step(old(View()), Event(now, up, id, RenameTo(newId)))
                        else if confirmed then Step(old(View()), Event(now, up, id, MergeInto(newId)))
                        else old(View())
    {
      if id !in devices { return; }
      if |newId| == 0 || !AllSafe(newId) || newId == id { return; }
      if newId !in devices {
        RenameDevice(id, newId);
      } else if confirmed {
        MergeDevices(id, newId);
      }
    }

    method RenameDevice(from: Id, to: Id)
      requires from in devices && to !in devices
      modifies this
      ensures View() == Rename(old(View()), from, to)
    {
      var device := devices[from];
      readings := MoveReadings(readings, from, to);
      devices := devices[to := device.(locationType := "", diagCapable := false)];
      statusLog := MoveLogs(statusLog, from, to);
      commands := MoveCommands(commands, from, to);
      devices := devices - {from};
      assert devices == (old(devices) - {from})[to := RenamedDevice(device)];
    }

    method MergeDevices(source: Id, target: Id)
      requires source in devices && target in devices && source != target
      modifies this
      ensures View() == Merge(old(View()), source, target)
    {
      var sourceMetrics := Metrics(readings, source);
      var targetMetrics := Metrics(readings, target);
      forall m | m in sourceMetrics * targetMetrics ensures IsShared(readings, source, target, m) {
        LatestKnown(readings, source, m);
        LatestKnown(readings, target, m);
      }
      ResolveSharedMetrics(source, target, sourceMetrics * targetMetrics);
      PartialAll(old(readings), old(readings), source, target, sourceMetrics * targetMetrics);
      readings := MoveReadings(readings, source, target);
      statusLog := MoveLogs(statusLog, source, target);
      commands := MoveCommands(commands, source, target);
      var lastSeen := devices[target].lastSeen;
      if devices[source].lastSeen.Some? && (lastSeen.None? || devices[source].lastSeen.value > lastSeen.value) {
        lastSeen := devices[source].lastSeen;
      }
      devices := devices[target := devices[target].(lastSeen := lastSeen)];
      devices := devices - {source};
    }

    /** The loop of the merge: one metric at a time, in whatever order the set yields them. */
    method ResolveSharedMetrics(source: Id, target: Id, metrics: set<string>)
      requires source != target
      requires forall m :: m in metrics ==> IsShared(readings, source, target, m)
      modifies this`readings
      ensures readings == Partial(old(readings), old(readings), source, target, metrics)
    {
      ghost var rows := readings;
      ghost var done: set<string> := {};
      var shared := metrics;
      PartialNone(rows, rows, source, target);
      while shared != {}
        invariant shared !! done && shared + done == metrics
        invariant readings == Partial(rows, rows, source, target, done)
        decreases shared
      {
        var metric :| metric in shared;
        ResolveMetric(source, target, metric, rows, done);
        done := done + {metric};
        shared := shared - {metric};
      }
      assert done == metrics;
    }

    /** Keep the series whose latest reading is newer; the target keeps its own on a tie. */
    method ResolveMetric(source: Id, target: Id, metric: string, ghost rows: seq<Reading>, ghost done: set<string>)
      requires source != target && metric !in done
      requires readings == Partial(rows, rows, source, target, done)
      requires IsShared(rows, source, target, metric)
      modifies this`readings
      ensures readings == Partial(rows, rows, source, target, done + {metric})
    {
      var sourceLatest := Latest(readings, source, metric);
      var targetLatest := Latest(readings, target, metric);
      PartialLatest(rows, rows, source, target, done, source, metric);
      PartialLatest(rows, rows, source, target, done, target, metric);
      if sourceLatest.Some? && targetLatest.Some? && sourceLatest.value > targetLatest.value {
        SourceStep(rows, rows, source, target, done, metric);
        readings := DeleteSeries(readings, target, metric);
        readings := MoveSeries(readings, source, metric, target);
      } else {
        TargetStep(rows, rows, source, target, done, metric);
        readings := DeleteSeries(readings, source, metric);
      }
    }

    // ------------------------------------------------------------- the server

    /** A parsed message goes to its handler, a request to its view. */
    method Perform(e: Event)
      modifies this
      ensures View() == Step(old(View()), e)
    {
      hide Handle, Rename, Merge, Delete, DropCommands, Erase;
      match e.action
      case Sensors(deviceType, data) => HandleSensorMessage(e.now, e.up, deviceType, e.id, data);
      case StatusReport(level, message) => HandleStatusMessage(e.now, e.up, e.id, level, message);
      case Capabilities(report) => HandleCapabilitiesMessage(e.now, e.up, e.id, report);
      case CommandList => HandleCommandsMessage(e.now, e.up, e.id);
      case Calibration(data) => HandleCalibrationMessage(e.now, e.up, e.id, data);
      case Diag(level, message) => HandleDiagMessage(e.now, e.up, e.id, level, message);
      case Ack(ack) => HandleAckMessage(e.now, e.up, e.id, ack);
      case _ => Respond(e);
    }

    method Respond(e: Event)
      requires !(e.action.Sensors? || e.action.StatusReport? || e.action.Capabilities? || e.action.CommandList? ||
                 e.action.Calibration? || e.action.Diag? || e.action.Ack?)
      modifies this
      ensures View() == Step(old(View()), e)
    {
      hide Handle, Rename, Merge, Delete, DropCommands, Erase;
      match e.action
      case UserCommand(body, upAgain) => DeviceCommandView(e.now, e.up, e.id, body, upAgain);
      case RequestCaps => RequestCapabilitiesView(e.now, e.up, e.id);
      case ConfirmUplink => ConfirmUplinkView(e.now, e.up, e.id);
      case Offset(metric, value) => OffsetView(e.now, e.up, e.id, metric, value);
      case CalibrationValue(key, value) => CalibrationView(e.now, e.up, e.id, key, value);
      case OtaPush(firmware) => OtaPushView(e.now, e.up, e.id, firmware);
      case Edit(name, location, locationType, interval) =>
        EditView(e.now, e.up, e.id, name, location, locationType, interval);
      case Approve(approved) => ApproveView(e.now, e.up, e.id, approved);
      case ClearCommands(pk) => ClearCommandsView(e.now, e.up, e.id, pk);
      case EraseReadings(only, start, end) => EraseReadingsView(e.now, e.up, e.id, only, start, end);
      case DeleteDevice => DeleteView(e.now, e.up, e.id);
      case RenameTo(newId) => RenameView(e.now, e.up, e.id, newId, false);
      case MergeInto(target) => if target in devices { RenameView(e.now, e.up, e.id, target, true); }
    }
  }

  /** The server started on empty tables and given the events one after the other: its tables are those of the run, so
      every theorem about `Run` is one about the handlers and views above. */
  method Serve(es: seq<Event>) returns (database: Database)
    ensures fresh(database) && database.View() == Run(es)
  {
    hide Step;
    database := new Database();
    for i := 0 to |es|
      invariant database.View() == Run(es[..i])
    {
      assert es[..i + 1][..i] == es[..i];
      database.Perform(es[i]);
    }
    assert es[..|es|] == es;
  }
}
