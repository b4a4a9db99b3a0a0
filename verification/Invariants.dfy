/** What every reachable state satisfies, and how far a handler may change the tables. */
module Invariants {
  import opened Domain
  import opened Protocol

  // -------------------------------------------------------------- definitions

  /** The alert of a device's newest status-log entry, among those not after `t` when a time is given. */
  function AlertBy(log: seq<StatusEntry>, id: Id, t: Option<int>): Alert {
    if log == [] then NO_ALERT
    else
      var last := log[|log| - 1];
      if last.device == id && (t.Some? ==> last.time <= t.value) then last.alert
      else AlertBy(log[..|log| - 1], id, t)
  }

  predicate NotAfter(t: Option<int>, now: int) { t.Some? ==> t.value <= now }

  /** Keys are distinct safe identifiers and values are already rounded to four decimals. */
  ghost predicate MirrorOk(m: Mirror) {
    && (forall i :: 0 <= i < |m| ==> SafeKey(m[i].0) && Round4(m[i].1) == m[i].1)
    && (forall i, j :: 0 <= i < j < |m| ==> m[i].0 != m[j].0)
  }

  ghost predicate DeviceOk(d: Device, now: int) {
    && (d.alert.level == Ok <==> d.alertUpdatedAt.None?)
    && (d.alert.level == Ok ==> d.alert.message == "")
    && NotAfter(d.lastSeen, now)
    && NotAfter(d.alertUpdatedAt, now)
    && NotAfter(d.diagRequestedAt, now)
    && NotAfter(d.capabilitiesRequestedAt, now)
    && MirrorOk(d.calibration)
  }

  /** `acked`, a terminal status and `ackedAt` always agree. */
  predicate CommandOk(c: Command) {
    (c.acked <==> c.status != Pending) && (c.acked <==> c.ackedAt.Some?)
  }

  ghost predicate CommandsOk(rows: seq<Command>, nextPk: nat, now: int) {
    && (forall i :: 0 <= i < |rows| ==> CommandOk(rows[i]) && rows[i].sentAt <= now && rows[i].pk < nextPk)
    && (forall i, j :: 0 <= i < j < |rows| ==> rows[i].sentAt <= rows[j].sentAt && rows[i].pk < rows[j].pk)
  }

  ghost predicate LogOk(log: seq<StatusEntry>, now: int) {
    && (forall i :: 0 <= i < |log| ==> log[i].time <= now)
    && (forall i, j :: 0 <= i < j < |log| ==> log[i].time <= log[j].time)
  }

  ghost predicate ReadingsOk(rows: seq<Reading>, now: int) {
    && (forall i :: 0 <= i < |rows| ==> rows[i].time <= now && rows[i].metric !in METRIC_ALIASES)
    && (forall i, j :: 0 <= i < j < |rows| ==> rows[i].time <= rows[j].time)
  }

  /** A request_capabilities command of the device is pending. */
  ghost predicate WaitingIn(rows: seq<Command>, id: Id) {
    exists i :: 0 <= i < |rows| && IsPending(rows[i], id, "request_capabilities")
  }

  ghost predicate SessionOk(x: Session, now: int) {
    && DeviceOk(x.device, now)
    && CommandsOk(x.commands, x.nextPk, now)
    && LogOk(x.statusLog, now)
    && ReadingsOk(x.readings, now)
  }

  // ------------------------------------- agreement of a row with its history

  /** The row holds the alert its newest log entry tells. */
  predicate AlertTold(x: Session) { AlertBy(x.statusLog, x.id, None) == x.device.alert }

  /** The row caches the level of its last stored battery reading. */
  predicate BatteryStored(x: Session) { LatestBattery(x.readings, x.id) == x.device.batteryPercent }

  /** None of the rows `y` added carries a battery level. */
  ghost predicate NoLevel(x: Session, y: Session) {
    forall i :: |x.readings| <= i < |y.readings| ==> y.readings[i].metric != "bat_percent"
  }

  /** Between `x` and `y` every change of the alert was logged and every battery level was cached. */
  ghost predicate Recorded(x: Session, y: Session) {
    && (y.statusLog == x.statusLog ==> y.device.alert == x.device.alert)
    && (y.statusLog != x.statusLog ==> AlertTold(y))
    && (NoLevel(x, y) ==> y.device.batteryPercent == x.device.batteryPercent)
    && (!NoLevel(x, y) ==> BatteryStored(y))
  }

  /** A row of the command table may only move from pending to a terminal status, at `now`. */
  predicate Advances(c: Command, d: Command, id: Id, now: int) {
    || d == c
    || (c.device == id && c.status == Pending && d == c.Mark(d.status, now) && d.status != Pending)
  }

  /** How a handler working on device `x.id` at `now` may change the tables. */
  ghost predicate Grows(x: Session, y: Session, now: int) {
    && y.id == x.id
    && y.nextPk >= x.nextPk
    && |x.commands| <= |y.commands|
    && (forall i :: 0 <= i < |x.commands| ==> Advances(x.commands[i], y.commands[i], x.id, now))
    && (forall i :: |x.commands| <= i < |y.commands| ==>
          y.commands[i].device == x.id && y.commands[i].pk >= x.nextPk && y.commands[i].sentAt == now)
    && x.statusLog <= y.statusLog
    && (forall i :: |x.statusLog| <= i < |y.statusLog| ==> y.statusLog[i].device == x.id && y.statusLog[i].time == now)
    && x.readings <= y.readings
    && (forall i :: |x.readings| <= i < |y.readings| ==> y.readings[i].device == x.id && y.readings[i].time == now)
    && x.wire <= y.wire
    && (forall i :: |x.wire| <= i < |y.wire| ==> y.wire[i].device == x.id && y.wire[i].at == now)
    && Recorded(x, y)
  }

  lemma {:induction false} SameLevel(rows: seq<Reading>, more: seq<Reading>, id: Id)
    requires forall i :: 0 <= i < |more| ==> more[i].metric != "bat_percent"
    ensures LatestBattery(rows + more, id) == LatestBattery(rows, id)
  {
    if more == [] {
      assert rows + more == rows;
    } else {
      assert (rows + more)[..|rows + more| - 1] == rows + more[..|more| - 1];
      SameLevel(rows, more[..|more| - 1], id);
    }
  }

  lemma GrowsTrans(x: Session, y: Session, z: Session, now: int)
    requires Grows(x, y, now) && Grows(y, z, now)
    ensures Grows(x, z, now)
  {
    hide Recorded;
    RecordedTrans(x, y, z);
  }

  lemma {:induction false} RecordedTrans(x: Session, y: Session, z: Session)
    requires x.id == y.id == z.id && x.statusLog <= y.statusLog <= z.statusLog && x.readings <= y.readings <= z.readings
    requires Recorded(x, y) && Recorded(y, z)
    ensures Recorded(x, z)
  {
    hide AlertBy, LatestBattery;
    if NoLevel(y, z) {
      assert z.readings == y.readings + z.readings[|y.readings|..];
      SameLevel(y.readings, z.readings[|y.readings|..], x.id);
    }
    if NoLevel(x, z) {
      assert forall i :: |x.readings| <= i < |y.readings| ==> z.readings[i] == y.readings[i];
    }
  }

  // ---------------------------------------------- primitives keep SessionOk

  lemma ClearKeeps(x: Session, now: int)
    requires SessionOk(x, now)
    ensures SessionOk(Clear(x, now), now) && Grows(x, Clear(x, now), now)
  {
  }

  lemma RaiseKeeps(x: Session, now: int, alert: Alert)
    requires SessionOk(x, now) && alert.level != Ok
    ensures SessionOk(Raise(x, now, alert), now) && Grows(x, Raise(x, now, alert), now)
  {
  }

  lemma SettledRows(rows: seq<Command>, q: Selection, status: Status, nextPk: nat, now: int)
    requires CommandsOk(rows, nextPk, now) && status != Pending
    ensures var settled := Settle(rows, q, status, now);
            && CommandsOk(settled, nextPk, now)
            && (forall i :: 0 <= i < |rows| ==> Advances(rows[i], settled[i], q.device, now))
  {
  }

  lemma SettleKeeps(x: Session, q: Selection, status: Status, now: int)
    requires SessionOk(x, now) && q.device == x.id && status != Pending
    ensures SessionOk(SettleIn(x, q, status, now), now)
    ensures Grows(x, SettleIn(x, q, status, now), now)
  {
    hide CommandsOk, LogOk, ReadingsOk, DeviceOk, AlertBy, LatestBattery, Advances;
    SettledRows(x.commands, q, status, x.nextPk, now);
  }

  lemma SendKeeps(x: Session, now: int, up: bool, bodies: seq<Body>, cause: Cause)
    ensures var y := Send(x, now, up, bodies, cause);
            y == x.(wire := y.wire) && Grows(x, y, now)
  {
  }

  lemma LogKeeps(x: Session, body: Body, now: int)
    requires SessionOk(x, now)
    ensures SessionOk(Log(x, body, now), now) && Grows(x, Log(x, body, now), now)
  {
  }

  lemma SendLoggedKeeps(x: Session, now: int, up: bool, body: Body, cause: Cause)
    requires SessionOk(x, now)
    ensures SessionOk(SendLogged(x, now, up, body, cause), now) && Grows(x, SendLogged(x, now, up, body, cause), now)
    ensures SendLogged(x, now, up, body, cause).device == x.device
  {
    var y := Send(x, now, up, [body], cause);
    SendKeeps(x, now, up, [body], cause);
    LogKeeps(y, body, now);
    if up { GrowsTrans(x, y, Log(y, body, now), now); }
  }

  lemma RequestKeeps(x: Session, now: int, up: bool, logged: bool, cause: Cause)
    requires SessionOk(x, now)
    ensures var y := RequestCapabilities(x, now, up, logged, cause);
            && SessionOk(y, now) && Grows(x, y, now)
            && y.device == (if up then x.device.(capabilitiesRequestedAt := Some(now)) else x.device)
  {
    hide AlertBy, LatestBattery, MirrorOk, LogOk, ReadingsOk;
    var y := Send(x, now, up, [REQUEST_CAPABILITIES], cause);
    var z := y.(device := y.device.(capabilitiesRequestedAt := Some(now)));
    LogKeeps(z, REQUEST_CAPABILITIES, now);
    if up && logged { GrowsTrans(x, z, Log(z, REQUEST_CAPABILITIES, now), now); }
  }

  // ------------------------------------------------------------ sensor phases

  lemma ReconcileKeeps(x: Session, now: int)
    requires SessionOk(x, now)
    ensures SessionOk(Reconcile(x, now), now) && Grows(x, Reconcile(x, now), now)
  {
    ClearKeeps(x, now);
  }

  lemma ReceiveKeeps(x: Session, created: bool, now: int, up: bool)
    requires SessionOk(x, now)
    ensures SessionOk(Receive(x, created, now, up), now) && Grows(x, Receive(x, created, now, up), now)
  {
    hide SessionOk, Grows, Reconcile, WakeUpResync, CheckCapabilities, Settle;
    var a := Heard(x, now);
    var b := Reconcile(a, now);
    var c := ExpireOta(b, now);
    HeardKeeps(x, now);
    ReconcileKeeps(a, now);
    SettleKeeps(b, OtaOlderThan(b.id, now - b.device.OtaTimeout()), TimedOut, now);
    WakeUpKeeps(c, now, up);
    CheckKeeps(c, now);
    GrowsTrans(x, a, b, now);
    GrowsTrans(x, b, c, now);
    GrowsTrans(x, c, Receive(x, created, now, up), now);
  }

  lemma WakeUpKeeps(x: Session, now: int, up: bool)
    requires SessionOk(x, now)
    ensures SessionOk(WakeUpResync(x, now, up), now) && Grows(x, WakeUpResync(x, now, up), now)
  {
    hide SessionOk, Grows, FlushBodies, Send, RequestCapabilities;
    var y := Send(x, now, up, FlushBodies(x.commands, x.id), Flush);
    var z := RequestCapabilities(y, now, up, false, WakeUp);
    SendSound(x, now, up, FlushBodies(x.commands, x.id), Flush);
    RequestKeeps(y, now, up, false, WakeUp);
    SendSound(z, now, up, [REQUEST_COMMANDS] + if z.device.diagCapable then [GET_STATUS] else [], WakeUp);
    GrowsTrans(x, y, z, now);
    GrowsTrans(x, z, WakeUpResync(x, now, up), now);
  }

  lemma CheckKeeps(x: Session, now: int)
    requires SessionOk(x, now)
    ensures SessionOk(CheckCapabilities(x, now), now) && Grows(x, CheckCapabilities(x, now), now)
  {
    if CapabilitiesOverdue(x.device, now) {
      var y := Raise(x, now, TIMEOUT_ALERT);
      RaiseKeeps(x, now, TIMEOUT_ALERT);
      var z := y.(device := y.device.(capabilitiesRequestedAt := None));
      assert Grows(x, z, now);
      SettleKeeps(z, ByAction(x.id, "request_capabilities"), TimedOut, now);
      GrowsTrans(x, z, CheckCapabilities(x, now), now);
    }
  }

  lemma {:induction false} NewReadingsShape(data: Payload, id: Id, now: int)
    ensures forall i :: 0 <= i < |NewReadings(data, id, now)| ==>
              var r := NewReadings(data, id, now)[i];
              r.time == now && r.device == id && r.metric !in METRIC_ALIASES
  {
    if data != [] {
      NewReadingsShape(data[..|data| - 1], id, now);
    }
  }

  /** Rows appended behind a table decide the battery level when they carry one. */
  lemma {:induction false} BatteryAppend(rows: seq<Reading>, more: seq<Reading>, id: Id)
    ensures LatestBattery(rows + more, id) ==
            if LatestBattery(more, id).Some? then LatestBattery(more, id) else LatestBattery(rows, id)
  {
    if more == [] {
      assert rows + more == rows;
    } else {
      assert (rows + more)[..|rows + more| - 1] == rows + more[..|more| - 1];
      BatteryAppend(rows, more[..|more| - 1], id);
    }
  }

  lemma {:induction false} LevelAmong(rows: seq<Reading>, id: Id)
    requires forall i :: 0 <= i < |rows| ==> rows[i].device == id
    ensures LatestBattery(rows, id).None? <==> forall i :: 0 <= i < |rows| ==> rows[i].metric != "bat_percent"
  {
    if rows != [] { LevelAmong(rows[..|rows| - 1], id); }
  }

  lemma {:induction false} StoreKeeps(x: Session, now: int, data: Payload)
    requires SessionOk(x, now)
    ensures var stored := NewReadings(data, x.id, now);
            var level := LatestBattery(stored, x.id);
            var y := x.(readings := x.readings + stored);
            var z := if level.Some? then y.(device := x.device.(batteryPercent := level)) else y;
            SessionOk(z, now) && Grows(x, z, now)
  {
    hide AlertBy, LatestBattery, CommandsOk, LogOk, ReadingsOk, MirrorOk, NewReadings, Recorded;
    var stored := NewReadings(data, x.id, now);
    NewReadingsShape(data, x.id, now);
    StoredOk(x.readings, stored, now);
    StoreRecorded(x, stored);
  }

  lemma {:induction false} StoreRecorded(x: Session, stored: seq<Reading>)
    requires forall i :: 0 <= i < |stored| ==> stored[i].device == x.id
    ensures var level := LatestBattery(stored, x.id);
            var y := x.(readings := x.readings + stored);
            Recorded(x, if level.Some? then y.(device := x.device.(batteryPercent := level)) else y)
  {
    hide AlertBy, LatestBattery;
    LevelAmong(stored, x.id);
    BatteryAppend(x.readings, stored, x.id);
    var rows := x.readings + stored;
    if i :| 0 <= i < |stored| && stored[i].metric == "bat_percent" { assert rows[|x.readings| + i] == stored[i]; }
  }

  lemma StoredOk(rows: seq<Reading>, stored: seq<Reading>, now: int)
    requires ReadingsOk(rows, now)
    requires forall i :: 0 <= i < |stored| ==> stored[i].time == now && stored[i].metric !in METRIC_ALIASES
    ensures ReadingsOk(rows + stored, now)
  {
  }

  lemma PollKeeps(x: Session, now: int, up: bool)
    requires SessionOk(x, now)
    ensures SessionOk(PollDiag(x, now, up), now) && Grows(x, PollDiag(x, now, up), now)
  {
    hide AlertBy, LatestBattery, MirrorOk, LogOk, ReadingsOk, CommandsOk, DiagDue;
  }

  lemma IngestKeeps(x: Session, now: int, up: bool, data: Payload)
    requires SessionOk(x, now)
    ensures SessionOk(Ingest(x, now, up, data), now) && Grows(x, Ingest(x, now, up, data), now)
  {
    var y := PollDiag(x, now, up);
    PollKeeps(x, now, up);
    var level := LatestBattery(NewReadings(data, x.id, now), x.id);
    var z := y.(readings := y.readings + NewReadings(data, x.id, now));
    var w := if level.Some? then z.(device := y.device.(batteryPercent := level)) else z;
    assert SessionOk(w, now) && Grows(y, w, now) by { StoreKeeps(y, now, data); }
    assert Grows(x, w, now) by { GrowsTrans(x, y, w, now); }
    ClearKeeps(w, now);
    GrowsTrans(x, w, Clear(w, now), now);
    assert Ingest(x, now, up, data) == w || Ingest(x, now, up, data) == Clear(w, now);
  }

  // ------------------------------------------------------------ other handlers

  lemma OnSensorsKeeps(x: Session, created: bool, now: int, up: bool, data: Payload)
    requires SessionOk(x, now)
    ensures SessionOk(OnSensors(x, created, now, up, data), now)
    ensures Grows(x, OnSensors(x, created, now, up, data), now)
  {
    var y := Receive(x, created, now, up);
    ReceiveKeeps(x, created, now, up);
    IngestKeeps(y, now, up, data);
    GrowsTrans(x, y, Ingest(y, now, up, data), now);
  }

  lemma HeardKeeps(x: Session, now: int)
    requires SessionOk(x, now)
    ensures SessionOk(Heard(x, now), now) && Grows(x, Heard(x, now), now) && Grows(x, x, now)
  {
  }

  lemma OnStatusKeeps(x: Session, now: int, level: ReportedLevel, message: Option<string>)
    requires SessionOk(x, now)
    ensures SessionOk(OnStatus(x, now, level, message), now) && Grows(x, OnStatus(x, now, level, message), now)
  {
    hide SessionOk, Grows, Truncate, Clear, Raise;
    var y := Heard(x, now);
    HeardKeeps(x, now);
    ClearKeeps(y, now);
    GrowsTrans(x, y, Clear(y, now), now);
    var text := if message.Some? then Truncate(message.value) else x.device.alert.message;
    var alert := Alert(if level == LError then Error else Warning, text);
    RaiseKeeps(y, now, alert);
    GrowsTrans(x, y, Raise(y, now, alert), now);
  }

  lemma OnDiagKeeps(x: Session, now: int, level: ReportedLevel, message: Option<string>)
    requires SessionOk(x, now)
    ensures SessionOk(OnDiag(x, now, level, message), now) && Grows(x, OnDiag(x, now, level, message), now)
  {
    hide SessionOk, Grows, DiagAlert, Clear, Raise;
    var y := Heard(x, now);
    var alert := DiagAlert(level, message);
    HeardKeeps(x, now);
    ClearKeeps(y, now);
    GrowsTrans(x, y, Clear(y, now), now);
    if alert.level != Ok {
      RaiseKeeps(y, now, alert);
      GrowsTrans(x, y, Raise(y, now, alert), now);
    }
    if alert == y.device.alert {
      RefreshKeeps(y, now);
      GrowsTrans(x, y, Refreshed(y, now), now);
    }
  }

  /** A report that repeats the latched alert only moves its clock. */
  function Refreshed(x: Session, now: int): Session {
    x.(device := x.device.(alertUpdatedAt := if x.device.alert.level == Ok then None else Some(now)))
  }

  lemma RefreshKeeps(x: Session, now: int)
    requires SessionOk(x, now)
    ensures SessionOk(Refreshed(x, now), now) && Grows(x, Refreshed(x, now), now)
  {
  }

  lemma RoundTwice(x: real)
    ensures Round4(Round4(x)) == Round4(x) && Round4(Round2(x)) == Round2(x)
  {
    RoundInteger(RoundHalfEven(x * 10000.0));
    RoundInteger(100 * RoundHalfEven(x * 100.0));
    assert Round2(x) * 10000.0 == (100 * RoundHalfEven(x * 100.0)) as real;
    assert Round4(x) * 10000.0 == RoundHalfEven(x * 10000.0) as real;
  }

  lemma RoundInteger(n: int)
    ensures RoundHalfEven(n as real) == n
  {
  }

  lemma {:induction false} PutKeeps(m: Mirror, key: string, value: real)
    requires MirrorOk(m) && SafeKey(key) && Round4(value) == value
    ensures MirrorOk(Put(m, key, value))
    ensures forall i :: 0 <= i < |Put(m, key, value)| ==>
              Put(m, key, value)[i].0 == key || exists j :: 0 <= j < |m| && m[j].0 == Put(m, key, value)[i].0
  {
    if m != [] {
      if m[0].0 == key {
        var p := [(key, value)] + m[1..];
        assert forall i :: 0 < i < |p| ==> p[i] == m[i];
      } else {
        var rest := m[1..];
        assert MirrorOk(rest) by { assert forall i :: 0 <= i < |rest| ==> rest[i] == m[i + 1]; }
        PutKeeps(rest, key, value);
        var q := Put(rest, key, value);
        var p := [m[0]] + q;
        forall i | 0 < i < |p|
          ensures p[i].0 != m[0].0 && (p[i].0 == key || exists j :: 0 <= j < |m| && m[j].0 == p[i].0)
        {
          assert p[i] == q[i - 1];
          if p[i].0 != key {
            var j :| 0 <= j < |rest| && rest[j].0 == q[i - 1].0;
            assert m[j + 1] == rest[j];
          }
        }
        assert p[0] == m[0];
        assert forall i, j :: 0 <= i < j < |p| ==> p[i].0 != p[j].0 by {
          assert forall i :: 0 < i < |p| ==> p[i] == q[i - 1];
        }
      }
    }
  }

  lemma OffsetKeySafe(metric: string)
    requires metric in ["temp", "humi", "press"]
    ensures SafeKey("cal_" + metric)
  {
  }

  lemma OffsetKeeps(m: Mirror, metric: string, offset: Option<real>)
    requires MirrorOk(m) && metric in ["temp", "humi", "press"]
    ensures MirrorOk(PutOffset(m, metric, offset))
  {
    if offset.Some? {
      OffsetKeySafe(metric);
      RoundTwice(offset.value);
      PutKeeps(m, "cal_" + metric, Round2(offset.value));
    }
  }

  lemma {:induction false} ReportedMirrorOk(data: Payload)
    ensures MirrorOk(ReportedMirror(data))
  {
    if data != [] {
      var (key, value) := data[|data| - 1];
      ReportedMirrorOk(data[..|data| - 1]);
      if SafeKey(key) && value.Some? {
        RoundTwice(value.value);
        PutKeeps(ReportedMirror(data[..|data| - 1]), key, Round4(value.value));
      }
    }
  }

  lemma IdentifyKeeps(x: Session, now: int, r: CapabilitiesReport)
    requires SessionOk(x, now)
    ensures var y := x.(device := Identify(x.device, r));
            SessionOk(y, now) && Grows(x, y, now)
  {
  }

  lemma OnCapabilitiesKeeps(x: Session, now: int, up: bool, r: CapabilitiesReport)
    requires SessionOk(x, now)
    ensures SessionOk(OnCapabilities(x, now, up, r), now) && Grows(x, OnCapabilities(x, now, up, r), now)
  {
    hide SessionOk, Grows, Identify, Clear, Settle, RestoreCommands, IsPending;
    var a := x.(device := Identify(x.device, r));
    IdentifyKeeps(x, now, r);
    ClearKeeps(a, now);
    GrowsTrans(x, a, Clear(a, now), now);
    var y := if a.device.alert == TIMEOUT_ALERT then Clear(a, now) else a;
    var z := SettleIn(y, ByAction(x.id, "request_capabilities"), Success, now);
    SettleKeeps(y, ByAction(x.id, "request_capabilities"), Success, now);
    GrowsTrans(x, y, z, now);
    var w := SettleIn(z, OtaForVersion(x.id, z.device.fwVersion), Success, now);
    SettleKeeps(z, OtaForVersion(x.id, z.device.fwVersion), Success, now);
    GrowsTrans(x, z, w, now);
    SendSound(w, now, up, RestoreCommands(w.device.calibration), Repush);
    GrowsTrans(x, w, Send(w, now, up, RestoreCommands(w.device.calibration), Repush), now);
  }

  lemma SendSound(x: Session, now: int, up: bool, bodies: seq<Body>, cause: Cause)
    requires SessionOk(x, now)
    ensures SessionOk(Send(x, now, up, bodies, cause), now) && Grows(x, Send(x, now, up, bodies, cause), now)
  {
  }

  lemma OnAckKeeps(x: Session, now: int, a: AckReport)
    requires SessionOk(x, now)
    ensures SessionOk(OnAck(x, now, a), now) && Grows(x, OnAck(x, now, a), now)
  {
    hide SessionOk, Grows, Acknowledge, PutOffset, MirrorOk;
    HeardKeeps(x, now);
    if a.action == "" && a.hasTemp {
      LegacyOffsetsKeep(x, now, a);
    } else if a.action != "" {
      AcknowledgeKeeps(x, now, a.action, Success);
      AcknowledgeKeeps(x, now, a.action, Failed);
    }
  }

  lemma LegacyOffsetsKeep(x: Session, now: int, a: AckReport)
    requires SessionOk(x, now) && a.action == "" && a.hasTemp
    ensures SessionOk(OnAck(x, now, a), now) && Grows(x, OnAck(x, now, a), now)
  {
    hide Grows, PutOffset, MirrorOk, CommandsOk, LogOk, ReadingsOk;
    var m := x.device.calibration;
    OffsetKeeps(m, "temp", a.temp);
    OffsetKeeps(PutOffset(m, "temp", a.temp), "humi", a.humi);
    OffsetKeeps(PutOffset(PutOffset(m, "temp", a.temp), "humi", a.humi), "press", a.press);
    DeviceOnlyKeeps(x, OnAck(x, now, a).device, now);
  }

  lemma AcknowledgeKeeps(x: Session, now: int, action: string, status: Status)
    requires SessionOk(x, now) && status != Pending
    ensures var y := x.(commands := Acknowledge(x.commands, x.id, action, status, now));
            SessionOk(y, now) && Grows(x, y, now)
  {
    hide LogOk, ReadingsOk, DeviceOk, AlertBy, LatestBattery, NewestPending;
    NewestPendingIs(x.commands, x.id, action);
  }

  /** The row an ack picks is pending, and no newer row of the same action is. */
  lemma {:induction false} NewestPendingIs(rows: seq<Command>, id: Id, action: string)
    ensures var i := NewestPending(rows, id, action);
            && (0 <= i ==> IsPending(rows[i], id, action))
            && (forall j :: i < j < |rows| ==> !IsPending(rows[j], id, action))
  {
    if rows != [] && !IsPending(rows[|rows| - 1], id, action) {
      NewestPendingIs(rows[..|rows| - 1], id, action);
      forall j | NewestPending(rows, id, action) < j < |rows| ensures !IsPending(rows[j], id, action) {
        if j < |rows| - 1 { assert rows[j] == rows[..|rows| - 1][j]; }
      }
    }
  }

  lemma OnUserCommandKeeps(x: Session, now: int, up: bool, body: Body, upAgain: bool)
    requires SessionOk(x, now)
    ensures SessionOk(OnUserCommand(x, now, up, body, upAgain), now)
    ensures Grows(x, OnUserCommand(x, now, up, body, upAgain), now)
  {
    hide SessionOk, Grows, SendLogged;
    var y := SendLogged(x, now, up, body, Direct);
    SendLoggedKeeps(x, now, up, body, Direct);
    RequestKeeps(y, now, up && upAgain, false, Request);
    GrowsTrans(x, y, OnUserCommand(x, now, up, body, upAgain), now);
  }

  lemma OnRequestCapabilitiesKeeps(x: Session, now: int, up: bool)
    requires SessionOk(x, now)
    ensures SessionOk(OnRequestCapabilities(x, now, up), now) && Grows(x, OnRequestCapabilities(x, now, up), now)
  {
    var y := RequestCapabilities(x, now, up, true, Request);
    RequestKeeps(x, now, up, true, Request);
    SendKeeps(y, now, up, [REQUEST_COMMANDS], Request);
    GrowsTrans(x, y, OnRequestCapabilities(x, now, up), now);
  }

  lemma UnlessRefusedKeeps(x: Session, now: int, up: bool, body: Body, cause: Cause)
    requires SessionOk(x, now)
    ensures SessionOk(x, now) && Grows(x, x, now)
    ensures SessionOk(SendLogged(x, now, up, body, cause), now) && Grows(x, SendLogged(x, now, up, body, cause), now)
  {
    SendLoggedKeeps(x, now, up, body, cause);
  }

  lemma OnSetOffsetKeeps(x: Session, now: int, up: bool, metric: string, value: real)
    requires SessionOk(x, now)
    ensures SessionOk(OnSetOffset(x, now, up, metric, value), now)
    ensures Grows(x, OnSetOffset(x, now, up, metric, value), now)
  {
    if metric in ["temp", "humi", "press"] && up {
      SendLoggedKeeps(x, now, up, SetOffset(metric, Round2(value)), Direct);
      OffsetKeySafe(metric);
      RoundTwice(value);
      PutKeeps(x.device.calibration, "cal_" + metric, Round2(value));
    }
  }

  lemma OnSetCalibrationKeeps(x: Session, now: int, up: bool, key: string, value: real)
    requires SessionOk(x, now)
    ensures SessionOk(OnSetCalibration(x, now, up, key, value), now)
    ensures Grows(x, OnSetCalibration(x, now, up, key, value), now)
  {
    if |key| <= MAX_METRIC_NAME_LEN && |key| > 0 && AllSafe(key) && up {
      SendLoggedKeeps(x, now, up, SetCalibration(key, Round4(value)), Direct);
      RoundTwice(value);
      PutKeeps(x.device.calibration, key, Round4(value));
    }
  }

  /** A handler that only rewrites columns no table mirrors. */
  lemma DeviceOnlyKeeps(x: Session, d: Device, now: int)
    requires SessionOk(x, now) && DeviceOk(d, now)
    requires d.alert == x.device.alert && d.batteryPercent == x.device.batteryPercent
    ensures SessionOk(x.(device := d), now) && Grows(x, x.(device := d), now)
  {
  }

  lemma HandleMessageKeeps(x: Session, created: bool, e: Event)
    requires IsSessionAction(e.action) && SessionOk(x, e.now)
    requires e.action.Sensors? || e.action.StatusReport? || e.action.Capabilities? || e.action.CommandList? ||
             e.action.Calibration? || e.action.Diag? || e.action.Ack?
    ensures SessionOk(Handle(x, created, e), e.now) && Grows(x, Handle(x, created, e), e.now)
  {
    match e.action
    case Sensors(_, data) => OnSensorsKeeps(x, created, e.now, e.up, data);
    case StatusReport(level, message) => OnStatusKeeps(x, e.now, level, message);
    case Capabilities(report) => OnCapabilitiesKeeps(x, e.now, e.up, report);
    case CommandList => DeviceOnlyKeeps(x, Handle(x, created, e).device, e.now);
    case Calibration(data) =>
      ReportedMirrorOk(data);
      DeviceOnlyKeeps(x, Handle(x, created, e).device, e.now);
    case Diag(level, message) => OnDiagKeeps(x, e.now, level, message);
    case Ack(ack) => OnAckKeeps(x, e.now, ack);
  }

  lemma HandleWebKeeps(x: Session, created: bool, e: Event)
    requires IsSessionAction(e.action) && SessionOk(x, e.now)
    requires e.action.ConfirmUplink? || e.action.Offset? ||
             e.action.CalibrationValue? || e.action.OtaPush? || e.action.Edit? || e.action.Approve?
    ensures SessionOk(Handle(x, created, e), e.now) && Grows(x, Handle(x, created, e), e.now)
  {
    hide Grows, SendLogged, OnSetOffset, OnSetCalibration, CommandsOk, LogOk, ReadingsOk, Recorded, MirrorOk;
    match e.action
    case ConfirmUplink => UnlessRefusedKeeps(x, e.now, e.up, CONFIRM_UPLINK, Direct);
    case Offset(metric, value) => OnSetOffsetKeeps(x, e.now, e.up, metric, value);
    case CalibrationValue(key, value) => OnSetCalibrationKeeps(x, e.now, e.up, key, value);
    case OtaPush(f) => UnlessRefusedKeeps(x, e.now, e.up, OtaUpdate(f.version, f.hwCode, f.hwRev), Push);
    case Edit(name, location, locationType, interval) =>
      DeviceOnlyKeeps(x, OnEdit(x, name, location, locationType, interval).device, e.now);
    case Approve(approved) => DeviceOnlyKeeps(x, OnApprove(x, approved).device, e.now);
  }

  lemma HandleKeeps(x: Session, created: bool, e: Event)
    requires IsSessionAction(e.action) && SessionOk(x, e.now)
    ensures SessionOk(Handle(x, created, e), e.now) && Grows(x, Handle(x, created, e), e.now)
  {
    if e.action.Sensors? || e.action.StatusReport? || e.action.Capabilities? || e.action.CommandList? ||
       e.action.Calibration? || e.action.Diag? || e.action.Ack? {
      HandleMessageKeeps(x, created, e);
    } else if e.action.UserCommand? {
      OnUserCommandKeeps(x, e.now, e.up, e.action.body, e.action.upAgain);
    } else if e.action.RequestCaps? {
      OnRequestCapabilitiesKeeps(x, e.now, e.up);
    } else {
      HandleWebKeeps(x, created, e);
    }
  }
}
