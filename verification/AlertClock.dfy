/** The times a device row remembers, traced back to the events of the run that set them. */
module AlertClock {
  import opened Domain
  import opened Protocol
  import opened Invariants
  import opened Reachable
  import opened History

  // ----------------------------------------------------- columns after an event

  predicate Wakes(d: Device, created: bool, now: int) { created || !d.IsOnline(now) }

  /** The capabilities timeout fires: the device is awake and its request has gone unanswered too long. */
  predicate TimeoutFires(d: Device, created: bool, e: Event) {
    e.action.Sensors? && !Wakes(d, created, e.now) && CapabilitiesOverdue(d, e.now)
  }

  lemma ReceiveColumns(x: Session, created: bool, now: int, up: bool)
    ensures var d := Receive(x, created, now, up).device;
            var r := Reconcile(Heard(x, now), now).device;
            var woke := Wakes(x.device, created, now);
            var fires := !woke && CapabilitiesOverdue(x.device, now);
            && d.alert == (if fires then TIMEOUT_ALERT else r.alert)
            && d.alertUpdatedAt == (if fires then Some(now) else r.alertUpdatedAt)
            && d.capabilitiesRequestedAt ==
               (if woke && up then Some(now) else if fires then None else x.device.capabilitiesRequestedAt)
            && d == x.device.(lastSeen := Some(now), alert := d.alert, alertUpdatedAt := d.alertUpdatedAt,
                              capabilitiesRequestedAt := d.capabilitiesRequestedAt)
  {
    hide WakeUpResync, CheckCapabilities, Settle, Reconcile;
    var y := ExpireOta(Reconcile(Heard(x, now), now), now);
    ReconcileColumns(x, now);
    WakeUpColumns(y, now, up);
    CheckColumns(y, now);
  }

  lemma ReconcileColumns(x: Session, now: int)
    ensures var r := Reconcile(Heard(x, now), now).device;
            r == x.device.(lastSeen := Some(now), alert := r.alert, alertUpdatedAt := r.alertUpdatedAt)
  {
  }

  lemma WakeUpColumns(x: Session, now: int, up: bool)
    ensures WakeUpResync(x, now, up).device == if up then x.device.(capabilitiesRequestedAt := Some(now)) else x.device
  {
  }

  lemma CheckColumns(x: Session, now: int)
    ensures CheckCapabilities(x, now).device ==
            if CapabilitiesOverdue(x.device, now)
            then x.device.(alert := TIMEOUT_ALERT, alertUpdatedAt := Some(now), capabilitiesRequestedAt := None)
            else x.device
  {
  }

  lemma {:induction false} IngestColumns(x: Session, now: int, up: bool, data: Payload)
    ensures var d := Ingest(x, now, up, data).device;
            var level := LatestBattery(NewReadings(data, x.id, now), x.id);
            var recovered := level.Some? && level.value > LOW_BATTERY_THRESHOLD &&
                             x.device.alert == Alert(Warning, LOW_BATTERY_ALERT);
            && d.alert == (if recovered then NO_ALERT else x.device.alert)
            && d.alertUpdatedAt == (if recovered then None else x.device.alertUpdatedAt)
            && d.diagRequestedAt == (if DiagDue(x.device, now) then Some(now) else x.device.diagRequestedAt)
            && d == x.device.(batteryPercent := d.batteryPercent, alert := d.alert, alertUpdatedAt := d.alertUpdatedAt,
                              diagRequestedAt := d.diagRequestedAt)
  {
    hide NewReadings, LatestBattery, Published, DiagDue;
  }

  // ----------------------------------------------------------- the alert clock

  /** The event asserts an alert on its device: a warning or error report, or the capabilities timeout. */
  predicate Asserts(s: State, e: Event) {
    e.id in s.devices &&
    match e.action
    case StatusReport(level, _) => level == LWarning || level == LError
    case Diag(level, _) => level == LWarning || level == LError
    case _ => TimeoutFires(s.devices[e.id], false, e)
  }

  /** Time of the latest event that asserted an alert on the device now called `id`. */
  function AssertedAt(es: seq<Event>, id: Id): Option<int> {
    if es == [] then None
    else
      var s, e := Run(es[..|es| - 1]), es[|es| - 1];
      if e.id == id && Asserts(s, e) then Some(e.now)
      else
        match Prior(s, e, id)
        case None => None
        case Some(p) => AssertedAt(es[..|es| - 1], p)
  }

  lemma AlertAfterSensors(x: Session, created: bool, e: Event, now: int)
    requires e.action.Sensors? && DeviceOk(x.device, now)
    ensures var d' := OnSensors(x, created, e.now, e.up, e.action.data).device;
            d'.alert.level != Ok ==>
              if TimeoutFires(x.device, created, e) then d'.alertUpdatedAt == Some(e.now) && d'.alert == TIMEOUT_ALERT
              else d'.alertUpdatedAt == x.device.alertUpdatedAt && d'.alert == x.device.alert
  {
    hide Receive, Ingest, WakeUpResync, NewReadings;
    ReceiveColumns(x, created, e.now, e.up);
    IngestColumns(Receive(x, created, e.now, e.up), e.now, e.up, e.action.data);
  }

  /** Only these three messages, and sensor data, touch the alert. */
  lemma AlertUntouched(x: Session, created: bool, e: Event)
    requires IsSessionAction(e.action)
    requires !e.action.Sensors? && !e.action.StatusReport? && !e.action.Diag? && !e.action.Capabilities?
    ensures Handle(x, created, e).device.alert == x.device.alert
    ensures Handle(x, created, e).device.alertUpdatedAt == x.device.alertUpdatedAt
  {
    hide OnSensors, OnCapabilities, OnStatus, OnDiag, Published, Acknowledge, ReportedMirror, PutOffset, Put;
  }

  lemma AlertAfterStatus(x: Session, now: int, level: ReportedLevel, message: Option<string>)
    ensures var d, d' := x.device, OnStatus(x, now, level, message).device;
            d'.alert.level != Ok ==>
              if level == LWarning || level == LError then d'.alertUpdatedAt == Some(now)
              else d'.alertUpdatedAt == d.alertUpdatedAt && d'.alert == d.alert
  {
  }

  lemma AlertAfterDiag(x: Session, now: int, level: ReportedLevel, message: Option<string>)
    ensures var d, d' := x.device, OnDiag(x, now, level, message).device;
            d'.alert.level != Ok ==>
              if level == LWarning || level == LError then d'.alertUpdatedAt == Some(now)
              else d'.alertUpdatedAt == d.alertUpdatedAt && d'.alert == d.alert
  {
  }

  lemma AlertAfterCapabilities(x: Session, now: int, up: bool, r: CapabilitiesReport)
    ensures var d, d' := x.device, OnCapabilities(x, now, up, r).device;
            d'.alert.level != Ok ==> d'.alertUpdatedAt == d.alertUpdatedAt && d'.alert == d.alert
  {
  }

  /** A latched alert is either asserted by this event or carried over with its clock. */
  lemma AlertAfter(s: State, e: Event, now: int)
    requires Runs(s, e) && DeviceOk(Opened(s, e).device, now)
    ensures var d, d' := Opened(s, e).device, After(s, e).device;
            d'.alert.level != Ok ==>
              if Asserts(s, e) then d'.alertUpdatedAt == Some(e.now)
              else d'.alertUpdatedAt == d.alertUpdatedAt && d'.alert == d.alert
  {
    hide OnSensors, OnCapabilities, OnStatus, OnDiag, OnAck, OnCalibration, CapabilitiesOverdue;
    var x := Opened(s, e);
    match e.action
    case Sensors(_, _) => AlertAfterSensors(x, e.id !in s.devices, e, now);
    case StatusReport(level, message) => AlertAfterStatus(x, e.now, level, message);
    case Diag(level, message) => AlertAfterDiag(x, e.now, level, message);
    case Capabilities(report) => AlertAfterCapabilities(x, e.now, e.up, report);
    case _ => AlertUntouched(x, e.id !in s.devices, e);
  }

  ghost predicate Carried(s: State, e: Event, id: Id, alert: Alert, at: Option<int>) {
    var p := Prior(s, e, id);
    p.Some? && p.value in s.devices && s.devices[p.value].alert == alert && s.devices[p.value].alertUpdatedAt == at
  }

  lemma AlertStep(s: State, e: Event, id: Id)
    requires Inv(s, e.now) && id in Step(s, e).devices && Step(s, e).devices[id].alert.level != Ok
    ensures var d' := Step(s, e).devices[id];
            if e.id == id && Asserts(s, e) then d'.alertUpdatedAt == Some(e.now)
            else Carried(s, e, id, d'.alert, d'.alertUpdatedAt)
  {
    hide Step, After, CommandsOk, LogOk, ReadingsOk, Recorded, Advances;
    if Runs(s, e) {
      Effect(s, e);
      AlertAfter(s, e, e.now);
    } else {
      StructuralAlert(s, e, id);
    }
  }

  /** Deleting, renaming and merging carry the surviving rows' alerts over. */
  lemma StructuralAlert(s: State, e: Event, id: Id)
    requires !Runs(s, e) && id in Step(s, e).devices
    ensures Carried(s, e, id, Step(s, e).devices[id].alert, Step(s, e).devices[id].alertUpdatedAt)
  {
  }

  /** While an alert is latched its clock shows when it was last asserted. */
  lemma {:induction false} ClockIsLastAssertion(es: seq<Event>, id: Id)
    requires Timed(es) && id in Run(es).devices && Run(es).devices[id].alert.level != Ok
    ensures AssertedAt(es, id).Some? && Run(es).devices[id].alertUpdatedAt == AssertedAt(es, id)
  {
    if es != [] {
      var front, e := es[..|es| - 1], es[|es| - 1];
      var s := Run(front);
      Front(es);
      RunStep(es);
      AlertStep(s, e, id);
      if !(e.id == id && Asserts(s, e)) { ClockIsLastAssertion(front, Prior(s, e, id).value); }
      RunKeeps(es);
      assert RowOk(Run(es), id, e.now);
    }
  }

  // ------------------------------------------------ what sensor data clears

  /** An approved device's payload shows a battery that is fine again. */
  predicate BatteryRecovers(d: Device, e: Event) {
    && e.action.Sensors? && d.isApproved
    && d.alert == Alert(Warning, LOW_BATTERY_ALERT)
    && var level := LatestBattery(NewReadings(e.action.data, e.id, e.now), e.id);
       level.Some? && level.value > LOW_BATTERY_THRESHOLD
  }

  lemma SensorsDecide(x: Session, e: Event, now: int)
    requires e.action.Sensors? && x.id == e.id && DeviceOk(x.device, now) && x.device.alert.level != Ok
    ensures var d := x.device;
            var d' := OnSensors(x, false, e.now, e.up, e.action.data).device;
            if TimeoutFires(d, false, e) then d'.alert == TIMEOUT_ALERT
            else if d.alert.message == NO_CAPABILITIES_ALERT || e.now - d.alertUpdatedAt.value > d.Window() ||
                    BatteryRecovers(d, e)
            then d'.alert == NO_ALERT
            else d'.alert == d.alert && d'.alertUpdatedAt == d.alertUpdatedAt
  {
    hide Receive, Ingest, WakeUpResync, NewReadings, LatestBattery;
    ReceiveColumns(x, false, e.now, e.up);
    IngestColumns(Receive(x, false, e.now, e.up), e.now, e.up, e.action.data);
  }

  /** A sensor message releases a latched alert exactly when normal data contradicts it (the missing
      capabilities, a recovered battery) or no event asserted it during the last window; it never releases
      an alert in favour of nothing when the capabilities timeout fires. */
  lemma {:induction false} ClearedExactlyWhenStale(es: seq<Event>, e: Event)
    requires Timed(es + [e]) && e.action.Sensors? && e.id in Run(es).devices
    requires Run(es).devices[e.id].alert.level != Ok
    ensures AssertedAt(es, e.id).Some?
    ensures var d, d' := Run(es).devices[e.id], Run(es + [e]).devices[e.id];
            var stale := e.now - AssertedAt(es, e.id).value > d.Window();
            && (d'.alert == NO_ALERT <==>
                  !TimeoutFires(d, false, e) &&
                  (d.alert.message == NO_CAPABILITIES_ALERT || stale || BatteryRecovers(d, e)))
            && (d'.alert != NO_ALERT ==> d'.alert == if TimeoutFires(d, false, e) then TIMEOUT_ALERT else d.alert)
  {
    hide Step, AssertedAt, OnSensors, LatestBattery, NewReadings;
    assert (es + [e])[..|es + [e]| - 1] == es;
    var s := Run(es);
    Front(es + [e]);
    RunStep(es + [e]);
    ClockIsLastAssertion(es, e.id);
    Effect(s, e);
    SensorsDecide(Opened(s, e), e, e.now);
  }

  /** After any sensor message an alert that remains was asserted during the last window. */
  lemma {:induction false} RemainingAlertIsFresh(es: seq<Event>, e: Event)
    requires Timed(es + [e]) && e.action.Sensors? && e.id in Run(es + [e]).devices
    requires Run(es + [e]).devices[e.id].alert.level != Ok
    ensures var d := Run(es + [e]).devices[e.id];
            AssertedAt(es + [e], e.id).Some? && e.now - AssertedAt(es + [e], e.id).value <= d.Window()
  {
    hide Step, AssertedAt, OnSensors;
    assert (es + [e])[..|es + [e]| - 1] == es;
    var s := Run(es);
    Front(es + [e]);
    RunStep(es + [e]);
    ClockIsLastAssertion(es + [e], e.id);
    Effect(s, e);
    FreshAfterSensors(Opened(s, e), e.id !in s.devices, e, e.now);
  }

  lemma FreshAfterSensors(x: Session, created: bool, e: Event, now: int)
    requires e.action.Sensors? && DeviceOk(x.device, now)
    ensures var d' := OnSensors(x, created, e.now, e.up, e.action.data).device;
            d'.alert.level != Ok ==> d'.alertUpdatedAt.Some? && e.now - d'.alertUpdatedAt.value <= d'.Window()
  {
    hide Receive, Ingest, WakeUpResync, NewReadings, LatestBattery;
    ReceiveColumns(x, created, e.now, e.up);
    IngestColumns(Receive(x, created, e.now, e.up), e.now, e.up, e.action.data);
  }
}
