/** A device by the events alone: what each column of its row must be, written out without the handlers. */
module Ledger {
  import opened Domain
  import opened Protocol
  import opened Invariants
  import opened Reachable
  import opened History
  import opened AlertClock
  import opened Identity
  import opened Ingestion
  import opened Spelling

  /** The columns of one device, the mirror by its keys. */
  datatype Card = Card(
    settings: Settings, kind: string, heard: Option<int>, alert: Alert, alertAt: Option<int>, asked: Option<int>,
    polled: Option<int>, battery: Option<real>, mirror: map<string, real>)
  {
    /** Three publish intervals, five minutes while the interval is unknown. */
    function Window(): int { (if settings.interval == 0 then 300 else 3 * settings.interval) * 1_000_000 }

    predicate Awake(now: int) { heard.Some? && now < heard.value + Window() }

    /** A request is owed an answer for longer than three intervals, or a minute. */
    predicate Overdue(now: int) {
      && Awake(now) && asked.Some?
      && now > asked.value + (if settings.interval > 20 then 3 * settings.interval else 60) * 1_000_000
    }

    /** Nothing asserted the latched alert for a whole window. */
    predicate Stale(now: int) { alert.level != Ok && alertAt.Some? && now > alertAt.value + Window() }

    /** Incoming data contradicts the latched alert. */
    predicate Released(now: int) { alert.message == "no_capabilities_response" || Stale(now) }

    /** The battery the device warned about is fine again. */
    predicate Recovers(data: Payload) {
      && settings.approved && alert == Alert(Warning, "low_battery")
      && BatteryLevel(data).Some? && BatteryLevel(data).value > 20.0
    }

    /** A sensor message polls for diagnostics: at most every 1.1 intervals, or every five minutes. */
    predicate Polls(now: int) {
      && settings.approved && settings.diag
      && (battery.Some? ==> battery.value > 20.0)
      && (Overdue(now) || (alert.level != Ok && !Released(now)))
      && (polled.Some? ==>
            10 * (now - polled.value) >= (if settings.interval == 0 then 3000 else 11 * settings.interval) * 1_000_000)
    }
  }

  /** A device just discovered. */
  function Blank(kind: string): Card { Card(DEFAULTS, kind, None, Alert(Ok, ""), None, None, None, None, map[]) }

  // ------------------------------------------------------------------- the alert

  /** The first 256 characters of a message, or what is shown without one. */
  function TextOf(message: Option<string>, otherwise: string): string {
    if message.None? then otherwise
    else if |message.value| > 256 then message.value[..256]
    else message.value
  }

  function AlertAfterEvent(c: Card, e: Event): Alert {
    match e.action
    case StatusReport(LWarning, message) => Alert(Warning, TextOf(message, c.alert.message))
    case StatusReport(LError, message) => Alert(Error, TextOf(message, c.alert.message))
    case StatusReport(LOk, _) => Alert(Ok, "")
    case StatusReport(LEmpty, _) => Alert(Ok, "")
    case Diag(LWarning, message) => Alert(Warning, TextOf(message, ""))
    case Diag(LError, message) => Alert(Error, TextOf(message, ""))
    case Diag(LOk, _) => Alert(Ok, "")
    case Diag(LInfo, _) => Alert(Ok, "")
    case Capabilities(_) => if c.alert == Alert(Error, "no_capabilities_response") then Alert(Ok, "") else c.alert
    case Sensors(_, data) =>
      if c.Overdue(e.now) then Alert(Error, "no_capabilities_response")
      else if c.Released(e.now) || c.Recovers(data) then Alert(Ok, "")
      else c.alert
    case _ => c.alert
  }

  predicate AssertsAlert(c: Card, e: Event) {
    match e.action
    case StatusReport(level, _) => level == LWarning || level == LError
    case Diag(level, _) => level == LWarning || level == LError
    case Sensors(_, _) => c.Overdue(e.now)
    case _ => false
  }

  function AlertTimeAfterEvent(c: Card, e: Event): Option<int> {
    if AlertAfterEvent(c, e).level == Ok then None
    else if AssertsAlert(c, e) then Some(e.now)
    else c.alertAt
  }

  // ------------------------------------------------------ requests, polls, battery

  function AskedAfterEvent(c: Card, e: Event): Option<int> {
    match e.action
    case UserCommand(_, upAgain) => if e.up && upAgain then Some(e.now) else c.asked
    case RequestCaps => if e.up then Some(e.now) else c.asked
    case Capabilities(_) => None
    case Sensors(_, _) =>
      if !c.Awake(e.now) then if e.up then Some(e.now) else c.asked
      else if c.Overdue(e.now) then None
      else c.asked
    case _ => c.asked
  }

  function PolledAfterEvent(c: Card, e: Event): Option<int> {
    if e.action.Sensors? && c.Polls(e.now) then Some(e.now) else c.polled
  }

  function BatteryAfterEvent(c: Card, e: Event): Option<real> {
    if e.action.Sensors? && c.settings.approved && BatteryLevel(e.action.data).Some? then BatteryLevel(e.action.data)
    else c.battery
  }

  // ------------------------------------------------------------------ the mirror

  /** A calibration report sets every key it carries, and removes all others. */
  function ReportedValues(data: Payload): map<string, real> {
    if data == [] then map[]
    else
      var (key, value) := data[|data| - 1];
      var front := ReportedValues(data[..|data| - 1]);
      if |key| <= 64 && Spelled(key) && value.Some? then front[key := Round4(value.value)] else front
  }

  function WithOffset(mirror: map<string, real>, key: string, offset: Option<real>): map<string, real> {
    if offset.None? then mirror else mirror[key := Round2(offset.value)]
  }

  predicate OffsetMetric(metric: string) { metric == "temp" || metric == "humi" || metric == "press" }

  predicate CalibrationKey(key: string) { 0 < |key| <= 64 && Letters(key) }

  function MirrorAfterEvent(c: Card, e: Event): map<string, real> {
    match e.action
    case Calibration(data) => ReportedValues(data)
    case Offset(metric, value) =>
      if e.up && OffsetMetric(metric) then c.mirror["cal_" + metric := Round2(value)] else c.mirror
    case CalibrationValue(key, value) =>
      if e.up && CalibrationKey(key) then c.mirror[key := Round4(value)] else c.mirror
    case Ack(a) =>
      if a.action == "" && a.hasTemp
      then WithOffset(WithOffset(WithOffset(c.mirror, "cal_temp", a.temp), "cal_humi", a.humi), "cal_press", a.press)
      else c.mirror
    case _ => c.mirror
  }

  // --------------------------------------------------------------------- the card

  function AfterEvent(c: Card, e: Event): Card {
    Card(Updated(c.settings, e.action), c.kind, if Hears(e.action) then Some(e.now) else c.heard,
         AlertAfterEvent(c, e), AlertTimeAfterEvent(c, e), AskedAfterEvent(c, e), PolledAfterEvent(c, e),
         BatteryAfterEvent(c, e), MirrorAfterEvent(c, e))
  }

  function LaterOf(a: Option<int>, b: Option<int>): Option<int> {
    if a.None? || (b.Some? && b.value > a.value) then b else a
  }

  /** The device now called `id`, by the events of the run: a rename forgets two settings, a merge passes on nothing but
      the later `heard`, and nothing else touches another device. */
  function CardOf(es: seq<Event>, id: Id): Card {
    if es == [] then Blank("")
    else
      var front, e := es[..|es| - 1], es[|es| - 1];
      var s := Run(front);
      var before := match Prior(s, e, id)
                    case None => Blank(if e.action.Sensors? then e.action.deviceType else "")
                    case Some(p) => CardOf(front, p);
      if Renames(s, e) && id == e.action.newId then before.(settings := Forgotten(before.settings))
      else if Merges(s, e) && id == e.action.target
      then before.(heard := LaterOf(CardOf(front, e.id).heard, before.heard))
      else if e.id == id && Runs(s, e) then AfterEvent(before, e)
      else before
  }

  function Values(m: Mirror): map<string, real> {
    if m == [] then map[] else Values(m[1..])[m[0].0 := m[0].1]
  }

  /** The row holds exactly what the card says. */
  predicate Agrees(d: Device, c: Card) {
    && Stored(d) == c.settings && d.deviceType == c.kind && d.lastSeen == c.heard
    && d.alert == c.alert && d.alertUpdatedAt == c.alertAt
    && d.capabilitiesRequestedAt == c.asked && d.diagRequestedAt == c.polled
    && d.batteryPercent == c.battery && Values(d.calibration) == c.mirror
  }

  // ------------------------------------------------------- one handler, by column

  lemma {:induction false} PutValues(m: Mirror, key: string, value: real)
    ensures Values(Put(m, key, value)) == Values(m)[key := value]
  {
    if m != [] && m[0].0 != key { PutValues(m[1..], key, value); }
  }

  lemma {:induction false} ReportedAre(data: Payload)
    ensures Values(ReportedMirror(data)) == ReportedValues(data)
  {
    hide Round4, MatchesIdentifier, Spelled, Put;
    if data != [] {
      var (key, value) := data[|data| - 1];
      ReportedAre(data[..|data| - 1]);
      SpelledIs(key);
      if value.Some? { PutValues(ReportedMirror(data[..|data| - 1]), key, Round4(value.value)); }
    }
  }

  lemma {:induction false} PutOffsets(m: Mirror, key: string, offset: Option<real>)
    ensures Values(PutOffset(m, key, offset)) == WithOffset(Values(m), "cal_" + key, offset)
  {
    if offset.Some? { PutValues(m, "cal_" + key, Round2(offset.value)); }
  }

  lemma MirrorOfAck(x: Session, c: Card, e: Event)
    requires e.action.Ack? && Values(x.device.calibration) == c.mirror
    ensures Values(OnAck(x, e.now, e.action.ack).device.calibration) == MirrorAfterEvent(c, e)
  {
    hide Values, PutOffset, WithOffset, Acknowledge;
    var a, m := e.action.ack, x.device.calibration;
    assert "cal_" + "temp" == "cal_temp" && "cal_" + "humi" == "cal_humi" && "cal_" + "press" == "cal_press";
    PutOffsets(m, "temp", a.temp);
    PutOffsets(PutOffset(m, "temp", a.temp), "humi", a.humi);
    PutOffsets(PutOffset(PutOffset(m, "temp", a.temp), "humi", a.humi), "press", a.press);
  }

  lemma MirrorOfOffset(x: Session, c: Card, e: Event)
    requires e.action.Offset? && Values(x.device.calibration) == c.mirror
    ensures Values(OnSetOffset(x, e.now, e.up, e.action.metric, e.action.value).device.calibration) ==
            MirrorAfterEvent(c, e)
  {
    hide Values, Put, Round2;
    PutValues(x.device.calibration, "cal_" + e.action.metric, Round2(e.action.value));
  }

  lemma MirrorOfValue(x: Session, c: Card, e: Event)
    requires e.action.CalibrationValue? && Values(x.device.calibration) == c.mirror
    ensures Values(OnSetCalibration(x, e.now, e.up, e.action.key, e.action.value).device.calibration) ==
            MirrorAfterEvent(c, e)
  {
    hide Values, Put, Round4, Letters, AllSafe;
    LettersAre(e.action.key);
    PutValues(x.device.calibration, e.action.key, Round4(e.action.value));
  }

  /** The windows of a card are those of its row. */
  lemma WindowsAre(d: Device, c: Card, created: bool, now: int)
    requires Agrees(d, c) && (created <==> c.heard.None?)
    ensures Wakes(d, created, now) <==> !c.Awake(now)
    ensures c.Awake(now) && CapabilitiesOverdue(d, now) <==> c.Overdue(now)
    ensures DeviceOk(d, now) ==>
              (d.alert.level != Ok && now - d.alertUpdatedAt.value > d.Window() <==> c.Stale(now))
  {
    hide Values, MirrorOk;
  }

  lemma SensorsReceived(x: Session, c: Card, created: bool, e: Event)
    requires e.action.Sensors? && Agrees(x.device, c) && (created <==> c.heard.None?) && DeviceOk(x.device, e.now)
    ensures var d := Receive(x, created, e.now, e.up).device;
            && d == x.device.(lastSeen := Some(e.now), alert := d.alert, alertUpdatedAt := d.alertUpdatedAt,
                              capabilitiesRequestedAt := AskedAfterEvent(c, e))
            && d.alert == (if c.Overdue(e.now) then Alert(Error, "no_capabilities_response")
                           else if c.Released(e.now) then Alert(Ok, "") else c.alert)
            && d.alertUpdatedAt == (if c.Overdue(e.now) then Some(e.now)
                                    else if c.Released(e.now) then None else c.alertAt)
  {
    hide Receive, Values, MirrorOk;
    ReceiveColumns(x, created, e.now, e.up);
    WindowsAre(x.device, c, created, e.now);
    ReconciledAlert(x, c, created, e.now);
  }

  lemma ReconciledAlert(x: Session, c: Card, created: bool, now: int)
    requires Agrees(x.device, c) && (created <==> c.heard.None?) && DeviceOk(x.device, now)
    ensures var d := Reconcile(Heard(x, now), now).device;
            if c.Released(now) then d.alert == Alert(Ok, "") && d.alertUpdatedAt == None
            else d.alert == c.alert && d.alertUpdatedAt == c.alertAt
  {
    hide Values, MirrorOk;
    WindowsAre(x.device, c, created, now);
  }

  lemma PollsIs(x: Session, c: Card, created: bool, e: Event)
    requires e.action.Sensors? && Agrees(x.device, c) && (created <==> c.heard.None?) && DeviceOk(x.device, e.now)
    ensures var r := Receive(x, created, e.now, e.up).device;
            r.isApproved && DiagDue(r, e.now) <==> c.Polls(e.now)
  {
    hide Receive, Values, MirrorOk;
    SensorsReceived(x, c, created, e);
  }

  lemma SensorsAgree(x: Session, c: Card, created: bool, e: Event)
    requires e.action.Sensors? && Agrees(x.device, c) && (created <==> c.heard.None?) && DeviceOk(x.device, e.now)
    ensures Agrees(OnSensors(x, created, e.now, e.up, e.action.data).device, AfterEvent(c, e))
  {
    hide Receive, Ingest, Values, MirrorOk, NewReadings, LatestBattery, BatteryLevel, DiagDue;
    var data := e.action.data;
    var r := Receive(x, created, e.now, e.up);
    SensorsReceived(x, c, created, e);
    PollsIs(x, c, created, e);
    NothingSet(c.settings, e.action);
    BatteryLevelIs(data, x.id, e.now);
    IngestColumns(r, e.now, e.up, data);
    IngestedBattery(r, e.now, e.up, data);
  }

  lemma {:induction false} IngestedBattery(x: Session, now: int, up: bool, data: Payload)
    ensures var level := LatestBattery(NewReadings(data, x.id, now), x.id);
            Ingest(x, now, up, data).device.batteryPercent == if level.Some? then level else x.device.batteryPercent
  {
    hide NewReadings, LatestBattery, DiagDue;
  }

  lemma ReportAgrees(x: Session, c: Card, e: Event)
    requires (e.action.StatusReport? || e.action.Diag?) && Agrees(x.device, c) && DeviceOk(x.device, e.now)
    ensures Agrees(Handle(x, false, e).device, AfterEvent(c, e))
  {
    hide Values, MirrorOk, Stored, Updated;
    HandlerSettings(x, false, e);
    if e.action.StatusReport? {
      StatusColumns(x, e.now, e.action.level, e.action.message);
    } else {
      DiagColumns(x, e.now, e.action.level, e.action.message);
    }
  }

  lemma StatusColumns(x: Session, now: int, level: ReportedLevel, message: Option<string>)
    ensures var d := OnStatus(x, now, level, message).device;
            var text := TextOf(message, x.device.alert.message);
            && d == x.device.(alert := d.alert, alertUpdatedAt := d.alertUpdatedAt, lastSeen := d.lastSeen)
            && d.lastSeen == (if level == LInfo || level == LOther then x.device.lastSeen else Some(now))
            && d.alert == (match level
                           case LWarning => Alert(Warning, text)
                           case LError => Alert(Error, text)
                           case LOk => Alert(Ok, "")
                           case LEmpty => Alert(Ok, "")
                           case _ => x.device.alert)
            && d.alertUpdatedAt == (match level
                                    case LWarning => Some(now)
                                    case LError => Some(now)
                                    case LOk => None
                                    case LEmpty => None
                                    case _ => x.device.alertUpdatedAt)
  {
  }

  lemma DiagColumns(x: Session, now: int, level: ReportedLevel, message: Option<string>)
    ensures var d := OnDiag(x, now, level, message).device;
            var text := TextOf(message, "");
            && d == x.device.(alert := d.alert, alertUpdatedAt := d.alertUpdatedAt, lastSeen := d.lastSeen)
            && d.lastSeen == (if level == LEmpty || level == LOther then x.device.lastSeen else Some(now))
            && d.alert == (match level
                           case LWarning => Alert(Warning, text)
                           case LError => Alert(Error, text)
                           case LOk => Alert(Ok, "")
                           case LInfo => Alert(Ok, "")
                           case _ => x.device.alert)
            && d.alertUpdatedAt == (match level
                                    case LWarning => Some(now)
                                    case LError => Some(now)
                                    case LOk => None
                                    case LInfo => None
                                    case _ => x.device.alertUpdatedAt)
  {
  }

  lemma CapabilitiesAgree(x: Session, c: Card, e: Event)
    requires e.action.Capabilities? && Agrees(x.device, c) && DeviceOk(x.device, e.now)
    ensures Agrees(Handle(x, false, e).device, AfterEvent(c, e))
  {
    hide Values, MirrorOk, Stored, Updated, OnCapabilities;
    HandlerSettings(x, false, e);
    CapabilitiesColumns(x, e.now, e.up, e.action.report);
  }

  lemma CapabilitiesColumns(x: Session, now: int, up: bool, r: CapabilitiesReport)
    ensures var d := OnCapabilities(x, now, up, r).device;
            var released := x.device.alert == Alert(Error, "no_capabilities_response");
            && d.deviceType == x.device.deviceType && d.lastSeen == x.device.lastSeen
            && d.alert == (if released then Alert(Ok, "") else x.device.alert)
            && d.alertUpdatedAt == (if released then None else x.device.alertUpdatedAt)
            && d.capabilitiesRequestedAt == None && d.diagRequestedAt == x.device.diagRequestedAt
            && d.batteryPercent == x.device.batteryPercent && d.calibration == x.device.calibration
  {
    hide Settle, RestoreCommands, Published;
  }

  lemma StoreAgrees(x: Session, c: Card, e: Event)
    requires e.action.CommandList? || e.action.Calibration? || e.action.Ack? || e.action.Offset? ||
             e.action.CalibrationValue?
    requires Agrees(x.device, c) && DeviceOk(x.device, e.now)
    ensures Agrees(Handle(x, false, e).device, AfterEvent(c, e))
  {
    hide Values, MirrorOk, Stored, Updated, OnAck, OnSetOffset, OnSetCalibration, ReportedMirror, MirrorAfterEvent;
    HandlerSettings(x, false, e);
    StoreColumns(x, e);
    StoredMirror(x, c, e);
  }

  lemma StoreColumns(x: Session, e: Event)
    requires e.action.CommandList? || e.action.Calibration? || e.action.Ack? || e.action.Offset? ||
             e.action.CalibrationValue?
    ensures var d := Handle(x, false, e).device;
            d == x.device.(lastSeen := if Hears(e.action) then Some(e.now) else x.device.lastSeen,
                           calibration := d.calibration)
  {
    hide Acknowledge, PutOffset, Put, Round2, Round4, ReportedMirror;
  }

  lemma StoredMirror(x: Session, c: Card, e: Event)
    requires e.action.CommandList? || e.action.Calibration? || e.action.Ack? || e.action.Offset? ||
             e.action.CalibrationValue?
    requires Values(x.device.calibration) == c.mirror
    ensures Values(Handle(x, false, e).device.calibration) == MirrorAfterEvent(c, e)
  {
    hide OnAck, OnSetOffset, OnSetCalibration, ReportedMirror, Values, ReportedValues;
    match e.action
    case Calibration(data) => ReportedAre(data);
    case Ack(_) => MirrorOfAck(x, c, e);
    case Offset(_, _) => MirrorOfOffset(x, c, e);
    case CalibrationValue(_, _) => MirrorOfValue(x, c, e);
    case _ =>
  }

  lemma RequestAgrees(x: Session, c: Card, e: Event)
    requires e.action.UserCommand? || e.action.RequestCaps? || e.action.ConfirmUplink? || e.action.OtaPush? ||
             e.action.Edit? || e.action.Approve?
    requires Agrees(x.device, c) && DeviceOk(x.device, e.now)
    ensures Agrees(Handle(x, false, e).device, AfterEvent(c, e))
  {
    hide Values, MirrorOk, Stored, Updated, OtaAllowed, Published;
    HandlerSettings(x, false, e);
  }

  /** Whatever the message or request, the row ends as the card says. */
  lemma HandlerAgrees(x: Session, c: Card, created: bool, e: Event)
    requires IsSessionAction(e.action) && Agrees(x.device, c) && DeviceOk(x.device, e.now)
    requires (created <==> c.heard.None?) && (created ==> e.action.Sensors?)
    ensures Agrees(Handle(x, created, e).device, AfterEvent(c, e))
  {
    hide Agrees, AfterEvent, DeviceOk, OnSensors, OnCapabilities, OnStatus, OnDiag, OnAck;
    if e.action.Sensors? {
      SensorsAgree(x, c, created, e);
    } else if e.action.StatusReport? || e.action.Diag? {
      ReportAgrees(x, c, e);
    } else if e.action.Capabilities? {
      CapabilitiesAgree(x, c, e);
    } else if e.action.UserCommand? || e.action.RequestCaps? || e.action.ConfirmUplink? || e.action.OtaPush? ||
              e.action.Edit? || e.action.Approve? {
      RequestAgrees(x, c, e);
    } else {
      StoreAgrees(x, c, e);
    }
  }

  // ------------------------------------------------------------------ over runs

  /** The card an event starts from. */
  function CardBefore(front: seq<Event>, e: Event, id: Id): Card {
    match Prior(Run(front), e, id)
    case None => Blank(if e.action.Sensors? then e.action.deviceType else "")
    case Some(p) => CardOf(front, p)
  }

  lemma {:induction false} SessionCard(front: seq<Event>, e: Event, id: Id)
    requires Inv(Run(front), e.now) && Runs(Run(front), e) && id in Step(Run(front), e).devices
    requires id in Run(front).devices ==> Agrees(Run(front).devices[id], CardOf(front, id))
    ensures var c := CardBefore(front, e, id);
            Agrees(Step(Run(front), e).devices[id], if e.id == id then AfterEvent(c, e) else c)
  {
    hide Run, Step, Handle, CardOf, Agrees, AfterEvent, SessionOk, Recorded, CommandsOk, LogOk, ReadingsOk;
    var s := Run(front);
    Effect(s, e);
    if e.id == id {
      OpenedCard(front, e);
      HandlerAgrees(Opened(s, e), CardBefore(front, e, id), id !in s.devices, e);
    }
  }

  lemma {:induction false} OpenedCard(front: seq<Event>, e: Event)
    requires Inv(Run(front), e.now) && Runs(Run(front), e)
    requires e.id in Run(front).devices ==> Agrees(Run(front).devices[e.id], CardOf(front, e.id))
    ensures var c := CardBefore(front, e, e.id);
            && Agrees(Opened(Run(front), e).device, c) && DeviceOk(Opened(Run(front), e).device, e.now)
            && (c.heard.None? <==> e.id !in Run(front).devices)
  {
    hide Run, CardOf, CommandsOk, LogOk, ReadingsOk;
    if e.id in Run(front).devices { assert RowOk(Run(front), e.id, e.now); }
  }

  lemma {:induction false} MovedCard(front: seq<Event>, e: Event, id: Id)
    requires !Runs(Run(front), e) && id in Step(Run(front), e).devices
    requires forall o :: o in Run(front).devices ==> Agrees(Run(front).devices[o], CardOf(front, o))
    ensures var c := CardBefore(front, e, id);
            Agrees(Step(Run(front), e).devices[id],
                   if Renames(Run(front), e) && id == e.action.newId then c.(settings := Forgotten(c.settings))
                   else if Merges(Run(front), e) && id == e.action.target
                   then c.(heard := LaterOf(CardOf(front, e.id).heard, c.heard))
                   else c)
  {
    hide Run, CardOf, Values, CommandsWithout, LogsWithout, ReadingsWithout, ReadingsOutside, MoveCommands, MoveLogs,
         MoveReadings, MergedReadings, Handle;
  }

  /** In every run, for every device: each column of its row is what the events alone say it must be. */
  lemma {:induction false} RowIsCard(es: seq<Event>, id: Id)
    requires Timed(es) && id in Run(es).devices
    ensures Agrees(Run(es).devices[id], CardOf(es, id))
  {
    hide Step, Run, Inv, Agrees, AfterEvent;
    if es == [] {
      NoEvents();
    } else {
      var front, e := es[..|es| - 1], es[|es| - 1];
      var s := Run(front);
      Front(es);
      RunStep(es);
      PriorKnown(s, e, id);
      if Runs(s, e) {
        if id in s.devices { RowIsCard(front, id); }
        NotBoth(s, e);
        SessionCard(front, e, id);
      } else {
        forall o | o in s.devices ensures Agrees(s.devices[o], CardOf(front, o)) { RowIsCard(front, o); }
        MovedCard(front, e, id);
      }
    }
  }

  lemma NotBoth(s: State, e: Event)
    requires Runs(s, e)
    ensures !Renames(s, e) && !Merges(s, e)
  {
  }
}
