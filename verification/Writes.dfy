/** What every message and request adds to the tables and puts on the wire, written out without the handlers. */
module Writes {
  import opened Domain
  import opened Protocol
  import opened Invariants
  import opened Reachable
  import opened History
  import opened AlertClock
  import opened Identity
  import opened Ingestion
  import opened Spelling
  import opened Ledger
  import opened Requests
  import opened Lifecycle

  // --------------------------------------------------------------- what is written

  /** Status-log entries: every valid status report, every other change of the alert, and a sensor message's release and
      timeout one by one. */
  function GainedEntries(c: Card, e: Event): seq<StatusEntry> {
    var alert := AlertAfterEvent(c, e);
    match e.action
    case StatusReport(level, _) => if level == LInfo || level == LOther then [] else [StatusEntry(e.now, e.id, alert)]
    case Sensors(_, data) =>
      (if c.Released(e.now) then [StatusEntry(e.now, e.id, Alert(Ok, ""))] else []) +
      (if c.Overdue(e.now) || (!c.Released(e.now) && c.Recovers(data)) then [StatusEntry(e.now, e.id, alert)] else [])
    case _ => if alert != c.alert then [StatusEntry(e.now, e.id, alert)] else []
  }

  function GainedReadings(c: Card, e: Event): seq<Reading> {
    if e.action.Sensors? && c.settings.approved then IngestedReadings(e.action.data, e.id, e.now) else []
  }

  /** The command that restores one value: an offset by its bare metric name. */
  function RestoringBody(key: string, value: real): Body {
    if |key| >= 4 && key[..4] == "cal_" then SetOffset(key[4..], value) else SetCalibration(key, value)
  }

  /** What the server publishes while it handles the event, in order, if the broker is up. */
  function MailsOf(c: Card, mirror: Mirror, rows: seq<Command>, e: Event): seq<(Body, Cause)> {
    match e.action
    case UserCommand(body, upAgain) =>
      [(body, Direct)] + if upAgain then [(Plain("request_capabilities", ""), Request)] else []
    case RequestCaps => [(Plain("request_capabilities", ""), Request), (Plain("request_commands", ""), Request)]
    case ConfirmUplink => if c.settings.diag then [(Plain("set_confirm_uplink", ""), Direct)] else []
    case Offset(metric, value) => if OffsetMetric(metric) then [(SetOffset(metric, Round2(value)), Direct)] else []
    case CalibrationValue(key, value) =>
      if CalibrationKey(key) then [(SetCalibration(key, Round4(value)), Direct)] else []
    case OtaPush(f) =>
      if c.settings.ota && c.settings.code == Some(f.hwCode) && c.settings.revision == Some(f.hwRev)
      then [(OtaUpdate(f.version, f.hwCode, f.hwRev), Push)] else []
    case Capabilities(r) =>
      if r.storeEmpty
      then seq(|mirror|, i requires 0 <= i < |mirror| => (RestoringBody(mirror[i].0, mirror[i].1), Repush))
      else []
    case Sensors(_, _) =>
      (if c.Awake(e.now) then [] else WakeUpMails(c, rows, e.id)) +
      if c.Polls(e.now) then [(Plain("get_diag", ""), DiagPoll)] else []
    case _ => []
  }

  /** A waking device is sent its pending commands again, then asked for what it can do. */
  function WakeUpMails(c: Card, rows: seq<Command>, id: Id): seq<(Body, Cause)> {
    var pending := PendingBodies(rows, id);
    seq(|pending|, i requires 0 <= i < |pending| => (pending[i], Flush)) +
    [(Plain("request_capabilities", ""), WakeUp), (Plain("request_commands", ""), WakeUp)] +
    if c.settings.diag then [(Plain("get_status", ""), WakeUp)] else []
  }

  function Posted(c: Card, mails: seq<(Body, Cause)>, e: Event): seq<Publish> {
    seq(|mails|, i requires 0 <= i < |mails| => Publish(e.now, c.kind, e.id, mails[i].0, mails[i].1))
  }

  function GainedWire(c: Card, mirror: Mirror, rows: seq<Command>, e: Event): seq<Publish> {
    if e.up then Posted(c, MailsOf(c, mirror, rows, e), e) else []
  }

  /** The requests that leave a row in the command table: the first command they publish. */
  predicate IsLogged(a: Action) {
    a.UserCommand? || a.RequestCaps? || a.ConfirmUplink? || a.Offset? || a.CalibrationValue? || a.OtaPush?
  }

  function GainedCommands(c: Card, pk: nat, e: Event): seq<Command> {
    if e.up && IsLogged(e.action) && MailsOf(c, [], [], e) != []
    then [Command(pk, e.id, MailsOf(c, [], [], e)[0].0, e.now, Pending, false, None)]
    else []
  }

  // ----------------------------------------------------------------- one handler

  /** The handler adds these entries and readings, these publishes and these commands, and no others. */
  ghost predicate Wrote(x: Session, y: Session, c: Card, e: Event) {
    && y.statusLog == x.statusLog + GainedEntries(c, e)
    && y.readings == x.readings + GainedReadings(c, e)
    && y.wire == x.wire + GainedWire(c, x.device.calibration, x.commands, e)
    && var gained := GainedCommands(c, x.nextPk, e);
    && |y.commands| == |x.commands| + |gained| && y.commands[|x.commands|..] == gained
    && y.nextPk == x.nextPk + |gained|
  }

  lemma CommandWrites(x: Session, c: Card, e: Event)
    requires e.action.UserCommand? || e.action.RequestCaps?
    requires Agrees(x.device, c) && x.id == e.id
    ensures Wrote(x, Handle(x, false, e), c, e)
  {
    hide Values;
  }

  lemma PushWrites(x: Session, c: Card, e: Event)
    requires e.action.ConfirmUplink? || e.action.OtaPush?
    requires Agrees(x.device, c) && x.id == e.id
    ensures Wrote(x, Handle(x, false, e), c, e)
  {
    hide Values;
  }

  lemma CalibrationWrites(x: Session, c: Card, e: Event)
    requires e.action.Offset? || e.action.CalibrationValue?
    requires Agrees(x.device, c) && x.id == e.id
    ensures Wrote(x, Handle(x, false, e), c, e)
  {
    hide Values, Round2, Round4, Put, Letters, AllSafe;
    if e.action.CalibrationValue? { LettersAre(e.action.key); }
  }

  lemma StatusWrites(x: Session, c: Card, e: Event)
    requires e.action.StatusReport? && Agrees(x.device, c) && x.id == e.id
    ensures Wrote(x, Handle(x, false, e), c, e)
  {
    hide Values, Stored;
  }

  lemma DiagWrites(x: Session, c: Card, e: Event)
    requires e.action.Diag? && Agrees(x.device, c) && x.id == e.id
    ensures Wrote(x, Handle(x, false, e), c, e)
  {
    hide OnDiag, Values, Stored;
    DiagColumns(x, e.now, e.action.level, e.action.message);
    DiagLog(x, e.now, e.action.level, e.action.message);
  }

  lemma DiagLog(x: Session, now: int, level: ReportedLevel, message: Option<string>)
    ensures var y := OnDiag(x, now, level, message);
            && y.statusLog == x.statusLog + (if y.device.alert != x.device.alert
                                             then [StatusEntry(now, x.id, y.device.alert)] else [])
            && y.commands == x.commands && y.nextPk == x.nextPk && y.wire == x.wire && y.readings == x.readings
  {
    hide Truncate;
  }

  lemma CapabilitiesWrites(x: Session, c: Card, e: Event)
    requires e.action.Capabilities? && Agrees(x.device, c) && DeviceOk(x.device, e.now) && x.id == e.id
    ensures Wrote(x, Handle(x, false, e), c, e)
  {
    hide Values, MirrorOk;
  }

  lemma QuietWrites(x: Session, c: Card, e: Event)
    requires e.action.CommandList? || e.action.Calibration? || e.action.Ack? || e.action.Edit? || e.action.Approve?
    requires x.id == e.id
    ensures Wrote(x, Handle(x, false, e), c, e)
  {
    hide Values, ReportedMirror, PutOffset;
  }

  lemma SensorsLog(x: Session, c: Card, created: bool, e: Event)
    requires e.action.Sensors? && Agrees(x.device, c) && (created <==> c.heard.None?) && DeviceOk(x.device, e.now)
    requires x.id == e.id
    ensures OnSensors(x, created, e.now, e.up, e.action.data).statusLog == x.statusLog + GainedEntries(c, e)
  {
    hide Receive, Ingest, Values, MirrorOk, BatteryLevel;
    SensorsReceived(x, c, created, e);
    ReceivedLog(x, c, created, e);
    IngestedLog(Receive(x, created, e.now, e.up), e.now, e.up, e.action.data);
    BatteryLevelIs(e.action.data, e.id, e.now);
  }

  lemma ReceivedLog(x: Session, c: Card, created: bool, e: Event)
    requires e.action.Sensors? && Agrees(x.device, c) && (created <==> c.heard.None?) && DeviceOk(x.device, e.now)
    requires x.id == e.id
    ensures Receive(x, created, e.now, e.up).statusLog ==
            x.statusLog + (if c.Released(e.now) then [StatusEntry(e.now, e.id, Alert(Ok, ""))] else []) +
            if c.Overdue(e.now) then [StatusEntry(e.now, e.id, Alert(Error, "no_capabilities_response"))] else []
  {
    hide Values, MirrorOk, WakeUpResync, Settle, ExpireOta;
    var r := Reconcile(Heard(x, e.now), e.now);
    WindowsAre(x.device, c, created, e.now);
    ReconcileColumns(x, e.now);
    ExpireKeepsRow(r, e.now);
    ResyncKeepsLog(ExpireOta(r, e.now), e.now, e.up);
  }

  lemma {:induction false} IngestedLog(x: Session, now: int, up: bool, data: Payload)
    ensures var level := LatestBattery(NewReadings(data, x.id, now), x.id);
            var recovered := level.Some? && level.value > 20.0 && x.device.alert == Alert(Warning, "low_battery");
            Ingest(x, now, up, data).statusLog ==
            x.statusLog + if recovered then [StatusEntry(now, x.id, Alert(Ok, ""))] else []
  {
    hide NewReadings, LatestBattery, DiagDue;
  }

  lemma SensorsMail(x: Session, c: Card, created: bool, e: Event)
    requires e.action.Sensors? && Agrees(x.device, c) && (created <==> c.heard.None?) && SessionOk(x, e.now)
    requires x.id == e.id
    ensures OnSensors(x, created, e.now, e.up, e.action.data).wire ==
            x.wire + GainedWire(c, x.device.calibration, x.commands, e)
  {
    hide OnSensors, Values, MirrorOk, PollDue, PendingBodies, CommandsOk, LogOk, ReadingsOk, WakeBatch, WakeUpMails;
    SensorsWire(x, created, e);
    PollsIs(x, c, created, e);
    PollDueIs(x, created, e);
    WindowsAre(x.device, c, created, e.now);
    WakeUpPosted(x, c, e);
  }

  lemma WakeUpPosted(x: Session, c: Card, e: Event)
    requires Agrees(x.device, c) && x.id == e.id
    ensures Posted(c, WakeUpMails(c, x.commands, e.id), e) == WakeBatch(x.device, x.commands, x.id, e.now)
  {
    hide PendingBodies, Values;
  }

  lemma SensorsWrite(x: Session, c: Card, created: bool, e: Event)
    requires e.action.Sensors? && Agrees(x.device, c) && (created <==> c.heard.None?) && SessionOk(x, e.now)
    requires x.id == e.id
    ensures Wrote(x, Handle(x, created, e), c, e)
  {
    hide OnSensors, Values, SessionOk, DeviceOk, GainedEntries, IngestedReadings, GainedWire, NewReadings;
    SoundRow(x, e.now);
    SensorsLog(x, c, created, e);
    SensorsReadings(x, created, e);
    NewReadingsAre(e.action.data, e.id, e.now);
    SensorsMail(x, c, created, e);
    SensorsKeys(x, created, e);
  }

  lemma SoundRow(x: Session, now: int)
    requires SessionOk(x, now)
    ensures DeviceOk(x.device, now)
  {
  }

  lemma SensorsKeys(x: Session, created: bool, e: Event)
    requires e.action.Sensors?
    ensures var y := OnSensors(x, created, e.now, e.up, e.action.data);
            |y.commands| == |x.commands| && y.nextPk == x.nextPk
  {
    hide Receive, Ingest;
    ReceiveAddsNone(x, created, e.now, e.up);
    IngestAddsNone(Receive(x, created, e.now, e.up), e.now, e.up, e.action.data);
  }

  lemma ReceiveAddsNone(x: Session, created: bool, now: int, up: bool)
    ensures var y := Receive(x, created, now, up);
            |y.commands| == |x.commands| && y.nextPk == x.nextPk
  {
    hide FlushBodies, Published;
  }

  lemma IngestAddsNone(x: Session, now: int, up: bool, data: Payload)
    ensures var y := Ingest(x, now, up, data);
            y.commands == x.commands && y.nextPk == x.nextPk
  {
    hide NewReadings, LatestBattery, DiagDue;
  }

  lemma HandlerWrites(x: Session, c: Card, created: bool, e: Event)
    requires IsSessionAction(e.action) && Agrees(x.device, c) && SessionOk(x, e.now) && x.id == e.id
    requires (created <==> c.heard.None?) && (created ==> e.action.Sensors?)
    ensures Wrote(x, Handle(x, created, e), c, e)
  {
    hide Handle, Agrees, SessionOk, DeviceOk, Wrote;
    SoundRow(x, e.now);
    if e.action.Sensors? {
      SensorsWrite(x, c, created, e);
    } else if e.action.StatusReport? {
      StatusWrites(x, c, e);
    } else if e.action.Diag? {
      DiagWrites(x, c, e);
    } else if e.action.Capabilities? {
      CapabilitiesWrites(x, c, e);
    } else if e.action.UserCommand? || e.action.RequestCaps? {
      CommandWrites(x, c, e);
    } else if e.action.ConfirmUplink? || e.action.OtaPush? {
      PushWrites(x, c, e);
    } else if e.action.Offset? || e.action.CalibrationValue? {
      CalibrationWrites(x, c, e);
    } else {
      QuietWrites(x, c, e);
    }
  }

  // -------------------------------------------------------------------- over runs

  /** In every run a message or request for a known device (or one just discovered) adds to the tables and to the wire
      exactly what its card says, in that order. */
  lemma {:induction false} EventWrites(es: seq<Event>, e: Event)
    requires Timed(es + [e]) && Runs(Run(es), e)
    ensures var s, s', c := Run(es), Run(es + [e]), CardBefore(es, e, e.id);
            var gained := GainedCommands(c, s.nextPk, e);
            && s'.statusLog == s.statusLog + GainedEntries(c, e)
            && s'.readings == s.readings + GainedReadings(c, e)
            && s'.wire == s.wire + GainedWire(c, Opened(s, e).device.calibration, s.commands, e)
            && |s'.commands| == |s.commands| + |gained| && s'.commands[|s.commands|..] == gained
            && s'.nextPk == s.nextPk + |gained|
  {
    hide Run, Step, Handle, CardOf, Agrees, GainedEntries, GainedReadings, GainedWire, GainedCommands, SessionOk, Grows;
    assert (es + [e])[..|es + [e]| - 1] == es;
    Front(es + [e]);
    RunStep(es + [e]);
    var s := Run(es);
    if e.id in s.devices { RowIsCard(es, e.id); }
    OpenedCard(es, e);
    Effect(s, e);
    HandlerWrites(Opened(s, e), CardBefore(es, e, e.id), e.id !in s.devices, e);
  }

  /** A message or request for an unknown device, a discovery aside, changes nothing at all. */
  lemma {:induction false} UnknownIsIgnored(es: seq<Event>, e: Event)
    requires e.id !in Run(es).devices && !e.action.Sensors?
    ensures Run(es + [e]) == Run(es)
  {
    hide Run;
    assert (es + [e])[..|es + [e]| - 1] == es;
    RunStep(es + [e]);
  }

  /** A capabilities message releases the alert the server raised for a missing answer, and logs it; any other alert,
      its clock and the log stay as they were. */
  lemma {:induction false} CapabilitiesRelease(es: seq<Event>, e: Event)
    requires Timed(es + [e]) && e.action.Capabilities? && e.id in Run(es).devices
    ensures var s, s' := Run(es), Run(es + [e]);
            && e.id in s'.devices
            && var d, d' := s.devices[e.id], s'.devices[e.id];
            if d.alert == Alert(Error, "no_capabilities_response")
            then d'.alert == Alert(Ok, "") && d'.alertUpdatedAt == None &&
                 s'.statusLog == s.statusLog + [StatusEntry(e.now, e.id, Alert(Ok, ""))]
            else d'.alert == d.alert && d'.alertUpdatedAt == d.alertUpdatedAt && s'.statusLog == s.statusLog
  {
    hide Run, Step, CardOf, Values, GainedReadings, GainedWire, GainedCommands, Inv;
    BothCards(es, e);
    EventWrites(es, e);
  }

  /** A warning or error report on the status topic latches its own level, with the first 256 characters of its
      message or the text shown before, starts the alert's clock and is logged,
          changed or not; ok and empty clear and are logged;
      any other level changes neither alert nor log. */
  lemma {:induction false} StatusIsLatched(es: seq<Event>, e: Event)
    requires Timed(es + [e]) && e.action.StatusReport? && e.id in Run(es).devices
    ensures var s, s', level := Run(es), Run(es + [e]), e.action.level;
            && e.id in s'.devices
            && var d, d' := s.devices[e.id], s'.devices[e.id];
            var text := TextOf(e.action.message, d.alert.message);
            if level == LWarning || level == LError then
              && d'.alert == Alert(if level == LError then Error else Warning, text) && d'.alertUpdatedAt == Some(e.now)
              && s'.statusLog == s.statusLog + [StatusEntry(e.now, e.id, d'.alert)]
            else if level == LOk || level == LEmpty then
              && d'.alert == Alert(Ok, "") && d'.alertUpdatedAt == None
              && s'.statusLog == s.statusLog + [StatusEntry(e.now, e.id, d'.alert)]
            else d'.alert == d.alert && s'.statusLog == s.statusLog
  {
    hide Run, Step, CardOf, Values, GainedReadings, GainedWire, GainedCommands, Inv, TextOf;
    BothCards(es, e);
    EventWrites(es, e);
  }

  /** A diagnostics report latches its level and its own text alone, and is logged only when the alert changes; ok and
      info clear; a missing or unknown level changes neither alert nor log. */
  lemma {:induction false} DiagIsLatched(es: seq<Event>, e: Event)
    requires Timed(es + [e]) && e.action.Diag? && e.id in Run(es).devices
    ensures var s, s', level := Run(es), Run(es + [e]), e.action.level;
            && e.id in s'.devices
            && var d, d' := s.devices[e.id], s'.devices[e.id];
            && d'.alert == (if level == LWarning || level == LError
                            then Alert(if level == LError then Error else Warning, TextOf(e.action.message, ""))
                            else if level == LOk || level == LInfo then Alert(Ok, "") else d.alert)
            && (level == LWarning || level == LError ==> d'.alertUpdatedAt == Some(e.now))
            && s'.statusLog == s.statusLog + if d'.alert != d.alert then [StatusEntry(e.now, e.id, d'.alert)] else []
  {
    hide Run, Step, CardOf, Values, GainedReadings, GainedWire, GainedCommands, Inv, TextOf;
    BothCards(es, e);
    EventWrites(es, e);
  }

  /** The cards of a known device before and after an event on it, and that they are those of its rows. */
  lemma {:induction false} BothCards(es: seq<Event>, e: Event)
    requires Timed(es + [e]) && IsSessionAction(e.action) && e.id in Run(es).devices
    ensures Timed(es) && e.id in Run(es + [e]).devices
    ensures Agrees(Run(es).devices[e.id], CardOf(es, e.id))
    ensures Agrees(Run(es + [e]).devices[e.id], AfterEvent(CardOf(es, e.id), e))
    ensures CardBefore(es, e, e.id) == CardOf(es, e.id)
    ensures var d := Run(es).devices[e.id];
            && (d.alert.level == Ok <==> d.alertUpdatedAt.None?)
            && (d.alert.level == Ok ==> d.alert == Alert(Ok, ""))
  {
    hide Run, Step, CardOf, Agrees, AfterEvent, Inv;
    assert (es + [e])[..|es + [e]| - 1] == es && (es + [e])[|es + [e]| - 1] == e;
    Front(es + [e]);
    RunStep(es + [e]);
    StaysKnown(Run(es), e);
    RowIsCard(es, e.id);
    RowIsCard(es + [e], e.id);
    ReportCard(es, e);
    RunKeeps(es);
    ClockOfRow(Run(es), e.id, Clock(es));
  }

  lemma StaysKnown(s: State, e: Event)
    requires Inv(s, e.now) && Runs(s, e)
    ensures e.id in Step(s, e).devices
  {
    hide Step, Handle, SessionOk, Recorded;
    Effect(s, e);
  }

  lemma ClockOfRow(s: State, id: Id, now: int)
    requires Inv(s, now) && id in s.devices
    ensures s.devices[id].alert.level == Ok <==> s.devices[id].alertUpdatedAt.None?
    ensures s.devices[id].alert.level == Ok ==> s.devices[id].alert == Alert(Ok, "")
  {
    assert RowOk(s, id, now);
  }

  lemma {:induction false} ReportCard(es: seq<Event>, e: Event)
    requires IsSessionAction(e.action) && e.id in Run(es).devices
    ensures CardOf(es + [e], e.id) == AfterEvent(CardOf(es, e.id), e)
    ensures CardBefore(es, e, e.id) == CardOf(es, e.id) && Opened(Run(es), e).device == Run(es).devices[e.id]
  {
    hide Run, AfterEvent;
    assert (es + [e])[..|es + [e]| - 1] == es && (es + [e])[|es + [e]| - 1] == e;
  }

  /** A user's command goes out word for word and leaves one pending row, then the server asks for capabilities again if
      the broker is still there; with the broker down nothing is sent or written. */
  lemma {:induction false} UserCommandIsSent(es: seq<Event>, e: Event)
    requires e.action.UserCommand? && e.id in Run(es).devices
    ensures var s, s' := Run(es), Run(es + [e]);
            var kind, body := s.devices[e.id].deviceType, e.action.body;
            var again := [Publish(e.now, kind, e.id, Plain("request_capabilities", ""), Request)];
            if !e.up then s' == s
            else
              && s'.wire == s.wire + [Publish(e.now, kind, e.id, body, Direct)] +
                  (if e.action.upAgain then again else [])
              && s'.commands == s.commands + [Command(s.nextPk, e.id, body, e.now, Pending, false, None)]
              && s'.statusLog == s.statusLog && s'.readings == s.readings
  {
    hide Run;
    assert (es + [e])[..|es + [e]| - 1] == es;
    RunStep(es + [e]);
    assert Run(es).devices[e.id := Run(es).devices[e.id]] == Run(es).devices;
  }

  // --------------------------------------------------------- logged means published

  /** The command went out with these words at the time its row tells. */
  ghost predicate WasSent(wire: seq<Publish>, c: Command) {
    exists k :: 0 <= k < |wire| && wire[k].body == c.body && wire[k].at == c.sentAt
  }

  lemma SentStays(wire: seq<Publish>, more: seq<Publish>, c: Command, d: Command)
    requires wire <= more && WasSent(wire, c) && d.body == c.body && d.sentAt == c.sentAt
    ensures WasSent(more, d)
  {
    var k :| 0 <= k < |wire| && wire[k].body == c.body && wire[k].at == c.sentAt;
    assert more[k] == wire[k];
  }

  lemma GainedWasSent(c: Card, mirror: Mirror, rows: seq<Command>, pk: nat, e: Event, wire: seq<Publish>)
    requires GainedCommands(c, pk, e) != []
    ensures WasSent(wire + GainedWire(c, mirror, rows, e), GainedCommands(c, pk, e)[0])
  {
    hide PendingBodies, Letters;
    assert (wire + GainedWire(c, mirror, rows, e))[|wire|] == GainedWire(c, mirror, rows, e)[0];
  }

  /** In every run every command in the log was published, word for word, at the time its row tells. */
  lemma {:induction false} LoggedWasSent(es: seq<Event>, j: nat)
    requires Timed(es) && j < |Run(es).commands|
    ensures WasSent(Run(es).wire, Run(es).commands[j])
  {
    hide Run, Step, WasSent, Inv, GainedEntries, GainedReadings, GainedWire, GainedCommands, CardOf;
    if es == [] {
      NoEvents();
    } else {
      var front, e := es[..|es| - 1], es[|es| - 1];
      var s := Run(front);
      assert front + [e] == es;
      Front(es);
      RunStep(es);
      if Runs(s, e) {
        EventWrites(front, e);
        if j < |s.commands| {
          LoggedWasSent(front, j);
          SameWords(s, e, j);
          SentStays(s.wire, Run(es).wire, s.commands[j], Run(es).commands[j]);
        } else {
          var c := CardBefore(front, e, e.id);
          assert Run(es).commands[j] == Run(es).commands[|s.commands|..][j - |s.commands|];
          AtMostOne(c, s.nextPk, e);
          GainedWasSent(c, Opened(s, e).device.calibration, s.commands, s.nextPk, e, s.wire);
        }
      } else {
        var i := MovedRow(s, e, j);
        LoggedWasSent(front, i);
        WireUnchanged(s, e);
        SentStays(s.wire, Run(es).wire, s.commands[i], Run(es).commands[j]);
      }
    }
  }

  lemma AtMostOne(c: Card, pk: nat, e: Event)
    ensures |GainedCommands(c, pk, e)| <= 1
  {
    hide MailsOf;
  }

  lemma SameWords(s: State, e: Event, j: nat)
    requires Inv(s, e.now) && Runs(s, e) && j < |s.commands|
    ensures j < |Step(s, e).commands|
    ensures Step(s, e).commands[j].body == s.commands[j].body && Step(s, e).commands[j].sentAt == s.commands[j].sentAt
  {
    hide Step, Handle, SessionOk, Recorded;
    Effect(s, e);
    assert Advances(s.commands[j], After(s, e).commands[j], e.id, e.now);
  }

  /** Where a row came from that an event on a known device only moved or left. */
  lemma MovedRow(s: State, e: Event, j: nat) returns (i: nat)
    requires Inv(s, e.now) && !Runs(s, e) && j < |Step(s, e).commands|
    ensures i < |s.commands| && Step(s, e).commands[j].body == s.commands[i].body
    ensures Step(s, e).commands[j].sentAt == s.commands[i].sentAt
  {
    hide Step;
    StructuralDescends(s, e, j);
    KeysBelow(s, e, j);
    i :| 0 <= i < |s.commands| && Evolves(s.commands[i], Step(s, e).commands[j]);
  }

  lemma KeysBelow(s: State, e: Event, j: nat)
    requires Inv(s, e.now) && !Runs(s, e) && j < |Step(s, e).commands|
    ensures Step(s, e).commands[j].pk < s.nextPk
  {
    hide Step, Handle, LogOk, ReadingsOk, RowOk, Referential;
    StepKeeps(s, e);
    NoNewKeys(s, e);
  }

  lemma WireUnchanged(s: State, e: Event)
    requires !Runs(s, e)
    ensures Step(s, e).wire == s.wire
  {
  }
}
