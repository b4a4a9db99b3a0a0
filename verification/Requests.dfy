/** Capabilities requests, the online window and what a waking device is sent. */
module Requests {
  import opened Domain
  import opened Protocol
  import opened Invariants
  import opened Reachable
  import opened History
  import opened AlertClock

  // ------------------------------------------------------------ last message

  /** Time of the latest message that proved the device now called `id` alive; a merge inherits both sides'. */
  function LastHeard(es: seq<Event>, id: Id): Option<int> {
    if es == [] then None
    else
      var front, e := es[..|es| - 1], es[|es| - 1];
      var s := Run(front);
      if e.id == id && Runs(s, e) && Hears(e.action) then Some(e.now)
      else if Merges(s, e) && id == e.action.target then Protocol.Later(LastHeard(front, e.id), LastHeard(front, id))
      else
        match Prior(s, e, id)
        case None => None
        case Some(p) => LastHeard(front, p)
  }

  function SeenAt(s: State, id: Id): Option<int> { if id in s.devices then s.devices[id].lastSeen else None }

  lemma SeenStep(s: State, e: Event, id: Id)
    requires Inv(s, e.now) && id in Step(s, e).devices
    ensures SeenAt(Step(s, e), id) ==
            if e.id == id && Runs(s, e) && Hears(e.action) then Some(e.now)
            else if Merges(s, e) && id == e.action.target then Protocol.Later(SeenAt(s, e.id), SeenAt(s, id))
            else match Prior(s, e, id) case None => None case Some(p) => SeenAt(s, p)
  {
    hide Step, Handle;
    if Runs(s, e) {
      Effect(s, e);
      LastSeenAfter(Opened(s, e), e.id !in s.devices, e);
    } else {
      StructuralSeen(s, e, id);
    }
  }

  lemma StructuralSeen(s: State, e: Event, id: Id)
    requires !Runs(s, e) && id in Step(s, e).devices
    ensures SeenAt(Step(s, e), id) ==
            if Merges(s, e) && id == e.action.target then Protocol.Later(SeenAt(s, e.id), SeenAt(s, id))
            else match Prior(s, e, id) case None => None case Some(p) => SeenAt(s, p)
  {
  }

  /** `last_seen` is the time of the latest sensors, status, diag, commands or calibration message,
      in every run; capabilities and ack messages leave it alone. */
  lemma {:induction false} LastSeenIsLastHeard(es: seq<Event>, id: Id)
    requires Timed(es) && id in Run(es).devices
    ensures Run(es).devices[id].lastSeen == LastHeard(es, id) && LastHeard(es, id).Some?
  {
    hide Step;
    if es != [] {
      var front, e := es[..|es| - 1], es[|es| - 1];
      var s := Run(front);
      Front(es);
      RunStep(es);
      SeenStep(s, e, id);
      PriorKnown(s, e, id);
      if Merges(s, e) && id == e.action.target {
        LastSeenIsLastHeard(front, e.id);
        LastSeenIsLastHeard(front, id);
      } else if Prior(s, e, id).Some? {
        LastSeenIsLastHeard(front, Prior(s, e, id).value);
      }
      RunKeeps(es);
      assert RowOk(Run(es), id, e.now);
    }
  }

  // -------------------------------------------------------------- wake-up wire

  /** Commands of the device still waiting for an outcome, firmware pushes aside, oldest first. */
  function PendingBodies(rows: seq<Command>, id: Id): seq<Body> {
    if rows == [] then []
    else
      var c := rows[|rows| - 1];
      PendingBodies(rows[..|rows| - 1], id) +
      if c.device == id && c.status == Pending && c.body.Action() != "ota_update" then [c.body] else []
  }

  /** The flush filter (not acked) selects the commands that are still pending, and firmware pushes that
      just expired do not matter to it. */
  lemma {:induction false} FlushIsPending(rows: seq<Command>, q: Selection, now: int)
    requires q.OtaOlderThan? && forall i :: 0 <= i < |rows| ==> CommandOk(rows[i])
    ensures FlushBodies(Settle(rows, q, TimedOut, now), q.device) == PendingBodies(rows, q.device)
  {
    if rows != [] {
      var front := rows[..|rows| - 1];
      assert Settle(rows, q, TimedOut, now)[..|rows| - 1] == Settle(front, q, TimedOut, now);
      assert CommandOk(rows[|rows| - 1]);
      FlushIsPending(front, q, now);
    }
  }

  function WakeBodies(d: Device): seq<Body> {
    [REQUEST_CAPABILITIES, REQUEST_COMMANDS] + if d.diagCapable then [GET_STATUS] else []
  }

  /** What a waking device is sent. */
  function WakeBatch(d: Device, rows: seq<Command>, id: Id, now: int): seq<Publish> {
    Published(now, d.deviceType, id, PendingBodies(rows, id), Flush) +
    Published(now, d.deviceType, id, WakeBodies(d), WakeUp)
  }

  lemma ReceiveWire(x: Session, created: bool, now: int, up: bool)
    requires CommandsOk(x.commands, x.nextPk, now)
    ensures Receive(x, created, now, up).wire ==
            x.wire + if Wakes(x.device, created, now) && up then WakeBatch(x.device, x.commands, x.id, now) else []
  {
    hide FlushBodies, PendingBodies, WakeUpResync, Settle, ExpireOta, Reconcile, CommandsOk;
    var y := ExpireOta(Reconcile(Heard(x, now), now), now);
    BeforeWake(x, now);
    RowsOk(x.commands, x.nextPk, now);
    FlushIsPending(x.commands, OtaOlderThan(x.id, now - y.device.OtaTimeout()), now);
    WakeUpWire(y, now);
  }

  lemma RowsOk(rows: seq<Command>, nextPk: nat, now: int)
    requires CommandsOk(rows, nextPk, now)
    ensures forall i :: 0 <= i < |rows| ==> CommandOk(rows[i])
  {
  }

  lemma BeforeWake(x: Session, now: int)
    ensures var y := ExpireOta(Reconcile(Heard(x, now), now), now);
            && y.id == x.id && y.wire == x.wire
            && y.device.deviceType == x.device.deviceType && y.device.diagCapable == x.device.diagCapable
            && y.commands == Settle(x.commands, OtaOlderThan(x.id, now - y.device.OtaTimeout()), TimedOut, now)
    ensures WakeUpResync(ExpireOta(Reconcile(Heard(x, now), now), now), now, false).wire == x.wire
  {
  }

  lemma WakeUpWire(y: Session, now: int)
    ensures WakeUpResync(y, now, true).wire ==
            y.wire + (Published(now, y.device.deviceType, y.id, FlushBodies(y.commands, y.id), Flush) +
                      Published(now, y.device.deviceType, y.id, WakeBodies(y.device), WakeUp))
  {
  }

  lemma IngestWire(x: Session, now: int, up: bool, data: Payload)
    ensures Ingest(x, now, up, data).wire ==
            x.wire + if DiagDue(x.device, now) && up
                     then [Publish(now, x.device.deviceType, x.id, GET_DIAG, DiagPoll)] else []
  {
  }

  /** The alert is still latched when a sensor message reaches the automatic poll: the capabilities timeout has
      just fired, or the message released nothing. */
  predicate StaysFlagged(d: Device, created: bool, e: Event) {
    TimeoutFires(d, created, e) ||
    (d.alert.level != Ok && d.alert.message != NO_CAPABILITIES_ALERT &&
     (d.alertUpdatedAt.Some? ==> e.now - d.alertUpdatedAt.value <= d.Window()))
  }

  /** A sensor message polls an approved, capable device that stays flagged, unless its battery is low or the
      cooldown has not passed. */
  predicate PollDue(d: Device, created: bool, e: Event) {
    && d.isApproved && d.diagCapable && !d.IsBatteryLow() && StaysFlagged(d, created, e)
    && (d.diagRequestedAt.Some? ==> 10 * (e.now - d.diagRequestedAt.value) >= d.TenCooldowns())
  }

  lemma PollDueIs(x: Session, created: bool, e: Event)
    requires e.action.Sensors?
    ensures var r := Receive(x, created, e.now, e.up).device;
            PollDue(x.device, created, e) <==> r.isApproved && DiagDue(r, e.now)
  {
    hide Receive;
    ReceiveColumns(x, created, e.now, e.up);
  }

  /** A sensor message resynchronises its device exactly when the device is new or nothing was heard from it
      for a whole online window; then the wire gains the pending commands in the order they were sent, the
      two requests and, for diagnostics-capable devices only, get_status. Beyond that it gains one automatic
      get_diag exactly when a poll is due, and nothing else. */
  lemma {:induction false} WakeUpTrace(es: seq<Event>, e: Event)
    requires Timed(es + [e]) && e.action.Sensors?
    ensures var s, s' := Run(es), Run(es + [e]);
            var known := e.id in s.devices;
            && (known ==> LastHeard(es, e.id).Some?)
            && var d := Opened(s, e).device;
               var woke := !known || e.now - LastHeard(es, e.id).value >= d.Window();
               s'.wire == s.wire + (if woke && e.up then WakeBatch(d, s.commands, e.id, e.now) else []) +
                          if PollDue(d, !known, e) && e.up
                          then [Publish(e.now, d.deviceType, e.id, GET_DIAG, DiagPoll)] else []
  {
    hide Step, LastHeard, Receive, Ingest, OnSensors, Run, PollDue;
    var s := Run(es);
    assert (es + [e])[..|es + [e]| - 1] == es;
    Front(es + [e]);
    RunStep(es + [e]);
    Effect(s, e);
    if e.id in s.devices { LastSeenIsLastHeard(es, e.id); }
    SensorsWire(Opened(s, e), e.id !in s.devices, e);
  }

  lemma SensorsWire(x: Session, created: bool, e: Event)
    requires e.action.Sensors? && CommandsOk(x.commands, x.nextPk, e.now)
    ensures var d := x.device;
            OnSensors(x, created, e.now, e.up, e.action.data).wire ==
            x.wire + (if Wakes(d, created, e.now) && e.up then WakeBatch(d, x.commands, x.id, e.now) else []) +
            if PollDue(d, created, e) && e.up then [Publish(e.now, d.deviceType, x.id, GET_DIAG, DiagPoll)] else []
  {
    hide Receive, Ingest, WakeBatch, CommandsOk, PollDue, DiagDue;
    ReceiveColumns(x, created, e.now, e.up);
    ReceiveWire(x, created, e.now, e.up);
    PollDueIs(x, created, e);
    var r := Receive(x, created, e.now, e.up);
    IngestWire(r, e.now, e.up, e.action.data);
    assert r.wire + [] == r.wire;
  }

  // ----------------------------------------------------- capabilities requests

  /** The event asks the device for its capabilities. */
  predicate Asks(s: State, e: Event) {
    && e.up && Runs(s, e)
    && ((e.action.UserCommand? && e.action.upAgain) || e.action.RequestCaps? ||
        (e.action.Sensors? && Wakes(Opened(s, e).device, e.id !in s.devices, e.now)))
  }

  /** The event ends the wait for an answer: the answer itself, or the timeout. */
  predicate Answers(s: State, e: Event) {
    e.id in s.devices && (e.action.Capabilities? || TimeoutFires(s.devices[e.id], false, e))
  }

  /** When the request the device now called `id` still owes an answer to was sent, if there is one. */
  function RequestedAt(es: seq<Event>, id: Id): Option<int> {
    if es == [] then None
    else
      var s, e := Run(es[..|es| - 1]), es[|es| - 1];
      if e.id == id && Asks(s, e) then Some(e.now)
      else if e.id == id && Answers(s, e) then None
      else
        match Prior(s, e, id)
        case None => None
        case Some(p) => RequestedAt(es[..|es| - 1], p)
  }

  function TimerOf(s: State, id: Id): Option<int> {
    if id in s.devices then s.devices[id].capabilitiesRequestedAt else None
  }

  lemma TimerAfterSensors(x: Session, created: bool, e: Event)
    requires e.action.Sensors?
    ensures OnSensors(x, created, e.now, e.up, e.action.data).device.capabilitiesRequestedAt ==
            if Wakes(x.device, created, e.now) && e.up then Some(e.now)
            else if TimeoutFires(x.device, created, e) then None
            else x.device.capabilitiesRequestedAt
  {
    hide Receive, Ingest, Reconcile, NewReadings, LatestBattery;
    ReceiveColumns(x, created, e.now, e.up);
    IngestColumns(Receive(x, created, e.now, e.up), e.now, e.up, e.action.data);
  }

  lemma TimerAfter(s: State, e: Event)
    requires Runs(s, e)
    ensures After(s, e).device.capabilitiesRequestedAt ==
            if Asks(s, e) then Some(e.now)
            else if Answers(s, e) then None
            else Opened(s, e).device.capabilitiesRequestedAt
  {
    hide OnSensors;
    if e.action.Sensors? {
      TimerAfterSensors(Opened(s, e), e.id !in s.devices, e);
    } else {
      TimerAfterOthers(s, e);
    }
  }

  lemma TimerAfterOthers(s: State, e: Event)
    requires Runs(s, e) && !e.action.Sensors?
    ensures After(s, e).device.capabilitiesRequestedAt ==
            if Asks(s, e) then Some(e.now)
            else if Answers(s, e) then None
            else Opened(s, e).device.capabilitiesRequestedAt
  {
    hide OnSensors, Settle, RestoreCommands, ReportedMirror, Put, Acknowledge, Wakes;
  }

  lemma TimerStep(s: State, e: Event, id: Id)
    requires Inv(s, e.now) && id in Step(s, e).devices
    ensures TimerOf(Step(s, e), id) ==
            if e.id == id && Asks(s, e) then Some(e.now)
            else if e.id == id && Answers(s, e) then None
            else match Prior(s, e, id) case None => None case Some(p) => TimerOf(s, p)
  {
    hide Step, After, TimeoutFires, Wakes;
    if Runs(s, e) {
      Effect(s, e);
      TimerAfter(s, e);
    } else {
      StructuralTimer(s, e, id);
    }
  }

  lemma StructuralTimer(s: State, e: Event, id: Id)
    requires !Runs(s, e) && id in Step(s, e).devices
    ensures !Asks(s, e) && !Answers(s, e)
    ensures TimerOf(Step(s, e), id) == match Prior(s, e, id) case None => None case Some(p) => TimerOf(s, p)
  {
  }

  /** The timer runs exactly while a request is owed an answer, and shows when the latest one was sent. */
  lemma {:induction false} TimerIsOutstanding(es: seq<Event>, id: Id)
    requires Timed(es) && id in Run(es).devices
    ensures Run(es).devices[id].capabilitiesRequestedAt == RequestedAt(es, id)
  {
    hide Step, Asks, Answers, Prior;
    if es != [] {
      var front, e := es[..|es| - 1], es[|es| - 1];
      var s := Run(front);
      Front(es);
      RunStep(es);
      TimerStep(s, e, id);
      PriorKnown(s, e, id);
      if Prior(s, e, id).Some? { TimerIsOutstanding(front, Prior(s, e, id).value); }
    }
  }

  /** Requests sent to, and capabilities timeouts raised on, the device now called `id`. */
  function Asked(es: seq<Event>, id: Id): nat {
    if es == [] then 0
    else
      var s, e := Run(es[..|es| - 1]), es[|es| - 1];
      (match Prior(s, e, id) case None => 0 case Some(p) => Asked(es[..|es| - 1], p)) +
      if e.id == id && Asks(s, e) then 1 else 0
  }

  function Flagged(es: seq<Event>, id: Id): nat {
    if es == [] then 0
    else
      var s, e := Run(es[..|es| - 1]), es[|es| - 1];
      (match Prior(s, e, id) case None => 0 case Some(p) => Flagged(es[..|es| - 1], p)) +
      if e.id == id && e.id in s.devices && TimeoutFires(s.devices[id], false, e) then 1 else 0
  }

  /** Each request is blamed at most once, and only after it was owed an answer for longer than the
      timeout. */
  lemma {:induction false} TimeoutsNeedRequests(es: seq<Event>, id: Id)
    requires Timed(es) && id in Run(es).devices
    ensures Flagged(es, id) + (if RequestedAt(es, id).Some? then 1 else 0) <= Asked(es, id)
  {
    hide Step, Run;
    if es != [] {
      var front, e := es[..|es| - 1], es[|es| - 1];
      var s := Run(front);
      Front(es);
      RunStep(es);
      PriorKnown(s, e, id);
      var prior := Prior(s, e, id);
      if prior.Some? {
        TimeoutsNeedRequests(front, prior.value);
        TimerIsOutstanding(front, prior.value);
      }
      if e.id == id && id in s.devices && TimeoutFires(s.devices[id], false, e) { FiresOnTimer(s, e, id); }
    }
  }

  lemma FiresOnTimer(s: State, e: Event, id: Id)
    requires e.id == id && id in s.devices && TimeoutFires(s.devices[id], false, e)
    ensures Prior(s, e, id) == Some(id) && TimerOf(s, id).Some? && !Asks(s, e) && Answers(s, e)
    ensures e.now - TimerOf(s, id).value > s.devices[id].CapabilitiesTimeout()
  {
  }

  /** A capabilities timeout is raised only on a request that went unanswered for the whole timeout. */
  lemma {:induction false} TimeoutWaited(es: seq<Event>, e: Event)
    requires Timed(es + [e]) && e.id in Run(es).devices && TimeoutFires(Run(es).devices[e.id], false, e)
    ensures RequestedAt(es, e.id).Some?
    ensures e.now - RequestedAt(es, e.id).value > Run(es).devices[e.id].CapabilitiesTimeout()
  {
    hide Run, RequestedAt;
    assert (es + [e])[..|es + [e]| - 1] == es;
    Front(es + [e]);
    TimerIsOutstanding(es, e.id);
    FiresOnTimer(Run(es), e, e.id);
  }

  // -------------------------------------- the trace predicates are observable

  /** The server itself asked for capabilities from index `from` on; a user's own command, sent or flushed, does
      not count. */
  predicate RequestAmong(wire: seq<Publish>, from: nat) {
    exists i :: from <= i < |wire| && wire[i].body == REQUEST_CAPABILITIES &&
                (wire[i].cause == Request || wire[i].cause == WakeUp)
  }

  lemma SensorsRequest(x: Session, created: bool, e: Event)
    requires e.action.Sensors? && CommandsOk(x.commands, x.nextPk, e.now)
    ensures RequestAmong(OnSensors(x, created, e.now, e.up, e.action.data).wire, |x.wire|) <==>
            Wakes(x.device, created, e.now) && e.up
  {
    hide OnSensors, PendingBodies, CommandsOk, Wakes;
    var w := OnSensors(x, created, e.now, e.up, e.action.data).wire;
    SensorsWire(x, created, e);
    var n := |PendingBodies(x.commands, x.id)|;
    if Wakes(x.device, created, e.now) && e.up { assert w[|x.wire| + n].body == REQUEST_CAPABILITIES; }
  }

  lemma CapabilitiesRequestNothing(x: Session, now: int, up: bool, r: CapabilitiesReport)
    ensures !RequestAmong(OnCapabilities(x, now, up, r).wire, |x.wire|)
  {
  }

  lemma LoggedRequestNothing(x: Session, now: int, up: bool, body: Body, cause: Cause)
    requires cause == Direct || cause == Push
    ensures !RequestAmong(SendLogged(x, now, up, body, cause).wire, |x.wire|) && !RequestAmong(x.wire, |x.wire|)
  {
  }

  lemma RequestViewAsks(x: Session, now: int, up: bool)
    ensures RequestAmong(OnRequestCapabilities(x, now, up).wire, |x.wire|) <==> up
  {
    var w := OnRequestCapabilities(x, now, up).wire;
    if up { assert w[|x.wire|].body == REQUEST_CAPABILITIES; }
  }

  lemma CommandViewAsks(x: Session, now: int, up: bool, body: Body, upAgain: bool)
    ensures RequestAmong(OnUserCommand(x, now, up, body, upAgain).wire, |x.wire|) <==> up && upAgain
  {
    var w := OnUserCommand(x, now, up, body, upAgain).wire;
    if up && upAgain { assert w[|x.wire| + 1].body == REQUEST_CAPABILITIES; }
  }

  lemma WebRequest(x: Session, created: bool, e: Event)
    requires IsSessionAction(e.action) && !e.action.Sensors?
    ensures RequestAmong(Handle(x, created, e).wire, |x.wire|) <==>
            ((e.action.UserCommand? && e.action.upAgain) || e.action.RequestCaps?) && e.up
  {
    hide OnSensors, OnCapabilities, Settle, Put, ReportedMirror, SendLogged, RequestAmong, RequestCapabilities,
         OnRequestCapabilities, OnUserCommand, Acknowledge;
    LoggedRequestNothing(x, e.now, e.up, CONFIRM_UPLINK, Direct);
    match e.action
    case UserCommand(body, upAgain) => CommandViewAsks(x, e.now, e.up, body, upAgain);
    case RequestCaps => RequestViewAsks(x, e.now, e.up);
    case Capabilities(r) => CapabilitiesRequestNothing(x, e.now, e.up, r);
    case Offset(metric, value) => LoggedRequestNothing(x, e.now, e.up, SetOffset(metric, Round2(value)), Direct);
    case CalibrationValue(key, value) =>
      LoggedRequestNothing(x, e.now, e.up, SetCalibration(key, Round4(value)), Direct);
    case OtaPush(f) => LoggedRequestNothing(x, e.now, e.up, OtaUpdate(f.version, f.hwCode, f.hwRev), Push);
    case _ =>
  }

  /** "Asks" is what the wire shows: the event publishes a capabilities request of the server's own. */
  lemma AsksIsPublished(s: State, e: Event)
    requires Inv(s, e.now) && Runs(s, e)
    ensures Asks(s, e) <==> RequestAmong(Step(s, e).wire, |s.wire|)
  {
    hide Step, RequestAmong, Wakes;
    Effect(s, e);
    SessionAsks(s, e);
  }

  lemma SessionAsks(s: State, e: Event)
    requires Runs(s, e) && CommandsOk(s.commands, s.nextPk, e.now)
    ensures Asks(s, e) <==> RequestAmong(After(s, e).wire, |s.wire|)
  {
    hide OnSensors, RequestAmong, Wakes, CommandsOk;
    if e.action.Sensors? {
      SensorsRequest(Opened(s, e), e.id !in s.devices, e);
    } else {
      WebRequest(Opened(s, e), e.id !in s.devices, e);
    }
  }

  lemma ReceiveLog(x: Session, created: bool, now: int, up: bool)
    ensures var log := Receive(x, created, now, up).statusLog;
            var fires := !Wakes(x.device, created, now) && CapabilitiesOverdue(x.device, now);
            var timeout := if fires then [StatusEntry(now, x.id, TIMEOUT_ALERT)] else [];
            || log == x.statusLog + timeout
            || log == x.statusLog + [StatusEntry(now, x.id, NO_ALERT)] + timeout
  {
    hide Reconcile, WakeUpResync, ExpireOta, Settle;
    var r := Reconcile(Heard(x, now), now);
    ReconcileLog(x, now);
    var y := ExpireOta(r, now);
    ExpireKeepsRow(r, now);
    ResyncKeepsLog(y, now, up);
  }

  lemma ReconcileLog(x: Session, now: int)
    ensures var r := Reconcile(Heard(x, now), now);
            && r.id == x.id
            && (r.statusLog == x.statusLog || r.statusLog == x.statusLog + [StatusEntry(now, x.id, NO_ALERT)])
            && CapabilitiesOverdue(r.device, now) == CapabilitiesOverdue(x.device, now)
  {
  }

  lemma ExpireKeepsRow(x: Session, now: int)
    ensures ExpireOta(x, now) == x.(commands := ExpireOta(x, now).commands)
  {
  }

  lemma ResyncKeepsLog(x: Session, now: int, up: bool)
    ensures WakeUpResync(x, now, up).statusLog == x.statusLog
  {
  }

  lemma IngestLog(x: Session, now: int, up: bool, data: Payload)
    ensures var log := Ingest(x, now, up, data).statusLog;
            log == x.statusLog || log == x.statusLog + [StatusEntry(now, x.id, NO_ALERT)]
  {
  }

  /** The capabilities timeout is what the status log shows: a sensor message logs it exactly when it fires. */
  lemma TimeoutIsLogged(x: Session, created: bool, e: Event)
    requires e.action.Sensors?
    ensures var log := OnSensors(x, created, e.now, e.up, e.action.data).statusLog;
            && x.statusLog <= log
            && (TimeoutFires(x.device, created, e) <==>
                  exists i :: |x.statusLog| <= i < |log| && log[i].alert == TIMEOUT_ALERT)
  {
    hide Receive, Ingest, Wakes;
    var y := Receive(x, created, e.now, e.up);
    ReceiveLog(x, created, e.now, e.up);
    IngestLog(y, e.now, e.up, e.action.data);
    var log := OnSensors(x, created, e.now, e.up, e.action.data).statusLog;
    if TimeoutFires(x.device, created, e) { assert log[|y.statusLog| - 1].alert == TIMEOUT_ALERT; }
  }
}
