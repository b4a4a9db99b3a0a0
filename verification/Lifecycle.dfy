/** The life of a command row: pending until exactly one event decides its outcome. */
module Lifecycle {
  import opened Domain
  import opened Protocol
  import opened Invariants
  import opened Reachable
  import opened History
  import opened AlertClock

  // ------------------------------------------------------------ one outcome

  /** The name a device acknowledges the command by. */
  function NameOf(body: Body): string {
    match body
    case Plain(name, _) => name
    case SetOffset(_, _) => "set_offset"
    case SetCalibration(_, _) => "set_calibration"
    case OtaUpdate(_, _, _) => "ota_update"
  }

  lemma NamesAre(rows: seq<Command>)
    ensures forall i :: 0 <= i < |rows| ==> NameOf(rows[i].body) == rows[i].body.Action()
  {
  }

  /** The firmware version the command asks for. */
  predicate Targets(body: Body, version: string) {
    match body
    case Plain(_, target) => target == version
    case OtaUpdate(target, _, _) => target == version
    case _ => false
  }

  /** The event `e` in state `s` gives command row `i` the status `status`. */
  predicate Decides(s: State, e: Event, i: int, status: Status)
    requires 0 <= i < |s.commands|
  {
    && Runs(s, e) && s.commands[i].device == e.id && s.commands[i].status == Pending
    && var c, d := s.commands[i], Opened(s, e).device;
    var name := NameOf(c.body);
    match e.action
    case Sensors(_, _) =>
      && status == TimedOut
      && ((name == "ota_update" &&
           e.now - c.sentAt > (if d.publishInterval > 200 then 3 * d.publishInterval else 600) * 1_000_000) ||
          (name == "request_capabilities" && TimeoutFires(d, e.id !in s.devices, e)))
    case Capabilities(r) =>
      && status == Success
      && var running := if r.fw.Some? then r.fw.value else d.fwVersion;
      name == "request_capabilities" || (name == "ota_update" && running != "" && Targets(c.body, running))
    case Ack(a) =>
      && a.action != "" && a.action == name
      && ((a.status == AckOk && status == Success) || (a.status == AckError && status == Failed))
      && forall j :: i < j < |s.commands| ==>
           !(s.commands[j].device == e.id && s.commands[j].status == Pending && NameOf(s.commands[j].body) == name)
    case _ => false
  }

  function Decided(c: Command, status: Status, now: int): Command {
    c.(status := status, acked := true, ackedAt := Some(now))
  }

  /** Row `i` after a session event: decided when some outcome is, untouched otherwise. */
  ghost predicate RowFate(s: State, e: Event, i: int, c': Command)
    requires 0 <= i < |s.commands|
  {
    if Decides(s, e, i, TimedOut) then c' == Decided(s.commands[i], TimedOut, e.now)
    else if Decides(s, e, i, Success) then c' == Decided(s.commands[i], Success, e.now)
    else if Decides(s, e, i, Failed) then c' == Decided(s.commands[i], Failed, e.now)
    else c' == s.commands[i]
  }

  lemma ReceiveCommands(x: Session, created: bool, now: int, up: bool, i: int)
    requires 0 <= i < |x.commands|
    ensures var rows := Receive(x, created, now, up).commands;
            var c := x.commands[i];
            |rows| == |x.commands| &&
            rows[i] ==
              if (IsPending(c, x.id, "ota_update") && now - c.sentAt > x.device.OtaTimeout()) ||
                 (IsPending(c, x.id, "request_capabilities") && !Wakes(x.device, created, now) &&
                  CapabilitiesOverdue(x.device, now))
              then c.Mark(TimedOut, now) else c
  {
    var r := Reconcile(Heard(x, now), now);
    assert r.commands == x.commands && r.id == x.id && r.device.OtaTimeout() == x.device.OtaTimeout();
    var y := ExpireOta(r, now);
    assert CapabilitiesOverdue(y.device, now) == CapabilitiesOverdue(x.device, now);
    assert WakeUpResync(y, now, up).commands == y.commands;
  }

  lemma SensorsFate(s: State, e: Event, i: int)
    requires Runs(s, e) && e.action.Sensors? && 0 <= i < |s.commands|
    ensures |After(s, e).commands| == |s.commands| && RowFate(s, e, i, After(s, e).commands[i])
  {
    hide Receive, Ingest, Wakes;
    ReceiveCommands(Opened(s, e), e.id !in s.devices, e.now, e.up, i);
    IngestCommands(Receive(Opened(s, e), e.id !in s.devices, e.now, e.up), e.now, e.up, e.action.data);
  }

  lemma IngestCommands(x: Session, now: int, up: bool, data: Payload)
    ensures Ingest(x, now, up, data).commands == x.commands
  {
  }

  lemma CapabilitiesFate(s: State, e: Event, i: int)
    requires Runs(s, e) && e.action.Capabilities? && 0 <= i < |s.commands|
    ensures |After(s, e).commands| == |s.commands| && RowFate(s, e, i, After(s, e).commands[i])
  {
    hide RestoreCommands, Clear;
    CapabilitiesCommands(Opened(s, e), e.now, e.up, e.action.report);
  }

  lemma CapabilitiesCommands(x: Session, now: int, up: bool, r: CapabilitiesReport)
    ensures OnCapabilities(x, now, up, r).commands ==
            Settle(Settle(x.commands, ByAction(x.id, "request_capabilities"), Success, now),
                   OtaForVersion(x.id, Identify(x.device, r).fwVersion), Success, now)
  {
  }

  lemma AckFate(s: State, e: Event, i: int)
    requires Runs(s, e) && e.action.Ack? && 0 <= i < |s.commands|
    ensures |After(s, e).commands| == |s.commands| && RowFate(s, e, i, After(s, e).commands[i])
  {
    hide NewestPending, PutOffset;
    NewestPendingIs(s.commands, e.id, e.action.ack.action);
  }

  lemma OthersFate(s: State, e: Event, i: int)
    requires Runs(s, e) && 0 <= i < |s.commands|
    requires !e.action.Sensors? && !e.action.Capabilities? && !e.action.Ack?
    ensures |After(s, e).commands| >= |s.commands| && After(s, e).commands[i] == s.commands[i]
  {
    hide Settle, Put, ReportedMirror, OnSensors, OnCapabilities, OnAck;
  }

  /** What a handler does to each command row, with the condition under which it decides its outcome:
      a firmware push times out only past its window and succeeds only on the pushed version; an ack decides
      the newest pending command of its action and no other. */
  lemma EventFate(s: State, e: Event, i: int)
    requires Runs(s, e) && 0 <= i < |s.commands|
    ensures |After(s, e).commands| >= |s.commands| && RowFate(s, e, i, After(s, e).commands[i])
  {
    hide After;
    if e.action.Sensors? { SensorsFate(s, e, i); }
    else if e.action.Capabilities? { CapabilitiesFate(s, e, i); }
    else if e.action.Ack? { AckFate(s, e, i); }
    else { OthersFate(s, e, i); }
  }

  // ------------------------------------------------------- whole runs of rows

  /** Row `c` may have become row `d` later: same command, and an outcome once given stays. */
  predicate Evolves(c: Command, d: Command) {
    && d.pk == c.pk && d.body == c.body && d.sentAt == c.sentAt
    && (c.status != Pending ==> d.status == c.status && d.acked == c.acked && d.ackedAt == c.ackedAt)
  }

  ghost predicate Descends(rows: seq<Command>, nextPk: nat, d: Command) {
    d.pk >= nextPk || exists i :: 0 <= i < |rows| && Evolves(rows[i], d)
  }

  lemma SessionDescends(x: Session, y: Session, now: int, j: int)
    requires Grows(x, y, now) && 0 <= j < |y.commands|
    ensures Descends(x.commands, x.nextPk, y.commands[j])
  {
  }

  lemma StepDescends(s: State, e: Event, j: int)
    requires Inv(s, e.now) && 0 <= j < |Step(s, e).commands|
    ensures Step(s, e).nextPk >= s.nextPk
    ensures Descends(s.commands, s.nextPk, Step(s, e).commands[j])
  {
    hide Step, Handle;
    if Runs(s, e) {
      Effect(s, e);
      SessionDescends(Opened(s, e), After(s, e), e.now, j);
    } else {
      StructuralDescends(s, e, j);
    }
  }

  lemma StructuralDescends(s: State, e: Event, j: int)
    requires Inv(s, e.now) && !Runs(s, e) && 0 <= j < |Step(s, e).commands|
    ensures Step(s, e).nextPk >= s.nextPk
    ensures Descends(s.commands, s.nextPk, Step(s, e).commands[j])
  {
    hide CommandsOk, LogOk, ReadingsOk, RowOk, Referential, CommandsWithout, LogsWithout, ReadingsWithout, MoveLogs,
         MoveReadings, MergedReadings, Handle;
    var rows, d := s.commands, Step(s, e).commands[j];
    if e.id in s.devices && (e.action.ClearCommands? || e.action.DeleteDevice?) {
      CommandsWithoutKeeps(rows, e.id, if e.action.ClearCommands? then e.action.pk else None, s.nextPk, e.now);
      assert d in Step(s, e).commands;
      var i :| 0 <= i < |rows| && rows[i] == d;
      assert Evolves(rows[i], d);
    } else {
      assert Evolves(rows[j], d);
    }
  }

  /** No event rewrites a command, and none changes an outcome already given: every later row is either a
      newer command or an evolution of the row with its key. */
  lemma {:induction false} RowsOnlyEvolve(es: seq<Event>, fs: seq<Event>, j: int)
    requires Timed(es + fs) && 0 <= j < |Run(es + fs).commands|
    ensures Run(es + fs).nextPk >= Run(es).nextPk
    ensures Descends(Run(es).commands, Run(es).nextPk, Run(es + fs).commands[j])
    decreases |fs|, 0
  {
    hide Step, Run;
    if fs == [] {
      assert es + fs == es;
      assert Evolves(Run(es).commands[j], Run(es).commands[j]);
    } else {
      var front, e := fs[..|fs| - 1], fs[|fs| - 1];
      assert (es + fs)[..|es + fs| - 1] == es + front && (es + fs)[|es + fs| - 1] == e;
      var s := Run(es + front);
      RunStep(es + fs);
      Front(es + fs);
      StepDescends(s, e, j);
      EvolveChain(es, front, s, Step(s, e).commands[j]);
    }
  }

  lemma {:induction false} EvolveChain(es: seq<Event>, fs: seq<Event>, s: State, d: Command)
    requires Timed(es + fs) && s == Run(es + fs) && Descends(s.commands, s.nextPk, d)
    ensures Run(es + fs).nextPk >= Run(es).nextPk
    ensures Descends(Run(es).commands, Run(es).nextPk, d)
    decreases |fs|, 1
  {
    hide Step, Run;
    NextPkGrows(es, fs);
    if d.pk < s.nextPk {
      var i :| 0 <= i < |s.commands| && Evolves(s.commands[i], d);
      RowsOnlyEvolve(es, fs, i);
      if s.commands[i].pk < Run(es).nextPk {
        var k :| 0 <= k < |Run(es).commands| && Evolves(Run(es).commands[k], s.commands[i]);
        assert Evolves(Run(es).commands[k], d);
      }
    }
  }

  lemma {:induction false} NextPkGrows(es: seq<Event>, fs: seq<Event>)
    requires Timed(es + fs)
    ensures Run(es + fs).nextPk >= Run(es).nextPk
  {
    hide Step, Run;
    if fs == [] {
      assert es + fs == es;
    } else {
      var front, e := fs[..|fs| - 1], fs[|fs| - 1];
      assert (es + fs)[..|es + fs| - 1] == es + front;
      NextPkGrows(es, front);
      Front(es + fs);
      RunStep(es + fs);
      NextPkStep(Run(es + front), e);
    }
  }

  lemma NextPkStep(s: State, e: Event)
    requires Inv(s, e.now)
    ensures Step(s, e).nextPk >= s.nextPk
  {
    hide Step, Handle;
    if Runs(s, e) { Effect(s, e); } else { NoNewKeys(s, e); }
  }

  lemma NoNewKeys(s: State, e: Event)
    requires !Runs(s, e)
    ensures Step(s, e).nextPk == s.nextPk
  {
  }

  /** Each command has at most one outcome: once decided it stays as it is for the rest of the run. */
  lemma {:induction false} OutcomeIsFinal(es: seq<Event>, fs: seq<Event>, i: int, j: int)
    requires Timed(es) && Timed(es + fs)
    requires 0 <= i < |Run(es).commands| && 0 <= j < |Run(es + fs).commands|
    requires Run(es).commands[i].pk == Run(es + fs).commands[j].pk
    ensures Evolves(Run(es).commands[i], Run(es + fs).commands[j])
  {
    hide Run;
    RowsOnlyEvolve(es, fs, j);
    RunKeeps(es);
    var rows := Run(es).commands;
    assert rows[i].pk < Run(es).nextPk;
    var k :| 0 <= k < |rows| && Evolves(rows[k], Run(es + fs).commands[j]);
    assert rows[k].pk == rows[i].pk;
    assert k == i;
  }

  /** In every reachable state the three ways of saying "concluded" agree, rows are kept in the order they
      were sent, and keys are distinct. */
  lemma {:induction false} FlagsAgree(es: seq<Event>, i: int)
    requires Timed(es) && 0 <= i < |Run(es).commands|
    ensures var c := Run(es).commands[i];
            (c.acked <==> c.status != Pending) && (c.acked <==> c.ackedAt.Some?)
    ensures forall j :: i < j < |Run(es).commands| ==>
              Run(es).commands[i].sentAt <= Run(es).commands[j].sentAt &&
              Run(es).commands[i].pk < Run(es).commands[j].pk
  {
    hide Run;
    RunKeeps(es);
    assert CommandOk(Run(es).commands[i]);
  }

  // ---------------------------------------------------------- OTA deadlines

  /** After any sensor message no firmware push of the device is still pending past its window. */
  lemma {:induction false} NoOverdueOta(es: seq<Event>, e: Event, i: int)
    requires Timed(es + [e]) && e.action.Sensors? && 0 <= i < |Run(es + [e]).commands|
    requires e.id in Run(es + [e]).devices && IsPending(Run(es + [e]).commands[i], e.id, "ota_update")
    ensures var interval := Run(es + [e]).devices[e.id].publishInterval;
            e.now - Run(es + [e]).commands[i].sentAt <= (if interval > 200 then 3 * interval else 600) * 1_000_000
  {
    hide Step, Run, After, TimeoutFires, Wakes;
    var s := Run(es);
    assert (es + [e])[..|es + [e]| - 1] == es;
    Front(es + [e]);
    RunStep(es + [e]);
    Effect(s, e);
    SameInterval(s, e);
    if i < |s.commands| { SensorsFate(s, e, i); }
  }

  lemma SameInterval(s: State, e: Event)
    requires e.action.Sensors?
    ensures After(s, e).device.publishInterval == Opened(s, e).device.publishInterval
  {
    hide Receive, Ingest, Reconcile;
    var x := Opened(s, e);
    ReceiveColumns(x, e.id !in s.devices, e.now, e.up);
    IngestColumns(Receive(x, e.id !in s.devices, e.now, e.up), e.now, e.up, e.action.data);
  }

  /** After any capabilities message neither a capabilities request nor a push of the version the device
      now runs is pending for it. */
  lemma {:induction false} NothingLeftAfterCapabilities(es: seq<Event>, e: Event, i: int)
    requires Timed(es + [e]) && e.action.Capabilities? && e.id in Run(es).devices
    ensures var s' := Run(es + [e]);
            && e.id in s'.devices
            && (0 <= i < |s'.commands| && s'.commands[i].device == e.id && s'.commands[i].status == Pending ==>
                  var body := s'.commands[i].body;
                  && body.Action() != "request_capabilities"
                  && !(body.Action() == "ota_update" && body.Version() != "" &&
                       body.Version() == s'.devices[e.id].fwVersion))
  {
    hide Step, Run, After, CommandsOk, LogOk, ReadingsOk, RowOk, Referential, SessionOk, Recorded;
    var s := Run(es);
    assert (es + [e])[..|es + [e]| - 1] == es;
    Front(es + [e]);
    RunStep(es + [e]);
    Effect(s, e);
    AnsweredVersion(s, e);
    if 0 <= i < |s.commands| { CapabilitiesFate(s, e, i); }
  }

  lemma AnsweredVersion(s: State, e: Event)
    requires e.action.Capabilities? && e.id in s.devices
    ensures |After(s, e).commands| == |s.commands|
    ensures After(s, e).device.fwVersion == Identify(Opened(s, e).device, e.action.report).fwVersion
  {
    hide RestoreCommands;
  }

  /** A push goes out only for the hardware the device has reported, and leaves exactly one pending row. */
  lemma {:induction false} PushMatchesHardware(es: seq<Event>, e: Event)
    requires Timed(es + [e]) && e.action.OtaPush? && e.id in Run(es).devices
    ensures var s, s', f := Run(es), Run(es + [e]), e.action.firmware;
            var d := s.devices[e.id];
            var allowed := d.otaCapable && d.hardwareCode == Some(f.hwCode) && d.hwRev == Some(f.hwRev);
            var body := OtaUpdate(f.version, f.hwCode, f.hwRev);
            && (|s'.wire| > |s.wire| <==> allowed && e.up)
            && (allowed && e.up ==>
                  && s'.wire == s.wire + [Publish(e.now, d.deviceType, e.id, body, Push)]
                  && s'.commands == s.commands + [NewCommand(s.nextPk, e.id, body, e.now)])
            && (!(allowed && e.up) ==> s' == s)
  {
    hide Step, Run;
    assert (es + [e])[..|es + [e]| - 1] == es;
    RunStep(es + [e]);
    Pushed(Run(es), e);
  }

  lemma Pushed(s: State, e: Event)
    requires e.action.OtaPush? && e.id in s.devices
    ensures var d, f := s.devices[e.id], e.action.firmware;
            var body := OtaUpdate(f.version, f.hwCode, f.hwRev);
            Step(s, e) ==
            if OtaAllowed(d, f) && e.up
            then s.(wire := s.wire + [Publish(e.now, d.deviceType, e.id, body, Push)],
                    commands := s.commands + [NewCommand(s.nextPk, e.id, body, e.now)], nextPk := s.nextPk + 1)
            else s
  {
  }

  // ------------------------------------------------------------------- acks

  function RunFrom(s: State, fs: seq<Event>): State {
    if fs == [] then s else Step(RunFrom(s, fs[..|fs| - 1]), fs[|fs| - 1])
  }

  /** How many rows from index `i` on wait for an ack of `action`. */
  function WaitingFrom(rows: seq<Command>, id: Id, action: string, i: int): nat
    requires 0 <= i <= |rows|
    decreases |rows| - i
  {
    if i == |rows| then 0
    else WaitingFrom(rows, id, action, i + 1) + if IsPending(rows[i], id, action) then 1 else 0
  }

  predicate AcksAction(e: Event, id: Id, action: string) {
    e.action.Ack? && e.id == id && e.action.ack.action == action && action != "" &&
    (e.action.ack.status == AckOk || e.action.ack.status == AckError)
  }

  function AcksOf(fs: seq<Event>, id: Id, action: string): nat {
    if fs == [] then 0
    else AcksOf(fs[..|fs| - 1], id, action) + if AcksAction(fs[|fs| - 1], id, action) then 1 else 0
  }

  lemma AckStep(s: State, e: Event)
    requires e.action.Ack?
    ensures Step(s, e).devices.Keys == s.devices.Keys
    ensures Step(s, e).commands ==
            if e.id in s.devices && AcksAction(e, e.id, e.action.ack.action)
            then Acknowledge(s.commands, e.id, e.action.ack.action,
                             if e.action.ack.status == AckOk then Success else Failed, e.now)
            else s.commands
  {
  }

  lemma {:induction false} WaitingDown(rows: seq<Command>, id: Id, action: string, i: int, j: int)
    requires 0 <= i <= j <= |rows|
    ensures WaitingFrom(rows, id, action, i) >= WaitingFrom(rows, id, action, j)
    decreases j - i
  {
    if i < j { WaitingDown(rows, id, action, i + 1, j); }
  }

  /** When every waiting row past `j` is among the newest `n`, at most `n` rows wait past `j`. */
  lemma {:induction false} AtMostPast(rows: seq<Command>, id: Id, action: string, j: int, n: nat)
    requires 0 <= j <= |rows|
    requires forall k :: j <= k < |rows| && IsPending(rows[k], id, action) ==> WaitingFrom(rows, id, action, k) <= n
    ensures WaitingFrom(rows, id, action, j) <= n
    decreases |rows| - j
  {
    if j < |rows| && !IsPending(rows[j], id, action) { AtMostPast(rows, id, action, j + 1, n); }
  }

  /** Row `i` of the table after some acks, in terms of the table before them. */
  ghost predicate Drained(rows: seq<Command>, after: seq<Command>, fs: seq<Event>, id: Id, i: int)
    requires 0 <= i < |rows| == |after|
  {
    var c := rows[i];
    && after[i].device == c.device
    && Evolves(c, after[i])
    && (c.device == id && c.status == Pending ==>
          if WaitingFrom(rows, id, c.body.Action(), i) <= AcksOf(fs, id, c.body.Action())
          then after[i].status != Pending
          else after[i] == c)
  }

  lemma AckDrainsOne(rows: seq<Command>, mid: seq<Command>, fs: seq<Event>, e: Event, id: Id, i: int)
    requires |mid| == |rows| && 0 <= i < |rows| && e.action.Ack?
    requires forall k :: 0 <= k < |rows| ==> Drained(rows, mid, fs[..], id, k)
    requires AcksAction(e, id, e.action.ack.action)
    ensures var status := if e.action.ack.status == AckOk then Success else Failed;
            var after := Acknowledge(mid, id, e.action.ack.action, status, e.now);
            |after| == |rows| && Drained(rows, after, fs + [e], id, i)
  {
    assert (fs + [e])[..|fs + [e]| - 1] == fs && fs[..] == fs;
    var action := e.action.ack.action;
    var n := AcksOf(fs, id, action);
    var j := NewestPending(mid, id, action);
    NewestPendingIs(mid, id, action);
    assert Drained(rows, mid, fs, id, i);
    if j >= 0 {
      assert Drained(rows, mid, fs, id, j);
      forall k | j < k < |rows| && IsPending(rows[k], id, action) ensures WaitingFrom(rows, id, action, k) <= n {
        assert Drained(rows, mid, fs, id, k);
      }
      AtMostPast(rows, id, action, j + 1, n);
      if i < j && IsPending(rows[i], id, action) { WaitingDown(rows, id, action, i + 1, j); }
    }
  }

  /** Any sequence of acks, from any devices: for each action of a device, n valid acks decide exactly its n
      newest pending commands (all of them when there are fewer) and leave its other rows as they are. */
  lemma {:induction false} AcksDrainNewest(s: State, fs: seq<Event>, id: Id, i: int)
    requires id in s.devices && 0 <= i < |s.commands|
    requires forall k :: 0 <= k < |fs| ==> fs[k].action.Ack?
    ensures RunFrom(s, fs).devices.Keys == s.devices.Keys
    ensures |RunFrom(s, fs).commands| == |s.commands| && Drained(s.commands, RunFrom(s, fs).commands, fs, id, i)
  {
    hide Step;
    if fs == [] {
      Waits(s.commands, id, i);
    } else {
      var front, e := fs[..|fs| - 1], fs[|fs| - 1];
      var mid := RunFrom(s, front);
      AcksDrainNewest(s, front, id, i);
      forall k | 0 <= k < |s.commands|
        ensures Drained(s.commands, mid.commands, front[..], id, k)
      {
        AcksDrainNewest(s, front, id, k);
        assert front[..] == front;
      }
      AckStep(mid, e);
      assert fs == front + [e];
      if AcksAction(e, id, e.action.ack.action) {
        AckDrainsOne(s.commands, mid.commands, front, e, id, i);
      } else {
        OtherAck(s.commands, mid.commands, front, e, id, i);
      }
    }
  }

  lemma Waits(rows: seq<Command>, id: Id, i: int)
    requires 0 <= i < |rows|
    ensures Drained(rows, rows, [], id, i)
  {
  }

  lemma OtherAck(rows: seq<Command>, mid: seq<Command>, fs: seq<Event>, e: Event, id: Id, i: int)
    requires |mid| == |rows| && 0 <= i < |rows| && e.action.Ack?
    requires Drained(rows, mid, fs[..], id, i)
    requires !AcksAction(e, id, e.action.ack.action)
    ensures var status := if e.action.ack.status == AckOk then Success else Failed;
            && Drained(rows, mid, fs + [e], id, i)
            && (e.id != id ==>
                  var after := Acknowledge(mid, e.id, e.action.ack.action, status, e.now);
                  |after| == |rows| && Drained(rows, after, fs + [e], id, i))
  {
    assert (fs + [e])[..|fs + [e]| - 1] == fs && fs[..] == fs;
    NewestPendingIs(mid, e.id, e.action.ack.action);
  }
}
