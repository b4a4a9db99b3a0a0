/** Wipe and restore: what the re-pushed commands rebuild on the device, and what reporting it back does. */
module CalibrationMirror {
  import opened Domain
  import opened Protocol
  import opened Invariants
  import opened Reachable
  import opened History
  import opened Ledger
  import opened Writes

  /** The device's store after one command, keyed as the views key their mirror. */
  function Apply(store: Mirror, cmd: Body): Mirror {
    match cmd
    case SetOffset(metric, offset) => Put(store, "cal_" + metric, offset)
    case SetCalibration(key, value) => Put(store, key, value)
    case _ => store
  }

  function Replay(store: Mirror, cmds: seq<Body>): Mirror {
    if cmds == [] then store else Apply(Replay(store, cmds[..|cmds| - 1]), cmds[|cmds| - 1])
  }

  /** A calibration report of a whole store. */
  function ReportOf(store: Mirror): Payload {
    seq(|store|, i requires 0 <= i < |store| => (store[i].0, Some(store[i].1)))
  }

  lemma {:induction false} PutNew(m: Mirror, key: string, value: real)
    requires forall i :: 0 <= i < |m| ==> m[i].0 != key
    ensures Put(m, key, value) == m + [(key, value)]
  {
    if m != [] { PutNew(m[1..], key, value); }
  }

  lemma {:induction false} RestoredKey(key: string, value: real, store: Mirror)
    ensures Apply(store, RestoreCommand(key, value)) == Put(store, key, value)
  {
    if "cal_" <= key { assert "cal_" + key[4..] == key; }
  }

  lemma {:induction false} ReplayRestores(m: Mirror)
    requires MirrorOk(m)
    ensures Replay([], RestoreCommands(m)) == m
  {
    if m != [] {
      var front, last := m[..|m| - 1], m[|m| - 1];
      var cmds := RestoreCommands(m);
      assert cmds[..|cmds| - 1] == RestoreCommands(front);
      ReplayRestores(front);
      RestoredKey(last.0, last.1, front);
      PutNew(front, last.0, last.1);
    }
  }

  lemma {:induction false} ReportRestores(m: Mirror)
    requires MirrorOk(m)
    ensures ReportedMirror(ReportOf(m)) == m
  {
    if m != [] {
      var front, last := m[..|m| - 1], m[|m| - 1];
      var data := ReportOf(m);
      assert data[..|data| - 1] == ReportOf(front);
      ReportRestores(front);
      PutNew(front, last.0, last.1);
    }
  }

  function Bodies(wire: seq<Publish>): seq<Body> {
    seq(|wire|, i requires 0 <= i < |wire| => wire[i].body)
  }

  lemma CapabilitiesWire(x: Session, now: int, r: CapabilitiesReport)
    ensures OnCapabilities(x, now, true, r).device.calibration == x.device.calibration
    ensures OnCapabilities(x, now, true, r).wire ==
            x.wire + if r.storeEmpty
                     then Published(now, x.device.deviceType, x.id, RestoreCommands(x.device.calibration), Repush)
                     else []
  {
  }

  /** When a device reports a wiped store, the commands it is sent rebuild its whole mirror in an empty
      store, and reporting that store back leaves the mirror as it was. */
  lemma {:induction false} WipeAndRestore(es: seq<Event>, wiped: Event, reported: Event)
    requires Timed(es + [wiped]) && Timed(es + [wiped] + [reported])
    requires wiped.id in Run(es).devices && wiped.up && wiped.action.Capabilities? && wiped.action.report.storeEmpty
    ensures Run(es).wire <= Run(es + [wiped]).wire
    ensures var mirror := Run(es).devices[wiped.id].calibration;
            var store := Replay([], Bodies(Run(es + [wiped]).wire[|Run(es).wire|..]));
            && store == mirror
            && (reported.id == wiped.id && reported.action == Calibration(ReportOf(store)) ==>
                  && wiped.id in Run(es + [wiped] + [reported]).devices
                  && Run(es + [wiped] + [reported]).devices[wiped.id].calibration == mirror)
  {
    hide Run, Replay, ReportedMirror, ReportOf, RestoreCommands, MirrorOk, OnCapabilities, CommandsOk, LogOk,
         ReadingsOk, Referential, Recorded;
    assert (es + [wiped])[..|es + [wiped]| - 1] == es;
    assert (es + [wiped] + [reported])[..|es + [wiped] + [reported]| - 1] == es + [wiped];
    RunStep(es + [wiped]);
    RunStep(es + [wiped] + [reported]);
    Front(es + [wiped]);
    var s, x := Run(es), Opened(Run(es), wiped);
    assert RowOk(s, wiped.id, wiped.now);
    CapabilitiesWire(x, wiped.now, wiped.action.report);
    var cmds := RestoreCommands(x.device.calibration);
    var sent := Published(wiped.now, x.device.deviceType, x.id, cmds, Repush);
    assert Run(es + [wiped]).wire[|s.wire|..] == sent;
    assert Bodies(sent) == cmds;
    ReplayRestores(x.device.calibration);
    ReportRestores(x.device.calibration);
  }

  // ---------------------------------------------------------- what is mirrored and sent

  /** `k` is the whole number nearest to `x`, the even one of two equally near. */
  predicate IsNearest(x: real, k: int) {
    var rest := x - k as real;
    -0.5 <= rest <= 0.5 && (rest == -0.5 || rest == 0.5 ==> k % 2 == 0)
  }

  lemma NearestIs(x: real, k: int)
    ensures IsNearest(x, k) <==> k == RoundHalfEven(x)
  {
    var f := x.Floor;
    if IsNearest(x, k) { assert k == f || k == f + 1; }
  }

  /** Offsets are rounded to the nearest hundredth and other values to the nearest ten-thousandth, ties to even. */
  lemma RoundsToNearest(x: real, k: int)
    ensures IsNearest(x * 100.0, k) <==> Round2(x) == k as real / 100.0
    ensures IsNearest(x * 10000.0, k) <==> Round4(x) == k as real / 10000.0
  {
    NearestIs(x * 100.0, k);
    NearestIs(x * 10000.0, k);
  }

  lemma {:induction false} ValuesAre(m: Mirror, key: string, value: real)
    requires forall i, j :: 0 <= i < j < |m| ==> m[i].0 != m[j].0
    ensures key in Values(m) && Values(m)[key] == value <==> exists i :: 0 <= i < |m| && m[i] == (key, value)
  {
    if m != [] {
      ValuesAre(m[1..], key, value);
      if m[0].0 == key {
        assert forall i :: 0 < i < |m| ==> m[i].0 != key;
      } else if i :| 0 <= i < |m| && m[i] == (key, value) {
        assert m[1..][i - 1] == (key, value);
      }
    }
  }

  lemma RestoresOne(key: string, value: real, key': string, value': real)
    requires RestoringBody(key, value) == RestoringBody(key', value')
    ensures key == key' && value == value'
  {
    if |key| >= 4 && key[..4] == "cal_" { assert key == "cal_" + key[4..]; }
    if |key'| >= 4 && key'[..4] == "cal_" { assert key' == "cal_" + key'[4..]; }
  }

  /** When a device reports a wiped store, the wire gains the command that restores a value exactly when the events have
      last set that key to that value: set_offset with the bare metric name for a key with the offset prefix, else
      set_calibration. */
  lemma {:induction false} WipeSendsMirror(es: seq<Event>, e: Event, key: string, value: real)
    requires Timed(es + [e]) && e.action.Capabilities? && e.action.report.storeEmpty && e.up && e.id in Run(es).devices
    ensures Run(es).wire <= Run(es + [e]).wire
    ensures var c := CardOf(es, e.id);
            key in c.mirror && c.mirror[key] == value <==>
              Publish(e.now, c.kind, e.id, RestoringBody(key, value), Repush) in
              Run(es + [e]).wire[|Run(es).wire|..]
  {
    hide Run, Step, CardOf, GainedEntries, GainedReadings, GainedCommands, RestoringBody, Values, Inv;
    var s, c := Run(es), CardOf(es, e.id);
    var m := s.devices[e.id].calibration;
    Front(es + [e]);
    assert (es + [e])[..|es + [e]| - 1] == es;
    EventWrites(es, e);
    ReportCard(es, e);
    RowIsCard(es, e.id);
    DistinctKeys(s, e.id, e.now);
    ValuesAre(m, key, value);
    var gained := Run(es + [e]).wire[|s.wire|..];
    assert gained == GainedWire(c, m, s.commands, e);
    var sent := Publish(e.now, c.kind, e.id, RestoringBody(key, value), Repush);
    if i :| 0 <= i < |m| && m[i] == (key, value) { assert gained[i] == sent; }
    if sent in gained {
      var i :| 0 <= i < |gained| && gained[i] == sent;
      RestoresOne(m[i].0, m[i].1, key, value);
      assert m[i] == (key, value);
    }
  }

  lemma DistinctKeys(s: State, id: Id, now: int)
    requires Inv(s, now) && id in s.devices
    ensures forall i, j :: 0 <= i < j < |s.devices[id].calibration| ==>
              s.devices[id].calibration[i].0 != s.devices[id].calibration[j].0
  {
    assert RowOk(s, id, now);
  }
}
