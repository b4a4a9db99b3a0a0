/** The invariant of the whole state, kept by every event of every run. */
module Reachable {
  import opened Domain
  import opened Protocol
  import opened Invariants

  /** Every row belongs to a device of the device table. */
  ghost predicate Referential(s: State) {
    && (forall i :: 0 <= i < |s.commands| ==> s.commands[i].device in s.devices)
    && (forall i :: 0 <= i < |s.statusLog| ==> s.statusLog[i].device in s.devices)
    && (forall i :: 0 <= i < |s.readings| ==> s.readings[i].device in s.devices)
  }

  ghost predicate RowOk(s: State, id: Id, now: int)
    requires id in s.devices
  {
    s.devices[id].lastSeen.Some? && DeviceOk(s.devices[id], now)
  }

  ghost predicate Inv(s: State, now: int) {
    && CommandsOk(s.commands, s.nextPk, now)
    && LogOk(s.statusLog, now)
    && ReadingsOk(s.readings, now)
    && Referential(s)
    && (forall id :: id in s.devices ==> RowOk(s, id, now))
  }

  function Clock(es: seq<Event>): int { if es == [] then 0 else es[|es| - 1].now }

  // ------------------------------------------------------------- append rows

  lemma {:induction false} AppendOthers(log: seq<StatusEntry>, more: seq<StatusEntry>, id: Id, t: Option<int>)
    requires forall i :: 0 <= i < |more| ==> more[i].device != id || (t.Some? && more[i].time > t.value)
    ensures AlertBy(log + more, id, t) == AlertBy(log, id, t)
  {
    if more == [] {
      assert log + more == log;
    } else {
      assert (log + more)[..|log + more| - 1] == log + more[..|more| - 1];
      AppendOthers(log, more[..|more| - 1], id, t);
    }
  }

  lemma {:induction false} NoBattery(rows: seq<Reading>, id: Id)
    requires forall i :: 0 <= i < |rows| ==> rows[i].device != id
    ensures LatestBattery(rows, id) == None
  {
    if rows != [] { NoBattery(rows[..|rows| - 1], id); }
  }

  lemma {:induction false} NoAlert(log: seq<StatusEntry>, id: Id, t: Option<int>)
    requires forall i :: 0 <= i < |log| ==> log[i].device != id
    ensures AlertBy(log, id, t) == NO_ALERT
  {
    if log != [] { NoAlert(log[..|log| - 1], id, t); }
  }

  lemma {:induction false} LogSuffix(x: Session, y: Session, now: int, id: Id, t: Option<int>)
    requires Grows(x, y, now) && (id != x.id || (t.Some? && t.value < now))
    ensures AlertBy(y.statusLog, id, t) == AlertBy(x.statusLog, id, t)
  {
    var more := y.statusLog[|x.statusLog|..];
    assert y.statusLog == x.statusLog + more;
    AppendOthers(x.statusLog, more, id, t);
  }

  lemma {:induction false} BatterySuffix(x: Session, y: Session, now: int, id: Id)
    requires Grows(x, y, now) && id != x.id
    ensures LatestBattery(y.readings, id) == LatestBattery(x.readings, id)
  {
    var more := y.readings[|x.readings|..];
    assert y.readings == x.readings + more;
    NoBattery(more, id);
    BatteryAppend(x.readings, more, id);
  }

  // ---------------------------------------------------------- session events

  /** Which messages refresh `last_seen`. */
  predicate Hears(a: Action) {
    match a
    case Sensors(_, _) => true
    case StatusReport(level, _) => level != LInfo && level != LOther
    case Diag(level, _) => level != LEmpty && level != LOther
    case CommandList => true
    case Calibration(_) => true
    case _ => false
  }

  lemma ReceiveHears(x: Session, created: bool, now: int, up: bool)
    ensures Receive(x, created, now, up).device.lastSeen == Some(now)
  {
    hide FlushBodies, Settle, Published;
  }

  lemma IngestHears(x: Session, now: int, up: bool, data: Payload)
    ensures Ingest(x, now, up, data).device.lastSeen == x.device.lastSeen
  {
  }

  lemma LastSeenAfter(x: Session, created: bool, e: Event)
    requires IsSessionAction(e.action)
    ensures Handle(x, created, e).device.lastSeen == if Hears(e.action) then Some(e.now) else x.device.lastSeen
  {
    hide Receive, Ingest, Settle, Published, Acknowledge, ReportedMirror, PutOffset, Put, Truncate, Round2, Round4;
    if e.action.Sensors? {
      ReceiveHears(x, created, e.now, e.up);
      IngestHears(Receive(x, created, e.now, e.up), e.now, e.up, e.action.data);
    }
  }

  lemma CommitKeeps(s: State, x: Session, y: Session, now: int)
    requires Inv(s, now) && x == Open(s, x.id, x.device)
    requires SessionOk(y, now) && Grows(x, y, now) && y.device.lastSeen.Some?
    ensures Inv(Commit(s, y), now)
  {
  }

  /** A checked-out row, existing or just created, is sound. */
  lemma OpenSound(s: State, id: Id, deviceType: string, now: int)
    requires Inv(s, now)
    ensures id in s.devices ==> SessionOk(Open(s, id, s.devices[id]), now)
    ensures id !in s.devices ==> SessionOk(Open(s, id, FreshDevice(deviceType)), now)
  {
  }

  /** The session an event works on. */
  function Opened(s: State, e: Event): Session {
    Open(s, e.id, if e.id in s.devices then s.devices[e.id]
                  else if e.action.Sensors? then FreshDevice(e.action.deviceType)
                  else FreshDevice(""))
  }

  predicate Runs(s: State, e: Event) { IsSessionAction(e.action) && (e.id in s.devices || e.action.Sensors?) }

  function After(s: State, e: Event): Session
    requires Runs(s, e)
  {
    Handle(Opened(s, e), e.id !in s.devices, e)
  }

  /** What a handler does between checking a row out and putting it back. */
  lemma Effect(s: State, e: Event)
    requires Inv(s, e.now) && Runs(s, e)
    ensures Step(s, e) == Commit(s, After(s, e))
    ensures SessionOk(Opened(s, e), e.now) && SessionOk(After(s, e), e.now)
    ensures Grows(Opened(s, e), After(s, e), e.now)
  {
    hide SessionOk, Grows, Handle, Inv;
    OpenSound(s, e.id, if e.action.Sensors? then e.action.deviceType else "", e.now);
    HandleKeeps(Opened(s, e), e.id !in s.devices, e);
  }

  lemma SessionStepKeeps(s: State, e: Event)
    requires Inv(s, e.now) && Runs(s, e)
    ensures Inv(Step(s, e), e.now)
  {
    hide SessionOk, Grows, Handle, CommandsOk, LogOk, ReadingsOk, Referential, Step;
    Effect(s, e);
    LastSeenAfter(Opened(s, e), e.id !in s.devices, e);
    if e.id in s.devices { assert RowOk(s, e.id, e.now); }
    CommitKeeps(s, Opened(s, e), After(s, e), e.now);
  }

  // ------------------------------------------------- rows removed, rows moved

  lemma {:induction false} CommandsWithoutKeeps(rows: seq<Command>, id: Id, pk: Option<nat>, nextPk: nat, now: int)
    requires CommandsOk(rows, nextPk, now)
    ensures CommandsOk(CommandsWithout(rows, id, pk), nextPk, now)
    ensures forall c :: c in CommandsWithout(rows, id, pk) <==>
                        c in rows && !(c.device == id && (pk.None? || pk.value == c.pk))
  {
    if rows != [] {
      var c := rows[|rows| - 1];
      var front := rows[..|rows| - 1];
      assert rows == front + [c];
      CommandsWithoutKeeps(front, id, pk, c.pk, c.sentAt);
    }
  }

  lemma {:induction false} LogsWithoutKeeps(rows: seq<StatusEntry>, id: Id, now: int)
    requires LogOk(rows, now)
    ensures LogOk(LogsWithout(rows, id), now)
    ensures forall r :: r in LogsWithout(rows, id) <==> r in rows && r.device != id
  {
    if rows != [] {
      var r := rows[|rows| - 1];
      var front := rows[..|rows| - 1];
      assert rows == front + [r];
      LogsWithoutKeeps(front, id, r.time);
    }
  }

  lemma {:induction false} LogsWithoutAlert(rows: seq<StatusEntry>, id: Id, o: Id, t: Option<int>)
    requires o != id
    ensures AlertBy(LogsWithout(rows, id), o, t) == AlertBy(rows, o, t)
  {
    if rows != [] {
      var front, last := rows[..|rows| - 1], rows[|rows| - 1];
      var f, w := LogsWithout(front, id), LogsWithout(rows, id);
      LogsWithoutAlert(front, id, o, t);
      if last.device == id {
        assert w == f;
      } else {
        assert w == f + [last] && w[..|w| - 1] == f;
      }
    }
  }

  lemma {:induction false} ReadingsWithoutKeeps(rows: seq<Reading>, id: Id, now: int)
    requires ReadingsOk(rows, now)
    ensures ReadingsOk(ReadingsWithout(rows, id), now)
    ensures forall r :: r in ReadingsWithout(rows, id) <==> r in rows && r.device != id
  {
    if rows != [] {
      var r := rows[|rows| - 1];
      var front := rows[..|rows| - 1];
      assert rows == front + [r];
      ReadingsWithoutKeeps(front, id, r.time);
    }
  }

  lemma {:induction false} ReadingsOutsideKeeps(rows: seq<Reading>, id: Id, metric: Option<string>, start: int,
                                                end: int, now: int)
    requires ReadingsOk(rows, now)
    ensures ReadingsOk(ReadingsOutside(rows, id, metric, start, end), now)
    ensures forall r :: r in ReadingsOutside(rows, id, metric, start, end) <==>
                        r in rows && !Erased(r, id, metric, start, end)
  {
    if rows != [] {
      var r := rows[|rows| - 1];
      var front := rows[..|rows| - 1];
      assert rows == front + [r];
      ReadingsOutsideKeeps(front, id, metric, start, end, r.time);
    }
  }

  lemma {:induction false} ReadingsWithoutBattery(rows: seq<Reading>, id: Id, o: Id)
    requires o != id
    ensures LatestBattery(ReadingsWithout(rows, id), o) == LatestBattery(rows, o)
  {
    if rows != [] {
      var front, last := rows[..|rows| - 1], rows[|rows| - 1];
      var f, w := ReadingsWithout(front, id), ReadingsWithout(rows, id);
      ReadingsWithoutBattery(front, id, o);
      if last.device == id {
        assert w == f;
      } else {
        assert w == f + [last] && w[..|w| - 1] == f;
      }
    }
  }

  lemma {:induction false} MoveLogsAlert(rows: seq<StatusEntry>, from: Id, to: Id, id: Id, t: Option<int>)
    requires from != to && forall i :: 0 <= i < |rows| ==> rows[i].device != to
    ensures AlertBy(MoveLogs(rows, from, to), to, t) == AlertBy(rows, from, t)
    ensures id != from && id != to ==> AlertBy(MoveLogs(rows, from, to), id, t) == AlertBy(rows, id, t)
  {
    if rows != [] {
      var front := rows[..|rows| - 1];
      assert MoveLogs(rows, from, to)[..|rows| - 1] == MoveLogs(front, from, to);
      MoveLogsAlert(front, from, to, id, t);
    }
  }

  lemma {:induction false} MoveLogsOthers(rows: seq<StatusEntry>, from: Id, to: Id, id: Id, t: Option<int>)
    requires id != from && id != to
    ensures AlertBy(MoveLogs(rows, from, to), id, t) == AlertBy(rows, id, t)
  {
    if rows != [] {
      var front := rows[..|rows| - 1];
      assert MoveLogs(rows, from, to)[..|rows| - 1] == MoveLogs(front, from, to);
      MoveLogsOthers(front, from, to, id, t);
    }
  }

  lemma {:induction false} MoveReadingsBattery(rows: seq<Reading>, from: Id, to: Id, id: Id)
    requires from != to && forall i :: 0 <= i < |rows| ==> rows[i].device != to
    ensures LatestBattery(MoveReadings(rows, from, to), to) == LatestBattery(rows, from)
    ensures id != from && id != to ==> LatestBattery(MoveReadings(rows, from, to), id) == LatestBattery(rows, id)
  {
    if rows != [] {
      var front := rows[..|rows| - 1];
      assert MoveReadings(rows, from, to)[..|rows| - 1] == MoveReadings(front, from, to);
      MoveReadingsBattery(front, from, to, id);
    }
  }

  lemma {:induction false} MergedKeeps(rows: seq<Reading>, all: seq<Reading>, source: Id, target: Id, now: int)
    requires source != target && ReadingsOk(rows, now)
    ensures ReadingsOk(MergedPrefix(rows, all, source, target), now)
    ensures forall r :: r in MergedPrefix(rows, all, source, target) ==>
              r.device != source && (r.device == target || r in rows)
  {
    if rows != [] {
      var r := rows[|rows| - 1];
      var front := rows[..|rows| - 1];
      assert rows == front + [r];
      MergedKeeps(front, all, source, target, r.time);
    }
  }

  lemma {:induction false} MergedBattery(rows: seq<Reading>, all: seq<Reading>, source: Id, target: Id, o: Id)
    requires o != source && o != target
    ensures LatestBattery(MergedPrefix(rows, all, source, target), o) == LatestBattery(rows, o)
  {
    if rows != [] {
      var front := rows[..|rows| - 1];
      MergedBattery(front, all, source, target, o);
      var m := MergedPrefix(rows, all, source, target);
      var f := MergedPrefix(front, all, source, target);
      if |m| > |f| { assert m[..|m| - 1] == f; } else { assert m == f; }
    }
  }

  // ------------------------------------------------------- structural events

  lemma DropCommandsKeeps(s: State, id: Id, pk: Option<nat>, now: int)
    requires Inv(s, now)
    ensures Inv(DropCommands(s, id, pk), now)
  {
    hide DeviceOk, CommandsOk, LogOk, ReadingsOk, CommandsWithout;
    var s' := DropCommands(s, id, pk);
    CommandsWithoutKeeps(s.commands, id, pk, s.nextPk, now);
    assert forall i :: 0 <= i < |s'.commands| ==> s'.commands[i] in s'.commands && s'.commands[i] in s.commands;
    forall o | o in s'.devices ensures RowOk(s', o, now) { assert RowOk(s, o, now); }
  }

  lemma EraseKeeps(s: State, id: Id, metric: Option<string>, start: int, end: int, now: int)
    requires Inv(s, now)
    ensures Inv(Erase(s, id, metric, start, end), now)
  {
    hide DeviceOk, CommandsOk, LogOk, ReadingsOk, ReadingsOutside;
    var s' := Erase(s, id, metric, start, end);
    ReadingsOutsideKeeps(s.readings, id, metric, start, end, now);
    assert forall i :: 0 <= i < |s'.readings| ==> s'.readings[i] in s'.readings && s'.readings[i] in s.readings;
    forall o | o in s'.devices ensures RowOk(s', o, now) { assert RowOk(s, o, now); }
  }

  lemma DeleteKeeps(s: State, id: Id, now: int)
    requires Inv(s, now)
    ensures Inv(Delete(s, id), now)
  {
    hide DeviceOk, CommandsOk, LogOk, ReadingsOk, CommandsWithout, LogsWithout, ReadingsWithout;
    var s' := Delete(s, id);
    CommandsWithoutKeeps(s.commands, id, None, s.nextPk, now);
    LogsWithoutKeeps(s.statusLog, id, now);
    ReadingsWithoutKeeps(s.readings, id, now);
    forall o | o in s'.devices ensures RowOk(s', o, now) { assert RowOk(s, o, now); }
    assert forall i :: 0 <= i < |s'.commands| ==> s'.commands[i] in s.commands && s'.commands[i] in s'.commands;
    assert forall i :: 0 <= i < |s'.statusLog| ==> s'.statusLog[i] in s.statusLog && s'.statusLog[i] in s'.statusLog;
    assert forall i :: 0 <= i < |s'.readings| ==> s'.readings[i] in s.readings && s'.readings[i] in s'.readings;
  }

  lemma MovedTables(s: State, from: Id, to: Id, now: int)
    requires CommandsOk(s.commands, s.nextPk, now) && LogOk(s.statusLog, now) && ReadingsOk(s.readings, now)
    ensures CommandsOk(MoveCommands(s.commands, from, to), s.nextPk, now)
    ensures LogOk(MoveLogs(s.statusLog, from, to), now)
    ensures ReadingsOk(MoveReadings(s.readings, from, to), now)
  {
  }

  lemma MovedReferential(s: State, from: Id, to: Id)
    requires Referential(s) && from in s.devices && to !in s.devices
    ensures Referential(Rename(s, from, to))
  {
  }

  lemma RenameKeeps(s: State, from: Id, to: Id, now: int)
    requires Inv(s, now) && from in s.devices && to !in s.devices
    ensures Inv(Rename(s, from, to), now)
  {
    hide CommandsOk, LogOk, ReadingsOk, MoveCommands, MoveLogs, MoveReadings, Referential, MirrorOk;
    MovedTables(s, from, to, now);
    MovedReferential(s, from, to);
    forall o | o in Rename(s, from, to).devices ensures RowOk(Rename(s, from, to), o, now) {
      assert RowOk(s, if o == to then from else o, now);
    }
  }

  lemma MergedReferential(s: State, source: Id, target: Id, now: int)
    requires Referential(s) && ReadingsOk(s.readings, now)
    requires source in s.devices && target in s.devices && source != target
    ensures Referential(Merge(s, source, target))
  {
    MergedKeeps(s.readings, s.readings, source, target, now);
    var s' := Merge(s, source, target);
    assert forall i :: 0 <= i < |s'.readings| ==> s'.readings[i] in s'.readings;
  }

  lemma MergeKeeps(s: State, source: Id, target: Id, now: int)
    requires Inv(s, now) && source in s.devices && target in s.devices && source != target
    ensures Inv(Merge(s, source, target), now)
  {
    hide CommandsOk, LogOk, ReadingsOk, MoveCommands, MoveLogs, MergedReadings, Referential, MirrorOk;
    MovedTables(s, source, target, now);
    MergedOk(s.readings, source, target, now);
    MergedReferential(s, source, target, now);
    forall o | o in Merge(s, source, target).devices ensures RowOk(Merge(s, source, target), o, now) {
      assert RowOk(s, o, now) && RowOk(s, source, now);
    }
  }

  lemma MergedOk(rows: seq<Reading>, source: Id, target: Id, now: int)
    requires source != target && ReadingsOk(rows, now)
    ensures ReadingsOk(MergedReadings(rows, source, target), now)
  {
    MergedKeeps(rows, rows, source, target, now);
  }

  /** One event keeps the invariant. */
  lemma StepKeeps(s: State, e: Event)
    requires Inv(s, e.now)
    ensures Inv(Step(s, e), e.now)
  {
    hide Inv, Handle, Delete, DropCommands, Erase, Rename, Merge;
    if Runs(s, e) {
      SessionStepKeeps(s, e);
    } else if !IsSessionAction(e.action) && e.id in s.devices {
      match e.action
      case ClearCommands(pk) => DropCommandsKeeps(s, e.id, pk, e.now);
      case EraseReadings(metric, start, end) => EraseKeeps(s, e.id, metric, start, end, e.now);
      case DeleteDevice => DeleteKeeps(s, e.id, e.now);
      case RenameTo(newId) => if Renames(s, e) { RenameKeeps(s, e.id, newId, e.now); }
      case MergeInto(target) => if Merges(s, e) { MergeKeeps(s, e.id, target, e.now); }
    }
  }

  lemma InvLater(s: State, before: int, now: int)
    requires Inv(s, before) && before <= now
    ensures Inv(s, now)
  {
  }

  /** Every reachable state satisfies the invariant. */
  lemma {:induction false} RunKeeps(es: seq<Event>)
    requires Timed(es)
    ensures Inv(Run(es), Clock(es))
  {
    hide Inv, Step;
    if es == [] {
      NothingYet();
    } else {
      var front := es[..|es| - 1];
      RunKeeps(front);
      if front != [] { InvLater(Run(front), Clock(front), Clock(es)); } else { NothingYet(); }
      StepKeeps(Run(front), es[|es| - 1]);
    }
  }

  lemma NothingYet()
    ensures forall now :: Inv(EMPTY, now)
  {
  }

  /** The invariant before the last event of a run, at that event's time. */
  lemma Front(es: seq<Event>)
    requires Timed(es) && es != []
    ensures Timed(es[..|es| - 1])
    ensures Inv(Run(es[..|es| - 1]), es[|es| - 1].now)
  {
    hide Inv, Step;
    var front := es[..|es| - 1];
    RunKeeps(front);
    if front != [] { InvLater(Run(front), Clock(front), Clock(es)); } else { NothingYet(); }
  }
}
