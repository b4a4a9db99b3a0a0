/** When a device's row agrees with the tables that record its history: always, except where a merge, or an erasure of
    its readings, has put them apart. */
module Agreement {
  import opened Domain
  import opened Protocol
  import opened Invariants
  import opened Reachable
  import opened History
  import opened MergeHistory

  // ------------------------------------------------------------------ the alert

  /** The last merge into the device left its row and its log apart, and nothing was logged for it since. */
  predicate Apart(es: seq<Event>, id: Id) {
    if es == [] then false
    else
      var front, e := es[..|es| - 1], es[|es| - 1];
      var s := Run(front);
      if e.id == id && Logs(s, e) then false
      else if Merges(s, e) && id == e.action.target then
        MergedAlert(s.statusLog, e.id, id, None) != s.devices[id].alert
      else match Prior(s, e, id) case None => false case Some(p) => Apart(front, p)
  }

  lemma SessionAlert(s: State, e: Event, id: Id)
    requires Inv(s, e.now) && Runs(s, e) && id in Step(s, e).devices
    ensures e.id == id && Logs(s, e) ==> AlertAgrees(Step(s, e), id)
    ensures !(e.id == id && Logs(s, e)) ==>
              (AlertAgrees(Step(s, e), id) <==> (id in s.devices ==> AlertAgrees(s, id)))
  {
    hide Step, After, AlertBy, SessionOk;
    Effect(s, e);
    if id != e.id {
      LogSuffix(Opened(s, e), After(s, e), e.now, id, None);
    } else if !Logs(s, e) {
      assert Step(s, e).statusLog == s.statusLog;
      if id !in s.devices { NoAlert(s.statusLog, id, None); }
    }
  }

  lemma StructuralAgrees(s: State, e: Event, id: Id)
    requires Referential(s) && !Runs(s, e) && id in Step(s, e).devices
    ensures Merges(s, e) && id == e.action.target ==>
              (AlertAgrees(Step(s, e), id) <==> MergedAlert(s.statusLog, e.id, id, None) == s.devices[id].alert)
    ensures !(Merges(s, e) && id == e.action.target) ==>
              Prior(s, e, id).Some? && (AlertAgrees(Step(s, e), id) <==> AlertAgrees(s, Prior(s, e, id).value))
  {
    hide AlertBy, LastEntry, LogsWithout, MoveLogs, CommandsWithout, ReadingsWithout, MoveCommands, MoveReadings,
         MergedReadings, Handle;
    if e.id in s.devices && !IsSessionAction(e.action) {
      match e.action
      case DeleteDevice => LogsWithoutAlert(s.statusLog, e.id, id, None);
      case RenameTo(newId) => if Renames(s, e) { MoveLogsAlert(s.statusLog, e.id, newId, id, None); }
      case MergeInto(target) =>
        if Merges(s, e) {
          MergedLogShows(s.statusLog, e.id, target, None);
          if id != target { MoveLogsOthers(s.statusLog, e.id, target, id, None); }
        }
      case ClearCommands(_) =>
      case EraseReadings(_, _, _) =>
    }
  }

  /** In every run, for every device: the row holds the alert its newest log entry tells, if and only if the last
      merge into it did not put them apart or something was logged since. */
  lemma {:induction false} AlertAgreesExactly(es: seq<Event>, id: Id)
    requires Timed(es) && id in Run(es).devices
    ensures AlertAgrees(Run(es), id) <==> !Apart(es, id)
  {
    hide Step, Run, Inv, AlertAgrees, Logs, MergedAlert;
    if es == [] {
      NoEvents();
    } else {
      var front, e := es[..|es| - 1], es[|es| - 1];
      var s := Run(front);
      Front(es);
      RunStep(es);
      PriorKnown(s, e, id);
      if Runs(s, e) {
        SessionAlert(s, e, id);
      } else {
        InvReferential(s, e.now);
        FewerLogs(s, e);
        StructuralAgrees(s, e, id);
      }
      if Prior(s, e, id).Some? { AlertAgreesExactly(front, Prior(s, e, id).value); }
    }
  }

  /** Some device was merged into the device now called `id`, or into one it was known as before. */
  predicate Absorbed(es: seq<Event>, id: Id) {
    if es == [] then false
    else
      var s, e := Run(es[..|es| - 1]), es[|es| - 1];
      (Merges(s, e) && id == e.action.target) ||
      match Prior(s, e, id) case None => false case Some(p) => Absorbed(es[..|es| - 1], p)
  }

  lemma {:induction false} NeverApart(es: seq<Event>, id: Id)
    requires !Absorbed(es, id)
    ensures !Apart(es, id)
  {
    hide Run, Logs, MergedAlert;
    if es != [] {
      var s, e := Run(es[..|es| - 1]), es[|es| - 1];
      if Prior(s, e, id).Some? { NeverApart(es[..|es| - 1], Prior(s, e, id).value); }
    }
  }

  /** The log still tells what the device now called `id` held at instant `t`: row and log were not apart then, and
      whatever the devices it absorbed since had logged last by then, if they logged later, was that same alert. */
  predicate Faithful(es: seq<Event>, id: Id, t: int) {
    if es == [] then true
    else
      var front, e := es[..|es| - 1], es[|es| - 1];
      var s := Run(front);
      if e.now <= t then !Apart(es, id)
      else if Merges(s, e) && id == e.action.target &&
              LastLogged(front, e.id, t).Rank() > LastLogged(front, id, t).Rank() then
        LastLogged(front, e.id, t).Alert() == HeldAlert(front, id, t)
      else match Prior(s, e, id) case None => true case Some(p) => Faithful(front, p, t)
  }

  /** For every device of every run and every instant: the log tells the alert the device then held exactly at the
      faithful instants. */
  lemma {:induction false} LogIsHistory(es: seq<Event>, id: Id, t: int)
    requires Timed(es) && id in Run(es).devices
    ensures AlertBy(Run(es).statusLog, id, Some(t)) == HeldAlert(es, id, t) <==> Faithful(es, id, t)
  {
    hide Step, Inv, AlertBy, Run, Apart, LastLogged;
    if es == [] {
      NoEvents();
      NoAlert([], id, Some(t));
    } else {
      var front, e := es[..|es| - 1], es[|es| - 1];
      if e.now <= t {
        RunKeeps(es);
        LogWithin(Run(es), Clock(es), id, t);
        AlertAgreesExactly(es, id);
      } else {
        var s := Run(front);
        Front(es);
        RunStep(es);
        PriorKnown(s, e, id);
        if Merges(s, e) && id == e.action.target {
          MergedInstant(es, t);
          LogIsLastLogged(front, e.id, t);
          LogIsLastLogged(front, id, t);
        } else {
          PastKept(s, e, id, t);
        }
        if Prior(s, e, id).Some? { LogIsHistory(front, Prior(s, e, id).value, t); }
      }
    }
  }

  lemma {:induction false} MergedInstant(es: seq<Event>, t: int)
    requires Timed(es) && es != [] && Merges(Run(es[..|es| - 1]), es[|es| - 1]) && t < es[|es| - 1].now
    ensures var front, e := es[..|es| - 1], es[|es| - 1];
            && AlertBy(Run(es).statusLog, e.action.target, Some(t)) ==
               Newer(LastLogged(front, e.id, t), LastLogged(front, e.action.target, t)).Alert()
            && e.id in Run(front).devices && Prior(Run(front), e, e.action.target) == Some(e.action.target)
  {
    hide Step, Inv, AlertBy, Run;
    Front(es);
    RunStep(es);
    MergedAway(Run(es[..|es| - 1]), es[|es| - 1]);
    LogIsLastLogged(es, es[|es| - 1].action.target, t);
  }

  /** The timeline of a device that never absorbed another is faithful at every instant. */
  lemma {:induction false} FaithfulUnlessAbsorbed(es: seq<Event>, id: Id, t: int)
    requires Timed(es) && id in Run(es).devices && !Absorbed(es, id)
    ensures Faithful(es, id, t)
  {
    hide Run, AlertAgrees, Inv, Step, Apart;
    if es != [] {
      var front, e := es[..|es| - 1], es[|es| - 1];
      if e.now <= t {
        NeverApart(es, id);
      } else {
        RunStep(es);
        Front(es);
        PriorKnown(Run(front), e, id);
        if Prior(Run(front), e, id).Some? { FaithfulUnlessAbsorbed(front, Prior(Run(front), e, id).value, t); }
      }
    }
  }

  // ---------------------------------------------------------------- the battery

  predicate BatteryAgrees(s: State, id: Id) {
    id in s.devices && LatestBattery(s.readings, id) == s.devices[id].batteryPercent
  }

  /** The event stores a battery level. */
  ghost predicate StoresLevel(s: State, e: Event) {
    exists i :: |s.readings| <= i < |Step(s, e).readings| && Step(s, e).readings[i].metric == "bat_percent"
  }

  function MergedLevel(rows: seq<Reading>, source: Id, target: Id): Option<real> {
    if SourceWins(rows, source, target, "bat_percent") then LatestBattery(rows, source) else LatestBattery(rows, target)
  }

  /** The event erases readings of its device. */
  predicate Erases(s: State, e: Event) {
    e.action.EraseReadings? && e.id in s.devices && e.action.start < e.action.end
  }

  /** The level of the newest bat_percent reading of a device that an erasure does not select. */
  function SurvivingLevel(rows: seq<Reading>, id: Id, only: Option<string>, start: int, end: int): Option<real> {
    if rows == [] then None
    else
      var r := rows[|rows| - 1];
      if r.device == id && r.metric == "bat_percent" && !Erased(r, id, only, start, end) then Some(r.value)
      else SurvivingLevel(rows[..|rows| - 1], id, only, start, end)
  }

  /** Position of a device's newest bat_percent reading, -1 when it has none. */
  function LastLevel(rows: seq<Reading>, id: Id): (i: int)
    ensures -1 <= i < |rows|
  {
    if rows == [] then -1
    else
      var r := rows[|rows| - 1];
      if r.device == id && r.metric == "bat_percent" then |rows| - 1 else LastLevel(rows[..|rows| - 1], id)
  }

  /** The last merge into the device or erasure of its readings left its cached level and its readings apart, and no
      level was stored since. */
  ghost predicate LevelApart(es: seq<Event>, id: Id) {
    if es == [] then false
    else
      var front, e := es[..|es| - 1], es[|es| - 1];
      var s := Run(front);
      if e.id == id && Runs(s, e) && StoresLevel(s, e) then false
      else if e.id == id && Erases(s, e) then
        SurvivingLevel(s.readings, id, e.action.only, e.action.start, e.action.end) != s.devices[id].batteryPercent
      else if Merges(s, e) && id == e.action.target then
        MergedLevel(s.readings, e.id, id) != s.devices[id].batteryPercent
      else match Prior(s, e, id) case None => false case Some(p) => LevelApart(front, p)
  }

  lemma {:induction false} MergedPrefixLevel(rows: seq<Reading>, all: seq<Reading>, source: Id, target: Id)
    requires source != target
    ensures LatestBattery(MergedPrefix(rows, all, source, target), target) ==
            if SourceWins(all, source, target, "bat_percent") then LatestBattery(rows, source)
            else LatestBattery(rows, target)
  {
    hide SourceWins;
    if rows != [] {
      var front := rows[..|rows| - 1];
      MergedPrefixLevel(front, all, source, target);
      var f, m := MergedPrefix(front, all, source, target), MergedPrefix(rows, all, source, target);
      if |m| > |f| { assert m[..|m| - 1] == f; } else { assert m == f; }
    }
  }

  lemma {:induction false} ErasedLevel(rows: seq<Reading>, id: Id, only: Option<string>, start: int, end: int, o: Id)
    ensures LatestBattery(ReadingsOutside(rows, id, only, start, end), o) ==
            if o == id then SurvivingLevel(rows, id, only, start, end) else LatestBattery(rows, o)
  {
    hide Erased, LatestBattery;
    if rows != [] {
      var front, last := rows[..|rows| - 1], rows[|rows| - 1];
      ErasedLevel(front, id, only, start, end, o);
      if Erased(last, id, only, start, end) { ErasedIsOwn(last, id, only, start, end); }
      var f := ReadingsOutside(front, id, only, start, end);
      LevelBehind(f, last, o);
      LevelBehind(front, last, o);
      assert front + [last] == rows;
      if Erased(last, id, only, start, end) { assert f + [] == f; }
    } else {
      NoReadings(o);
    }
  }

  lemma ErasedIsOwn(r: Reading, id: Id, only: Option<string>, start: int, end: int)
    requires Erased(r, id, only, start, end)
    ensures r.device == id
  {
  }

  lemma {:induction false} NoReadings(id: Id)
    ensures LatestBattery([], id) == None
  {
  }

  lemma {:induction false} LevelBehind(rows: seq<Reading>, last: Reading, id: Id)
    ensures LatestBattery(rows + [last], id) ==
            if last.device == id && last.metric == "bat_percent" then Some(last.value) else LatestBattery(rows, id)
  {
  }

  lemma {:induction false} KeptLevel(rows: seq<Reading>, id: Id, only: Option<string>, start: int, end: int)
    ensures var k := LastLevel(rows, id);
            (k < 0 ==> SurvivingLevel(rows, id, only, start, end) == LatestBattery(rows, id)) &&
            (k >= 0 && !Erased(rows[k], id, only, start, end) ==>
               SurvivingLevel(rows, id, only, start, end) == LatestBattery(rows, id))
  {
    if rows != [] { KeptLevel(rows[..|rows| - 1], id, only, start, end); }
  }

  lemma SessionLevel(s: State, e: Event, id: Id)
    requires Inv(s, e.now) && Runs(s, e) && id in Step(s, e).devices
    ensures e.id == id && StoresLevel(s, e) ==> BatteryAgrees(Step(s, e), id)
    ensures !(e.id == id && StoresLevel(s, e)) ==>
              (BatteryAgrees(Step(s, e), id) <==> (id in s.devices ==> BatteryAgrees(s, id)))
  {
    hide Step, After, LatestBattery, AlertBy, SessionOk;
    Effect(s, e);
    var x, y := Opened(s, e), After(s, e);
    assert NoLevel(x, y) <==> !StoresLevel(s, e);
    if id != e.id {
      BatterySuffix(x, y, e.now, id);
    } else if !StoresLevel(s, e) {
      assert y.readings == x.readings + y.readings[|x.readings|..];
      SameLevel(x.readings, y.readings[|x.readings|..], id);
      if id !in s.devices { NoBattery(s.readings, id); }
    }
  }

  lemma {:induction false} StructuralLevel(s: State, e: Event, id: Id)
    requires Referential(s) && !Runs(s, e) && id in Step(s, e).devices
    ensures e.id == id && Erases(s, e) ==>
              (BatteryAgrees(Step(s, e), id) <==>
                 SurvivingLevel(s.readings, id, e.action.only, e.action.start, e.action.end) ==
                 s.devices[id].batteryPercent)
    ensures Merges(s, e) && id == e.action.target ==>
              (BatteryAgrees(Step(s, e), id) <==> MergedLevel(s.readings, e.id, id) == s.devices[id].batteryPercent)
    ensures !(e.id == id && Erases(s, e)) && !(Merges(s, e) && id == e.action.target) ==>
              Prior(s, e, id).Some? && (BatteryAgrees(Step(s, e), id) <==> BatteryAgrees(s, Prior(s, e, id).value))
  {
    hide LatestBattery, SourceWins, LogsWithout, MoveLogs, CommandsWithout, ReadingsWithout, ReadingsOutside,
         MoveCommands, MoveReadings, MergedPrefix, SurvivingLevel, Handle;
    if e.id in s.devices && !IsSessionAction(e.action) {
      match e.action
      case DeleteDevice => ReadingsWithoutBattery(s.readings, e.id, id);
      case RenameTo(newId) => if Renames(s, e) { MoveReadingsBattery(s.readings, e.id, newId, id); }
      case MergeInto(target) =>
        if Merges(s, e) {
          MergedPrefixLevel(s.readings, s.readings, e.id, target);
          if id != target { MergedBattery(s.readings, s.readings, e.id, target, id); }
        }
      case ClearCommands(_) =>
      case EraseReadings(only, start, end) => ErasedLevel(s.readings, e.id, only, start, end, id);
    }
  }

  /** In every run, for every device: the cached level is that of the last stored bat_percent reading, whichever
      alias carried it, if and only if the last merge or erasure did not put them apart or a level was stored since. */
  lemma {:induction false} BatteryIsLastStored(es: seq<Event>, id: Id)
    requires Timed(es) && id in Run(es).devices
    ensures LatestBattery(Run(es).readings, id) == Run(es).devices[id].batteryPercent <==> !LevelApart(es, id)
  {
    hide Step, Run, Inv, LatestBattery, StoresLevel, MergedLevel;
    if es == [] {
      NoEvents();
    } else {
      var front, e := es[..|es| - 1], es[|es| - 1];
      var s := Run(front);
      Front(es);
      RunStep(es);
      PriorKnown(s, e, id);
      if Runs(s, e) {
        SessionLevel(s, e, id);
      } else {
        InvReferential(s, e.now);
        StructuralLevel(s, e, id);
      }
      if Prior(s, e, id).Some? { BatteryIsLastStored(front, Prior(s, e, id).value); }
    }
  }

  /** An erasure keeps the cached level: where it matched the readings, the erasure parts them exactly when it selects
      the newest bat_percent reading and the newest one left carries another level, or none is left. */
  lemma EraseLevelAgreesExactly(s: State, e: Event)
    requires Referential(s) && Erases(s, e) && BatteryAgrees(s, e.id)
    ensures var k := LastLevel(s.readings, e.id);
            var left := SurvivingLevel(s.readings, e.id, e.action.only, e.action.start, e.action.end);
            BatteryAgrees(Step(s, e), e.id) <==>
              !(k >= 0 && Erased(s.readings[k], e.id, e.action.only, e.action.start, e.action.end) &&
                left != s.devices[e.id].batteryPercent)
  {
    hide Step, LatestBattery, SurvivingLevel, LastLevel, Erased;
    StillThere(s, e);
    StructuralLevel(s, e, e.id);
    KeptLevel(s.readings, e.id, e.action.only, e.action.start, e.action.end);
  }

  lemma StillThere(s: State, e: Event)
    requires Erases(s, e)
    ensures !Runs(s, e) && Step(s, e).devices == s.devices
  {
  }

  /** After a merge the target keeps its cached level: it matches the merged readings exactly when the series that
      survives ends on that level. */
  lemma MergeLevelAgreesExactly(s: State, source: Id, target: Id)
    requires source != target && source in s.devices && target in s.devices
    ensures BatteryAgrees(Merge(s, source, target), target) <==>
              MergedLevel(s.readings, source, target) == s.devices[target].batteryPercent
    ensures BatteryAgrees(s, source) && BatteryAgrees(s, target) ==>
              (BatteryAgrees(Merge(s, source, target), target) <==>
                 s.devices[source].batteryPercent == s.devices[target].batteryPercent ||
                 !SourceWins(s.readings, source, target, "bat_percent"))
  {
    hide LatestBattery, SourceWins, MergedPrefix, MoveCommands, MoveLogs;
    MergedPrefixLevel(s.readings, s.readings, source, target);
  }
}
