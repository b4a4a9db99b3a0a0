/** Short runs for which the row and the tables of a device part, one for each way they can. */
module Instances {
  import opened Domain
  import opened Protocol
  import opened Invariants
  import opened Reachable
  import opened History
  import opened MergeHistory
  import opened Agreement
  import opened AlertClock
  import opened Requests
  import opened Renaming

  // -------------------------------------------------- events while the broker is down

  function Discovery(now: int, id: Id): Event { Event(now, false, id, Sensors("t", [])) }

  function Approval(now: int, id: Id): Event { Event(now, false, id, Approve(true)) }

  function BatteryReport(now: int, id: Id, level: real): Event {
    Event(now, false, id, Sensors("t", [("bat", Some(level))]))
  }

  function Found(now: int): Device { FreshDevice("t").(lastSeen := Some(now)) }

  function With(s: State, id: Id, d: Device): State { s.(devices := s.devices[id := d]) }

  lemma Discovers(s: State, now: int, id: Id)
    requires id !in s.devices && s.commands == []
    ensures Step(s, Discovery(now, id)) == With(s, id, Found(now))
  {
  }

  lemma Approves(s: State, now: int, id: Id)
    requires id in s.devices
    ensures Step(s, Approval(now, id)) == With(s, id, s.devices[id].(isApproved := true))
  {
  }

  /** An approved device without alerts, requests or commands reports its battery level under an alias. */
  lemma Reports(s: State, now: int, id: Id, level: real)
    requires id in s.devices && s.commands == [] && s.devices[id].isApproved && s.devices[id].alert == NO_ALERT
    requires s.devices[id].capabilitiesRequestedAt.None?
    ensures Step(s, BatteryReport(now, id, level)) ==
            With(s, id, s.devices[id].(lastSeen := Some(now), batteryPercent := Some(level)))
            .(readings := s.readings + [Reading(now, id, "bat_percent", level)])
  {
    var data := [("bat", Some(level))];
    assert data[..0] == [];
    assert NewReadings(data, id, now) == [Reading(now, id, "bat_percent", level)];
    var x := Open(s, id, s.devices[id]);
    var y := Receive(x, false, now, false);
    assert y == x.(device := x.device.(lastSeen := Some(now)));
  }

  lemma {:induction false} RunThree(a: Event, b: Event, c: Event)
    ensures Run([a, b, c]) == Step(Step(Step(EMPTY, a), b), c)
  {
    hide Step;
    NoEvents();
    Ran([], a); Ran([a], b); Ran([a, b], c);
    assert [] + [a] == [a] && [a] + [b] == [a, b] && [a, b] + [c] == [a, b, c];
  }

  /** The run of a device that is discovered, approved and reports `level`, all at `now`. */
  lemma {:induction false} Measured(now: int, id: Id, level: real)
    ensures var s := Run([Discovery(now, id), Approval(now, id), BatteryReport(now, id, level)]);
            s == With(EMPTY, id, Found(now).(isApproved := true, batteryPercent := Some(level)))
                 .(readings := [Reading(now, id, "bat_percent", level)])
  {
    hide Step, Run;
    RunThree(Discovery(now, id), Approval(now, id), BatteryReport(now, id, level));
    Discovers(EMPTY, now, id);
    var s1 := With(EMPTY, id, Found(now));
    Approves(s1, now, id);
    var s2 := With(s1, id, Found(now).(isApproved := true));
    Reports(s2, now, id, level);
    assert EMPTY.readings + [Reading(now, id, "bat_percent", level)] == [Reading(now, id, "bat_percent", level)];
    assert Step(s2, BatteryReport(now, id, level)).devices ==
           With(EMPTY, id, Found(now).(isApproved := true, batteryPercent := Some(level))).devices;
  }

  // -------------------------------------------------------------------- the battery

  /** The one reading of a device is erased; its cached level stays. */
  lemma {:induction false} EraseCanPart()
    ensures var es := [Discovery(0, "a"), Approval(0, "a"), BatteryReport(0, "a", 50.0)];
            var erase := Event(1, false, "a", EraseReadings(None, 0, 1));
            var s, s' := Run(es), Run(es + [erase]);
            && BatteryAgrees(s, "a") && !BatteryAgrees(s', "a")
            && "a" in s'.devices && s'.devices["a"].batteryPercent == Some(50.0) && s'.readings == []
  {
    hide Run;
    var es := [Discovery(0, "a"), Approval(0, "a"), BatteryReport(0, "a", 50.0)];
    var erase := Event(1, false, "a", EraseReadings(None, 0, 1));
    Measured(0, "a", 50.0);
    Ran(es, erase);
    var r := Reading(0, "a", "bat_percent", 50.0);
    assert [r][..0] == [];
    assert ReadingsOutside([r], "a", None, 0, 1) == [];
  }

  /** A device at 90 percent is merged into one that reported 10 percent before it: the newer series survives, and the
      target goes on showing 10. */
  lemma {:induction false} MergeCanPartLevels()
    ensures var older := [Discovery(0, "b"), Approval(0, "b"), BatteryReport(0, "b", 10.0)];
            var newer := [Discovery(1, "a"), Approval(1, "a"), BatteryReport(1, "a", 90.0)];
            var s := Run(older + newer);
            && "a" in s.devices && "b" in s.devices && BatteryAgrees(s, "a") && BatteryAgrees(s, "b")
            && var s' := Merge(s, "a", "b");
            && LatestBattery(s'.readings, "b") == Some(90.0) && s'.devices["b"].batteryPercent == Some(10.0)
  {
    hide Run, Step, Merge;
    var older := [Discovery(0, "b"), Approval(0, "b"), BatteryReport(0, "b", 10.0)];
    var newer := [Discovery(1, "a"), Approval(1, "a"), BatteryReport(1, "a", 90.0)];
    Measured(0, "b", 10.0);
    var s0 := Run(older);
    RunMore(older, newer[0], newer[1], newer[2]);
    Discovers(s0, 1, "a");
    var s1 := With(s0, "a", Found(1));
    Approves(s1, 1, "a");
    var s2 := With(s1, "a", Found(1).(isApproved := true));
    Reports(s2, 1, "a", 90.0);
    var s := Run(older + newer);
    TwoLevels(s, 10.0, 90.0);
  }

  lemma TwoLevels(s: State, first: real, second: real)
    requires "a" in s.devices && "b" in s.devices
    requires s.readings == [Reading(0, "b", "bat_percent", first), Reading(1, "a", "bat_percent", second)]
    ensures LatestBattery(s.readings, "a") == Some(second) && LatestBattery(s.readings, "b") == Some(first)
    ensures LatestBattery(Merge(s, "a", "b").readings, "b") == Some(second)
    ensures Merge(s, "a", "b").devices["b"].batteryPercent == s.devices["b"].batteryPercent
  {
    hide LatestBattery, Latest, MergedPrefix;
    var a, b := Reading(0, "b", "bat_percent", first), Reading(1, "a", "bat_percent", second);
    assert s.readings == ([] + [a]) + [b];
    TwoReadings(a, b, "a");
    TwoReadings(a, b, "b");
    MergedPrefixLevel(s.readings, s.readings, "a", "b");
  }

  /** Two battery readings, the newer one last. */
  lemma {:induction false} TwoReadings(a: Reading, b: Reading, id: Id)
    requires a.metric == b.metric == "bat_percent" && a.time <= b.time
    ensures var rows := ([] + [a]) + [b];
            && LatestBattery(rows, id) ==
               (if b.device == id then Some(b.value) else if a.device == id then Some(a.value) else None)
            && Latest(rows, id, "bat_percent") ==
               (if b.device == id then Some(b.time) else if a.device == id then Some(a.time) else None)
  {
    hide LatestBattery, Latest;
    LatestBehind([] + [a], b, id, "bat_percent");
    LatestBehind([], a, id, "bat_percent");
    NoneLatest(id, "bat_percent");
    LevelBehind([] + [a], b, id);
    LevelBehind([], a, id);
    NoReadings(id);
  }

  lemma {:induction false} LatestBehind(rows: seq<Reading>, last: Reading, id: Id, metric: string)
    ensures Latest(rows + [last], id, metric) ==
            var before := Latest(rows, id, metric);
            if last.device == id && last.metric == metric && (before.None? || last.time >= before.value)
            then Some(last.time) else before
  {
  }

  lemma {:induction false} NoneLatest(id: Id, metric: string)
    ensures Latest([], id, metric) == None
  {
  }

  lemma {:induction false} RunMore(es: seq<Event>, a: Event, b: Event, c: Event)
    ensures Run(es + [a, b, c]) == Step(Step(Step(Run(es), a), b), c)
  {
    hide Step;
    Ran(es, a); Ran(es + [a], b); Ran(es + [a] + [b], c);
    assert es + [a] + [b] + [c] == es + [a, b, c];
  }

  // --------------------------------------------------------------------- requests

  /** A user types request_capabilities; the broker takes it and goes away before the server's own request. */
  lemma {:induction false} CommandCanSlip()
    ensures var ask := Event(1, true, "a", UserCommand(REQUEST_CAPABILITIES, false));
            var s := Run([Discovery(0, "a"), ask]);
            "a" in s.devices && WaitingIn(s.commands, "a") && s.devices["a"].capabilitiesRequestedAt.None?
  {
    hide Run;
    var ask := Event(1, true, "a", UserCommand(REQUEST_CAPABILITIES, false));
    NoEvents();
    Ran([], Discovery(0, "a")); Ran([Discovery(0, "a")], ask);
    assert [] + [Discovery(0, "a")] == [Discovery(0, "a")] && [Discovery(0, "a")] + [ask] == [Discovery(0, "a"), ask];
    Discovers(EMPTY, 0, "a");
    var s := Step(With(EMPTY, "a", Found(0)), ask);
    assert IsPending(s.commands[0], "a", "request_capabilities");
  }

  /** A device that owes an answer is merged into one the server asked nothing: it is owed with the timer off. */
  lemma {:induction false} MergeCanUncover()
    ensures var ask := Event(1, true, "a", RequestCaps);
            var s := Run([Discovery(0, "a"), Discovery(0, "b"), ask]);
            && "a" in s.devices && "b" in s.devices && s.devices["a"].capabilitiesRequestedAt == Some(1)
            && var s' := Merge(s, "a", "b");
            WaitingIn(s'.commands, "b") && s'.devices["b"].capabilitiesRequestedAt.None?
  {
    hide Run, Step, Merge, WaitingIn;
    var ask := Event(1, true, "a", RequestCaps);
    RunThree(Discovery(0, "a"), Discovery(0, "b"), ask);
    Discovers(EMPTY, 0, "a");
    var s1 := With(EMPTY, "a", Found(0));
    Discovers(s1, 0, "b");
    var s2 := With(s1, "b", Found(0));
    Asked(s2, 1, "a");
    Uncovered(Step(s2, ask), NewCommand(0, "a", REQUEST_CAPABILITIES, 1));
  }

  lemma Asked(s: State, now: int, id: Id)
    requires id in s.devices
    ensures var s' := Step(s, Event(now, true, id, RequestCaps));
            && s'.devices == s.devices[id := s.devices[id].(capabilitiesRequestedAt := Some(now))]
            && s'.commands == s.commands + [NewCommand(s.nextPk, id, REQUEST_CAPABILITIES, now)]
  {
  }

  lemma Uncovered(s: State, c: Command)
    requires "a" in s.devices && "b" in s.devices && [] + [c] == s.commands && IsPending(c, "a", "request_capabilities")
    ensures var s' := Merge(s, "a", "b");
            && WaitingIn(s'.commands, "b") && "b" in s'.devices
            && s'.devices["b"].capabilitiesRequestedAt == s.devices["b"].capabilitiesRequestedAt
  {
    hide MergedReadings, MoveLogs;
    assert IsPending(Merge(s, "a", "b").commands[0], "b", "request_capabilities");
  }

  // ---------------------------------------------------------------------- a rename

  /** A device that stands indoors is renamed and renamed back: it no longer says where. */
  lemma {:induction false} RenameCanForget()
    ensures var edit := Event(1, true, "a", Edit("", "", "indoor", None));
            var es := [Discovery(0, "a"), edit];
            var there, back := Event(2, true, "a", RenameTo("b")), Event(3, true, "b", RenameTo("a"));
            var s, s' := Run(es), Run(es + [there] + [back]);
            && "a" in s.devices && s.devices["a"].locationType == "indoor"
            && "a" in s'.devices && s'.devices["a"] == s.devices["a"].(locationType := "")
  {
    hide Run, Step, Rename;
    var edit := Event(1, true, "a", Edit("", "", "indoor", None));
    var es := [Discovery(0, "a"), edit];
    var there, back := Event(2, true, "a", RenameTo("b")), Event(3, true, "b", RenameTo("a"));
    Ran(es, there); Ran(es + [there], back);
    Indoors(edit);
    Renamed(Run(es), there);
    Renamed(Step(Run(es), there), back);
    RenameThereAndBack(es, "a", "b");
  }

  lemma {:induction false} Indoors(edit: Event)
    requires edit == Event(1, true, "a", Edit("", "", "indoor", None))
    ensures Run([Discovery(0, "a"), edit]).devices == map["a" := Found(0).(locationType := "indoor")]
  {
    hide Run, Step;
    NoEvents();
    Ran([], Discovery(0, "a")); Ran([Discovery(0, "a")], edit);
    assert [] + [Discovery(0, "a")] == [Discovery(0, "a")] && [Discovery(0, "a")] + [edit] == [Discovery(0, "a"), edit];
    Discovers(EMPTY, 0, "a");
    Edited(With(EMPTY, "a", Found(0)), edit);
  }

  lemma Edited(s: State, e: Event)
    requires e.action.Edit? && e.action.interval.None? && e.id in s.devices
    ensures Step(s, e) == With(s, e.id, s.devices[e.id].(displayName := e.action.name, location := e.action.location,
                                                          locationType := e.action.locationType))
  {
  }

  lemma Renamed(s: State, e: Event)
    requires Renames(s, e)
    ensures Step(s, e) == Rename(s, e.id, e.action.newId)
    ensures Step(s, e).devices.Keys == s.devices.Keys - {e.id} + {e.action.newId}
  {
  }
}
