/** Readings and the battery cache over whole runs. */
module Ingestion {
  import opened Domain
  import opened Protocol
  import opened Reachable
  import opened History
  import opened AlertClock
  import opened Identity
  import opened Spelling

  /** No stored reading carries an alias, and the table is in time order. */
  lemma {:induction false} StoredMetricsAreCanonical(es: seq<Event>, i: int)
    requires Timed(es) && 0 <= i < |Run(es).readings|
    ensures Run(es).readings[i].metric !in METRIC_ALIASES
    ensures Run(es).readings[i].device in Run(es).devices
    ensures forall j :: i < j < |Run(es).readings| ==> Run(es).readings[i].time <= Run(es).readings[j].time
  {
    hide Run;
    RunKeeps(es);
  }

  // ------------------------------------------------------ which entries are stored

  /** The entry has a name of at most 64 characters and a number. */
  predicate Keeps(entry: (string, Option<real>)) { |entry.0| <= 64 && Spelled(entry.0) && entry.1.Some? }

  function CanonicalName(name: string): string {
    if name == "temp" then "temperature"
    else if name == "humi" then "humidity"
    else if name == "press" then "pressure"
    else if name == "uv" then "uv_index"
    else if name == "batv" || name == "battery_v" then "bat_voltage"
    else if name == "bat" || name == "battery_pct" then "bat_percent"
    else if name == "light_lux" then "lux"
    else if name == "wifi_rssi" then "rssi"
    else name
  }

  /** The positions of the entries that are stored, in order: all that keep, and no others. */
  function Kept(data: Payload): (kept: seq<nat>)
    ensures forall i, j :: 0 <= i < j < |kept| ==> kept[i] < kept[j]
    ensures forall k :: 0 <= k < |kept| ==> kept[k] < |data| && Keeps(data[kept[k]])
    ensures forall i :: 0 <= i < |data| && Keeps(data[i]) ==> i in kept
  {
    if data == [] then []
    else
      var front := Kept(data[..|data| - 1]);
      if Keeps(data[|data| - 1]) then front + [|data| - 1] else front
  }

  /** One reading per stored entry, under its canonical name. */
  function IngestedReadings(data: Payload, id: Id, now: int): seq<Reading> {
    var kept := Kept(data);
    seq(|kept|, k requires 0 <= k < |kept| =>
      Reading(now, id, CanonicalName(data[kept[k]].0), data[kept[k]].1.value))
  }

  lemma CanonicalIs(name: string)
    ensures Canonical(name) == CanonicalName(name)
  {
  }

  lemma {:induction false} LastReading(data: Payload, id: Id, now: int)
    ensures data == [] ==> IngestedReadings(data, id, now) == []
    ensures data != [] ==>
              var last := data[|data| - 1];
              IngestedReadings(data, id, now) == IngestedReadings(data[..|data| - 1], id, now) +
                if Keeps(last) then [Reading(now, id, CanonicalName(last.0), last.1.value)] else []
  {
    hide Keeps, CanonicalName;
    if data != [] {
      var kept, front := Kept(data), Kept(data[..|data| - 1]);
      assert forall k :: 0 <= k < |front| ==> kept[k] == front[k] && data[front[k]] == data[..|data| - 1][front[k]];
    }
  }

  lemma {:induction false} NewReadingsAre(data: Payload, id: Id, now: int)
    ensures NewReadings(data, id, now) == IngestedReadings(data, id, now)
  {
    hide Canonical, CanonicalName, MatchesIdentifier, Spelled, IngestedReadings;
    LastReading(data, id, now);
    if data != [] {
      NewReadingsAre(data[..|data| - 1], id, now);
      SpelledIs(data[|data| - 1].0);
      CanonicalIs(data[|data| - 1].0);
    }
  }

  /** The last battery level a payload carries, under whichever of its three names. */
  function BatteryLevel(data: Payload): Option<real> {
    if data == [] then None
    else
      var (name, value) := data[|data| - 1];
      if (name == "bat" || name == "battery_pct" || name == "bat_percent") && value.Some? then value
      else BatteryLevel(data[..|data| - 1])
  }

  lemma BatteryNames(name: string)
    ensures CanonicalName(name) == "bat_percent" <==> name == "bat" || name == "battery_pct" || name == "bat_percent"
    ensures CanonicalName(name) == "bat_percent" ==> SafeKey(name)
  {
  }

  lemma {:induction false} BatteryLevelIs(data: Payload, id: Id, now: int)
    ensures LatestBattery(NewReadings(data, id, now), id) == BatteryLevel(data)
  {
    hide Canonical, CanonicalName, SafeKey;
    if data != [] {
      var front, last := data[..|data| - 1], data[|data| - 1];
      BatteryLevelIs(front, id, now);
      CanonicalIs(last.0);
      BatteryNames(last.0);
      var f, w := NewReadings(front, id, now), NewReadings(data, id, now);
      if |w| > |f| { assert w[..|w| - 1] == f; } else { assert w == f; }
    }
  }

  // ------------------------------------------------------------------ over runs

  lemma SensorsReadings(x: Session, created: bool, e: Event)
    requires e.action.Sensors?
    ensures var y := OnSensors(x, created, e.now, e.up, e.action.data);
            && y.device.isApproved == x.device.isApproved
            && y.readings == x.readings + if x.device.isApproved then NewReadings(e.action.data, x.id, e.now) else []
  {
    hide Receive, Ingest, NewReadings, Reconcile, LatestBattery;
    ReceiveColumns(x, created, e.now, e.up);
    ReceiveReadings(x, created, e.now, e.up);
    var r := Receive(x, created, e.now, e.up);
    IngestColumns(r, e.now, e.up, e.action.data);
    IngestReadings(r, e.now, e.up, e.action.data);
    assert x.readings + [] == x.readings;
  }

  lemma ReceiveReadings(x: Session, created: bool, now: int, up: bool)
    ensures Receive(x, created, now, up).readings == x.readings
  {
  }

  lemma {:induction false} IngestReadings(x: Session, now: int, up: bool, data: Payload)
    ensures Ingest(x, now, up, data).readings == x.readings + NewReadings(data, x.id, now)
  {
  }

  lemma OthersStoreNothing(x: Session, created: bool, e: Event)
    requires IsSessionAction(e.action) && !e.action.Sensors?
    ensures Handle(x, created, e).readings == x.readings
  {
  }

  /** The readings table gains, for a sensor message of an approved device, one reading for each payload entry with a
      valid name and a number, in the order of the payload and under its canonical name, and nothing from any other
      message or web action on a session. */
  lemma {:induction false} ReadingsGained(es: seq<Event>, e: Event)
    requires Timed(es + [e]) && Runs(Run(es), e)
    ensures var s, s' := Run(es), Run(es + [e]);
            var approved := e.id in s.devices && LastSet(es, e.id, Decision, false) == Some(true);
            s'.readings == s.readings +
              if e.action.Sensors? && approved then IngestedReadings(e.action.data, e.id, e.now) else []
  {
    hide Run, Step, Handle, NewReadings, IngestedReadings, LastSet;
    assert (es + [e])[..|es + [e]| - 1] == es;
    RunStep(es + [e]);
    Front(es + [e]);
    var s := Run(es);
    Effect(s, e);
    SessionReadings(s, e);
    if e.id in s.devices { ApprovalIsLastDecision(es, e.id); }
    if e.action.Sensors? { NewReadingsAre(e.action.data, e.id, e.now); }
  }

  lemma SessionReadings(s: State, e: Event)
    requires Runs(s, e)
    ensures After(s, e).readings == s.readings +
              if e.action.Sensors? && Opened(s, e).device.isApproved then NewReadings(e.action.data, e.id, e.now)
              else []
  {
    hide OnSensors, NewReadings;
    if e.action.Sensors? {
      SensorsReadings(Opened(s, e), e.id !in s.devices, e);
    } else {
      OthersStoreNothing(Opened(s, e), e.id !in s.devices, e);
      assert s.readings + [] == s.readings;
    }
  }

  /** A low-battery warning never survives an approved message whose last bat_percent is above the
      threshold, on any reachable state. */
  lemma {:induction false} LowBatteryReleased(es: seq<Event>, e: Event)
    requires Timed(es + [e]) && e.action.Sensors? && Runs(Run(es), e)
    requires Opened(Run(es), e).device.isApproved
    requires BatteryLevel(e.action.data).Some? && BatteryLevel(e.action.data).value > 20.0
    ensures e.id in Run(es + [e]).devices
    ensures Run(es + [e]).devices[e.id].alert != Alert(Warning, "low_battery")
  {
    hide Run, Step, After, NewReadings, LatestBattery, BatteryLevel;
    assert (es + [e])[..|es + [e]| - 1] == es;
    RunStep(es + [e]);
    Front(es + [e]);
    Effect(Run(es), e);
    BatteryLevelIs(e.action.data, e.id, e.now);
    NoLowBattery(Run(es), e);
  }

  lemma NoLowBattery(s: State, e: Event)
    requires Runs(s, e) && e.action.Sensors? && Opened(s, e).device.isApproved
    requires var level := LatestBattery(NewReadings(e.action.data, e.id, e.now), e.id);
             level.Some? && level.value > LOW_BATTERY_THRESHOLD
    ensures After(s, e).device.alert != Alert(Warning, LOW_BATTERY_ALERT)
  {
    hide Receive, Ingest, NewReadings, LatestBattery, Reconcile;
    var x := Opened(s, e);
    ReceiveColumns(x, e.id !in s.devices, e.now, e.up);
    IngestColumns(Receive(x, e.id !in s.devices, e.now, e.up), e.now, e.up, e.action.data);
  }
}
