/** The settings of a device: what its capabilities messages claimed and what an admin entered last. */
module Identity {
  import opened Domain
  import opened Protocol
  import opened Invariants
  import opened Reachable
  import opened History
  import opened AlertClock

  // ------------------------------------------------------------ what sets a column

  /** The hardware code is overwritten by every report, also by one whose claim resolves to nothing. */
  function ClaimedCode(a: Action): Option<Option<string>> {
    if a.Capabilities? then Some(a.report.hw) else None
  }

  function ClaimedRevision(a: Action): Option<nat> {
    if a.Capabilities? && a.report.hwRev.Some? && a.report.hwRev.value <= 65535 then a.report.hwRev else None
  }

  function ClaimedOta(a: Action): Option<bool> { if a.Capabilities? then a.report.ota else None }

  function ClaimedVersion(a: Action): Option<string> { if a.Capabilities? then a.report.fw else None }

  function ClaimedDiag(a: Action): Option<bool> { if a.Capabilities? then a.report.diag else None }

  /** A device may report an interval of up to a day; an admin's entry is brought into that range. */
  function SetInterval(a: Action): Option<nat> {
    match a
    case Capabilities(r) =>
      if r.interval.Some? && 0.0 < r.interval.value <= 86400.0 then Some(r.interval.value.Floor) else None
    case Edit(_, _, _, interval) =>
      if interval.None? then None
      else Some(if interval.value > 86400 then 86400 else Max(interval.value, 0))
    case _ => None
  }

  function EditedName(a: Action): Option<string> { if a.Edit? then Some(a.name) else None }

  function EditedLocation(a: Action): Option<string> { if a.Edit? then Some(a.location) else None }

  function EditedLocationType(a: Action): Option<string> { if a.Edit? then Some(a.locationType) else None }

  function Decision(a: Action): Option<bool> { if a.Approve? then Some(a.approved) else None }

  /** What the device now called `id` was last set to, followed back through its renames, or only up to the last one
      when a rename forgets the value. */
  function LastSet<T>(es: seq<Event>, id: Id, sets: Action -> Option<T>, forgets: bool): Option<T> {
    if es == [] then None
    else
      var front, e := es[..|es| - 1], es[|es| - 1];
      var s := Run(front);
      if e.id == id && id in s.devices && sets(e.action).Some? then sets(e.action)
      else if forgets && Renames(s, e) && id == e.action.newId then None
      else match Prior(s, e, id) case None => None case Some(p) => LastSet(front, p, sets, forgets)
  }

  function Or<T>(given: Option<T>, otherwise: T): T { if given.Some? then given.value else otherwise }

  /** The columns only a capabilities message or an admin sets. */
  datatype Settings = Settings(code: Option<string>, revision: Option<nat>, ota: bool, version: string, diag: bool,
                               interval: nat, name: string, location: string, locationType: string, approved: bool)

  const DEFAULTS: Settings := Settings(None, None, false, "", false, 0, "", "", "", false)

  function Stored(d: Device): Settings {
    Settings(d.hardwareCode, d.hwRev, d.otaCapable, d.fwVersion, d.diagCapable, d.publishInterval, d.displayName,
             d.location, d.locationType, d.isApproved)
  }

  function LastSettings(es: seq<Event>, id: Id): Settings {
    Settings(Or(LastSet(es, id, ClaimedCode, false), None),
             LastSet(es, id, ClaimedRevision, false),
             Or(LastSet(es, id, ClaimedOta, false), false),
             Or(LastSet(es, id, ClaimedVersion, false), ""),
             Or(LastSet(es, id, ClaimedDiag, true), false),
             Or(LastSet(es, id, SetInterval, false), 0),
             Or(LastSet(es, id, EditedName, false), ""),
             Or(LastSet(es, id, EditedLocation, false), ""),
             Or(LastSet(es, id, EditedLocationType, true), ""),
             Or(LastSet(es, id, Decision, false), false))
  }

  // ------------------------------------------------------------------- one event

  function Updated(t: Settings, a: Action): Settings {
    Settings(Or(ClaimedCode(a), t.code),
             if ClaimedRevision(a).Some? then ClaimedRevision(a) else t.revision,
             Or(ClaimedOta(a), t.ota), Or(ClaimedVersion(a), t.version), Or(ClaimedDiag(a), t.diag),
             Or(SetInterval(a), t.interval), Or(EditedName(a), t.name), Or(EditedLocation(a), t.location),
             Or(EditedLocationType(a), t.locationType), Or(Decision(a), t.approved))
  }

  function Forgotten(t: Settings): Settings { t.(diag := false, locationType := "") }

  /** What a row just created, renamed or kept starts the event with. */
  function Carried(s: State, e: Event, id: Id, before: Id -> Settings): Settings {
    match Prior(s, e, id)
    case None => DEFAULTS
    case Some(p) => if Renames(s, e) && id == e.action.newId then Forgotten(before(p)) else before(p)
  }

  lemma {:induction false} SettingsOfReceive(x: Session, created: bool, now: int, up: bool)
    ensures Stored(Receive(x, created, now, up).device) == Stored(x.device)
  {
    hide Receive, Reconcile;
    ReceiveColumns(x, created, now, up);
  }

  lemma SettingsOfIngest(x: Session, now: int, up: bool, data: Payload)
    ensures Stored(Ingest(x, now, up, data).device) == Stored(x.device)
  {
    hide Ingest, NewReadings, LatestBattery, DiagDue;
    IngestColumns(x, now, up, data);
  }

  lemma SettingsOfReport(x: Session, now: int, up: bool, r: CapabilitiesReport)
    ensures Stored(OnCapabilities(x, now, up, r).device) == Updated(Stored(x.device), Capabilities(r))
  {
    hide Settle, RestoreCommands, Published;
  }

  /** A handler sets these columns as the message or request asks, and no others. */
  lemma HandlerSettings(x: Session, created: bool, e: Event)
    requires IsSessionAction(e.action)
    ensures Stored(Handle(x, created, e).device) == Updated(Stored(x.device), e.action)
  {
    hide Receive, Ingest, OnCapabilities, OnStatus, OnDiag, OnAck, OnCalibration, OnUserCommand, OnRequestCapabilities,
         OnConfirmUplink, OnSetOffset, OnSetCalibration, OnOtaPush, Updated, Stored;
    if e.action.Sensors? {
      SettingsOfReceive(x, created, e.now, e.up);
      SettingsOfIngest(Receive(x, created, e.now, e.up), e.now, e.up, e.action.data);
      NothingSet(Stored(x.device), e.action);
    } else if e.action.Capabilities? {
      SettingsOfReport(x, e.now, e.up, e.action.report);
    } else if e.action.Edit? || e.action.Approve? {
      AdminSettings(x, created, e);
    } else {
      if e.action.StatusReport? || e.action.CommandList? || e.action.Calibration? || e.action.Diag? || e.action.Ack? {
        OtherMessages(x, created, e);
      } else {
        OtherRequests(x, created, e);
      }
      NothingSet(Stored(x.device), e.action);
    }
  }

  lemma AdminSettings(x: Session, created: bool, e: Event)
    requires e.action.Edit? || e.action.Approve?
    ensures Stored(Handle(x, created, e).device) == Updated(Stored(x.device), e.action)
  {
  }

  lemma OtherMessages(x: Session, created: bool, e: Event)
    requires e.action.StatusReport? || e.action.CommandList? || e.action.Calibration? || e.action.Diag? || e.action.Ack?
    ensures Stored(Handle(x, created, e).device) == Stored(x.device)
  {
    hide OnStatus, OnDiag, OnAck, ReportedMirror;
    match e.action
    case StatusReport(level, message) => StatusSettings(x, e.now, level, message);
    case Diag(level, message) => DiagSettings(x, e.now, level, message);
    case Ack(ack) => AckSettings(x, e.now, ack);
    case _ =>
  }

  lemma StatusSettings(x: Session, now: int, level: ReportedLevel, message: Option<string>)
    ensures Stored(OnStatus(x, now, level, message).device) == Stored(x.device)
  {
  }

  lemma DiagSettings(x: Session, now: int, level: ReportedLevel, message: Option<string>)
    ensures Stored(OnDiag(x, now, level, message).device) == Stored(x.device)
  {
  }

  lemma AckSettings(x: Session, now: int, a: AckReport)
    ensures Stored(OnAck(x, now, a).device) == Stored(x.device)
  {
  }

  lemma OtherRequests(x: Session, created: bool, e: Event)
    requires e.action.UserCommand? || e.action.RequestCaps? || e.action.ConfirmUplink? || e.action.Offset? ||
             e.action.CalibrationValue? || e.action.OtaPush?
    ensures Stored(Handle(x, created, e).device) == Stored(x.device)
  {
    hide Put, Round2, Round4, Published;
  }

  /** The settings of the row that is now called `p`. */
  function StoredIn(s: State, p: Id): Settings { if p in s.devices then Stored(s.devices[p]) else DEFAULTS }

  lemma SettingsStep(s: State, e: Event, id: Id)
    requires Inv(s, e.now) && id in Step(s, e).devices
    ensures var before := Carried(s, e, id, p => StoredIn(s, p));
            Stored(Step(s, e).devices[id]) ==
            if e.id == id && id in s.devices then Updated(before, e.action) else before
  {
    hide Step, Handle, SessionOk, Recorded, Updated;
    if Runs(s, e) {
      Effect(s, e);
      if e.id == id {
        HandlerSettings(Opened(s, e), e.id !in s.devices, e);
        if id !in s.devices { NothingSet(DEFAULTS, e.action); }
      }
    } else {
      StructuralSettings(s, e, id);
      if e.id == id && id in s.devices { NothingSet(Stored(s.devices[id]), e.action); }
    }
  }

  lemma NothingSet(t: Settings, a: Action)
    requires !a.Capabilities? && !a.Edit? && !a.Approve?
    ensures Updated(t, a) == t
  {
  }

  lemma StructuralSettings(s: State, e: Event, id: Id)
    requires !Runs(s, e) && id in Step(s, e).devices
    ensures Stored(Step(s, e).devices[id]) == Carried(s, e, id, p => StoredIn(s, p))
    ensures e.id == id && id in s.devices ==> !IsSessionAction(e.action) && !Renames(s, e)
  {
  }

  lemma {:induction false} LastSetStep<T>(es: seq<Event>, id: Id, sets: Action -> Option<T>, forgets: bool,
                                          otherwise: T)
    requires es != []
    ensures var front, e := es[..|es| - 1], es[|es| - 1];
            var s := Run(front);
            Or(LastSet(es, id, sets, forgets), otherwise) ==
            if e.id == id && id in s.devices && sets(e.action).Some? then sets(e.action).value
            else match Prior(s, e, id)
                 case None => otherwise
                 case Some(p) =>
                   if forgets && Renames(s, e) && id == e.action.newId then otherwise
                   else Or(LastSet(front, p, sets, forgets), otherwise)
  {
  }

  function NextSettings(es: seq<Event>, id: Id): Settings
    requires es != []
  {
    var front, e := es[..|es| - 1], es[|es| - 1];
    var before := Carried(Run(front), e, id, p => LastSettings(front, p));
    if e.id == id && id in Run(front).devices then Updated(before, e.action) else before
  }

  lemma ClaimsNext(es: seq<Event>, id: Id)
    requires es != []
    ensures var a, b := LastSettings(es, id), NextSettings(es, id);
            a.code == b.code && a.revision == b.revision && a.ota == b.ota && a.version == b.version && a.diag == b.diag
  {
    hide Run, Prior, LastSet, ClaimedCode, ClaimedRevision, ClaimedOta, ClaimedVersion, ClaimedDiag;
    LastSetStep(es, id, ClaimedCode, false, None);
    LastSetStep(es, id, ClaimedOta, false, false);
    LastSetStep(es, id, ClaimedVersion, false, "");
    LastSetStep(es, id, ClaimedDiag, true, false);
    RevisionStep(es, id);
  }

  lemma EditsNext(es: seq<Event>, id: Id)
    requires es != []
    ensures var a, b := LastSettings(es, id), NextSettings(es, id);
            a.interval == b.interval && a.name == b.name && a.location == b.location &&
            a.locationType == b.locationType && a.approved == b.approved
  {
    hide Run, Prior, LastSet, SetInterval, EditedName, EditedLocation, EditedLocationType, Decision;
    LastSetStep(es, id, SetInterval, false, 0);
    LastSetStep(es, id, EditedName, false, "");
    LastSetStep(es, id, EditedLocation, false, "");
    LastSetStep(es, id, EditedLocationType, true, "");
    LastSetStep(es, id, Decision, false, false);
  }

  lemma LastSettingsStep(es: seq<Event>, id: Id)
    requires es != []
    ensures LastSettings(es, id) == NextSettings(es, id)
  {
    hide LastSettings, NextSettings;
    ClaimsNext(es, id);
    EditsNext(es, id);
  }

  lemma {:induction false} RevisionStep(es: seq<Event>, id: Id)
    requires es != []
    ensures var front, e := es[..|es| - 1], es[|es| - 1];
            var s := Run(front);
            LastSet(es, id, ClaimedRevision, false) ==
            if e.id == id && id in s.devices && ClaimedRevision(e.action).Some? then ClaimedRevision(e.action)
            else match Prior(s, e, id) case None => None case Some(p) => LastSet(front, p, ClaimedRevision, false)
  {
  }

  /** In every run every setting of a device is what the last capabilities message or admin request set it to, under
      whatever identifier; the two a rename forgets, since the last rename. Nothing else touches any of them. */
  lemma {:induction false} SettingsAreLastSet(es: seq<Event>, id: Id)
    requires Timed(es) && id in Run(es).devices
    ensures Stored(Run(es).devices[id]) == LastSettings(es, id)
  {
    hide Step, Run, Inv, Stored, Updated, LastSettings, Forgotten;
    if es == [] {
      NoEvents();
    } else {
      var front, e := es[..|es| - 1], es[|es| - 1];
      var s := Run(front);
      Front(es);
      RunStep(es);
      PriorKnown(s, e, id);
      if Prior(s, e, id).Some? { SettingsAreLastSet(front, Prior(s, e, id).value); }
      SettingsStep(s, e, id);
      LastSettingsStep(es, id);
    }
  }

  /** In every run the publish interval is the last one an admin or a report set, and never more than a day. */
  lemma {:induction false} IntervalIsLastSet(es: seq<Event>, id: Id)
    requires Timed(es) && id in Run(es).devices
    ensures Run(es).devices[id].publishInterval == Or(LastSet(es, id, SetInterval, false), 0) <= 86400
  {
    hide Run;
    SettingsAreLastSet(es, id);
    LastIsAllowed(es, id);
  }

  lemma {:induction false} LastIsAllowed(es: seq<Event>, id: Id)
    ensures Or(LastSet(es, id, SetInterval, false), 0) <= 86400
  {
    hide Run, Prior, Renames;
    if es != [] {
      var s, e := Run(es[..|es| - 1]), es[|es| - 1];
      if Prior(s, e, id).Some? { LastIsAllowed(es[..|es| - 1], Prior(s, e, id).value); }
    }
  }

  /** A request to confirm the uplink goes out, and is logged, exactly when the broker is up and the last report of the
      device that said so claimed to run diagnostics, no rename having forgotten it; it changes nothing else. */
  lemma {:induction false} ConfirmNeedsClaim(es: seq<Event>, e: Event)
    requires Timed(es + [e]) && e.action.ConfirmUplink? && e.id in Run(es).devices
    ensures var s, s' := Run(es), Run(es + [e]);
            s' == if e.up && LastSet(es, e.id, ClaimedDiag, true) == Some(true)
                  then s.(wire := s.wire + [Publish(e.now, s.devices[e.id].deviceType, e.id, CONFIRM_UPLINK, Direct)],
                          commands := s.commands + [NewCommand(s.nextPk, e.id, CONFIRM_UPLINK, e.now)],
                          nextPk := s.nextPk + 1)
                  else s
  {
    hide Run, LastSet;
    assert (es + [e])[..|es|] == es;
    Front(es + [e]);
    RunStep(es + [e]);
    SettingsAreLastSet(es, e.id);
    var s := Run(es);
    assert s.devices[e.id := s.devices[e.id]] == s.devices;
    Sent(e.now, s.devices[e.id].deviceType, e.id);
  }

  lemma Sent(now: int, deviceType: string, id: Id)
    ensures Published(now, deviceType, id, [CONFIRM_UPLINK], Direct) ==
            [Publish(now, deviceType, id, CONFIRM_UPLINK, Direct)]
  {
  }

  /** In every run a device's hardware code, revision, update capability and firmware version are those of the latest
      capabilities message that validly claimed them; no other message and no web action touches them. */
  lemma {:induction false} IdentityIsLastClaimed(es: seq<Event>, id: Id)
    requires Timed(es) && id in Run(es).devices
    ensures var d := Run(es).devices[id];
            && d.hardwareCode == Or(LastSet(es, id, ClaimedCode, false), None)
            && d.hwRev == LastSet(es, id, ClaimedRevision, false)
            && d.otaCapable == Or(LastSet(es, id, ClaimedOta, false), false)
            && d.fwVersion == Or(LastSet(es, id, ClaimedVersion, false), "")
  {
    hide Run, LastSet;
    SettingsAreLastSet(es, id);
  }

  /** In every run a device is approved if and only if the latest decision on it, under whatever identifier, was to
      approve it: no message approves a device, discovery does not, a rename keeps the decision and a merge keeps the
      target's. */
  lemma {:induction false} ApprovalIsLastDecision(es: seq<Event>, id: Id)
    requires Timed(es) && id in Run(es).devices
    ensures Run(es).devices[id].isApproved <==> LastSet(es, id, Decision, false) == Some(true)
  {
    hide Run, LastSet;
    SettingsAreLastSet(es, id);
  }

  /** In every run the name and place of a device are those of the last edit, the kind of place those of the last edit
      since its last rename. */
  lemma {:induction false} PlaceIsLastEdited(es: seq<Event>, id: Id)
    requires Timed(es) && id in Run(es).devices
    ensures var d := Run(es).devices[id];
            && d.displayName == Or(LastSet(es, id, EditedName, false), "")
            && d.location == Or(LastSet(es, id, EditedLocation, false), "")
            && d.locationType == Or(LastSet(es, id, EditedLocationType, true), "")
  {
    hide Run, LastSet;
    SettingsAreLastSet(es, id);
  }
}
