/** Which capabilities requests a device still owes an answer to, by the events of the run; and when one is pending
    behind a stopped timer. */
module Owed {
  import opened Domain
  import opened Protocol
  import opened Invariants
  import opened Reachable
  import opened History
  import opened AlertClock
  import opened Requests
  import opened Lifecycle
  import opened MergeHistory

  // ---------------------------------------------------- the pending requests, by key

  /** Keys of the pending request_capabilities commands of a device. */
  function RequestKeys(rows: seq<Command>, id: Id): set<nat> {
    set c | c in rows && IsPending(c, id, "request_capabilities") :: c.pk
  }

  /** All keys but the newest. */
  function OlderThanNewest(keys: set<nat>): set<nat> { set k | k in keys && exists j :: j in keys && k < j }

  /** The web request logs a request_capabilities command: the admin's request, or a user's own command. */
  predicate LogsRequest(e: Event) {
    e.up && (e.action.RequestCaps? ||
             (e.action.UserCommand? && e.action.body.Action() == "request_capabilities"))
  }

  /** The ack decides a request_capabilities command. */
  predicate AcksRequest(e: Event) {
    e.action.Ack? && e.action.ack.action == "request_capabilities" &&
    (e.action.ack.status == AckOk || e.action.ack.status == AckError)
  }

  /** The keys its device still owes an answer to after an event on it. */
  function OwnKeys(s: State, e: Event, keys: set<nat>): set<nat> {
    if Answers(s, e) then {}
    else if AcksRequest(e) then OlderThanNewest(keys)
    else if LogsRequest(e) then keys + {s.nextPk}
    else if e.action.ClearCommands? then if e.action.pk.None? then {} else keys - {e.action.pk.value}
    else keys
  }

  /** The requests the device now called `id` still owes an answer to: logged for it or for one it absorbed, and not
      answered, timed out, acked or cleared since. */
  function OwedKeys(es: seq<Event>, id: Id): set<nat> {
    if es == [] then {}
    else
      var front, e := es[..|es| - 1], es[|es| - 1];
      var s := Run(front);
      var keys := match Prior(s, e, id) case None => {} case Some(p) => OwedKeys(front, p);
      if Merges(s, e) && id == e.action.target then OwedKeys(front, e.id) + keys
      else if e.id == id && id in s.devices then OwnKeys(s, e, keys)
      else keys
  }

  /** A handler appends at most one command, and one that is a pending request exactly when the event logs one. */
  lemma NewRow(x: Session, created: bool, e: Event, i: int)
    requires IsSessionAction(e.action) && |x.commands| <= i < |Handle(x, created, e).commands|
    ensures i == |x.commands| && Handle(x, created, e).commands[i].pk == x.nextPk
    ensures IsPending(Handle(x, created, e).commands[i], x.id, "request_capabilities") <==> LogsRequest(e)
  {
    hide Receive, Ingest, OnCapabilities, NewestPending, ReportedMirror, PutOffset, Put, Round2, Round4, Published;
    if e.action.Sensors? {
      ReceiveRows(x, created, e.now, e.up);
      IngestCommands(Receive(x, created, e.now, e.up), e.now, e.up, e.action.data);
    } else if e.action.Capabilities? {
      CapabilitiesCommands(x, e.now, e.up, e.action.report);
    }
  }

  lemma RequestIsLogged(x: Session, created: bool, e: Event)
    requires IsSessionAction(e.action) && LogsRequest(e)
    ensures |Handle(x, created, e).commands| == |x.commands| + 1
  {
  }

  lemma ReceiveRows(x: Session, created: bool, now: int, up: bool)
    ensures |Receive(x, created, now, up).commands| == |x.commands|
  {
  }

  lemma AfterIs(s: State, e: Event)
    requires Runs(s, e)
    ensures After(s, e) == Handle(Opened(s, e), e.id !in s.devices, e)
  {
  }

  /** An old row after a session event is still a pending request unless it was answered, timed out or acked. */
  lemma OldRow(s: State, e: Event, i: int)
    requires Inv(s, e.now) && Runs(s, e) && 0 <= i < |s.commands|
    ensures i < |After(s, e).commands| && After(s, e).commands[i].pk == s.commands[i].pk
    ensures IsPending(After(s, e).commands[i], e.id, "request_capabilities") <==>
              && IsPending(s.commands[i], e.id, "request_capabilities") && !Answers(s, e)
              && (AcksRequest(e) ==> !NewestRequest(s.commands, e.id, i))
  {
    hide After, CapabilitiesOverdue, Wakes, SessionOk, Recorded, NameOf, Targets, Body.Action;
    Effect(s, e);
    EventFate(s, e, i);
    NamesAre(s.commands);
    assert Advances(s.commands[i], After(s, e).commands[i], e.id, e.now);
    if IsPending(s.commands[i], e.id, "request_capabilities") { assert s.commands[i].device in s.devices; }
  }

  /** No row behind `i` is a pending request. */
  ghost predicate NewestRequest(rows: seq<Command>, id: Id, i: nat) {
    forall j :: i < j < |rows| ==> !IsPending(rows[j], id, "request_capabilities")
  }

  lemma KeyOf(rows: seq<Command>, id: Id, k: nat)
    ensures k in RequestKeys(rows, id) <==>
              exists i :: 0 <= i < |rows| && IsPending(rows[i], id, "request_capabilities") && rows[i].pk == k
  {
  }

  /** In a table with increasing keys the newest pending request is the one with the largest key. */
  lemma NewestKey(rows: seq<Command>, id: Id, nextPk: nat, now: int, i: int)
    requires CommandsOk(rows, nextPk, now) && 0 <= i < |rows| && IsPending(rows[i], id, "request_capabilities")
    ensures !NewestRequest(rows, id, i) <==> rows[i].pk in OlderThanNewest(RequestKeys(rows, id))
  {
    if !NewestRequest(rows, id, i) {
      var j :| i < j < |rows| && IsPending(rows[j], id, "request_capabilities");
      assert rows[j].pk in RequestKeys(rows, id) && rows[i].pk < rows[j].pk;
    } else {
      forall k | k in RequestKeys(rows, id) ensures k <= rows[i].pk {
        KeyOf(rows, id, k);
        var j :| 0 <= j < |rows| && IsPending(rows[j], id, "request_capabilities") && rows[j].pk == k;
        assert j <= i;
      }
    }
  }

  /** The key of a request that is pending after the event. */
  ghost predicate KeyStays(s: State, e: Event, k: nat) {
    || (LogsRequest(e) && k == s.nextPk)
    || (k in RequestKeys(s.commands, e.id) && !Answers(s, e) &&
        (AcksRequest(e) ==> k in OlderThanNewest(RequestKeys(s.commands, e.id))))
  }

  lemma OwnKey(s: State, e: Event, k: nat)
    requires Inv(s, e.now) && Runs(s, e)
    ensures k in RequestKeys(After(s, e).commands, e.id) <==> KeyStays(s, e, k)
  {
    hide After, Handle, Answers, SessionOk, Recorded, AcksRequest, LogsRequest, RequestKeys, NewestRequest,
         OlderThanNewest;
    AfterIs(s, e);
    var x, rows, rows' := Opened(s, e), s.commands, After(s, e).commands;
    KeyOf(rows, e.id, k);
    KeyOf(rows', e.id, k);
    if i :| 0 <= i < |rows'| && IsPending(rows'[i], e.id, "request_capabilities") && rows'[i].pk == k {
      if i < |rows| {
        OldRow(s, e, i);
        NewestKey(rows, e.id, s.nextPk, e.now, i);
      } else {
        NewRow(x, e.id !in s.devices, e, i);
      }
    }
    if LogsRequest(e) && k == s.nextPk {
      RequestIsLogged(x, e.id !in s.devices, e);
      NewRow(x, e.id !in s.devices, e, |rows|);
    } else if i :| 0 <= i < |rows| && IsPending(rows[i], e.id, "request_capabilities") && rows[i].pk == k {
      OldRow(s, e, i);
      NewestKey(rows, e.id, s.nextPk, e.now, i);
    }
  }

  lemma OwnKeysStep(s: State, e: Event)
    requires Inv(s, e.now) && Runs(s, e)
    ensures RequestKeys(Step(s, e).commands, e.id) ==
            if e.id in s.devices then OwnKeys(s, e, RequestKeys(s.commands, e.id)) else {}
  {
    hide Step, After, SessionOk, Recorded, RequestKeys, OlderThanNewest, CommandsOk, LogOk, ReadingsOk,
         CapabilitiesOverdue, Wakes;
    Effect(s, e);
    forall k: nat ensures k in RequestKeys(Step(s, e).commands, e.id) <==> KeyStays(s, e, k) { OwnKey(s, e, k); }
    if e.id !in s.devices { NoKeys(s.commands, e.id); }
    OlderAreKeys(RequestKeys(s.commands, e.id));
  }

  lemma OlderAreKeys(keys: set<nat>)
    ensures OlderThanNewest(keys) <= keys
  {
  }

  lemma NoKeys(rows: seq<Command>, id: Id)
    requires forall i :: 0 <= i < |rows| ==> rows[i].device != id
    ensures RequestKeys(rows, id) == {}
  {
  }

  lemma OtherKeys(s: State, e: Event, id: Id)
    requires Inv(s, e.now) && Runs(s, e) && id != e.id
    ensures RequestKeys(Step(s, e).commands, id) == RequestKeys(s.commands, id)
  {
    hide Step, After, SessionOk, Recorded, CommandsOk, LogOk, ReadingsOk, RequestKeys;
    Effect(s, e);
    var rows, rows' := s.commands, Step(s, e).commands;
    forall i | 0 <= i < |rows'|
      ensures IsPending(rows'[i], id, "request_capabilities") <==>
                i < |rows| && IsPending(rows[i], id, "request_capabilities")
      ensures i < |rows| ==> rows'[i].pk == rows[i].pk
    {
      if i < |rows| { assert Advances(rows[i], rows'[i], e.id, e.now); }
    }
    forall k: nat ensures k in RequestKeys(rows', id) <==> k in RequestKeys(rows, id) {
      KeyOf(rows, id, k);
      KeyOf(rows', id, k);
    }
  }

  lemma {:induction false} DroppedKeys(s: State, id: Id, pk: Option<nat>, o: Id, now: int)
    requires CommandsOk(s.commands, s.nextPk, now)
    ensures RequestKeys(CommandsWithout(s.commands, id, pk), o) ==
            if o != id then RequestKeys(s.commands, o)
            else if pk.None? then {}
            else RequestKeys(s.commands, o) - {pk.value}
  {
    hide CommandsOk;
    CommandsWithoutKeeps(s.commands, id, pk, s.nextPk, now);
  }

  lemma MovedKeys(rows: seq<Command>, from: Id, to: Id, id: Id)
    requires from != to
    ensures RequestKeys(MoveCommands(rows, from, to), id) ==
            if id == to then RequestKeys(rows, from) + RequestKeys(rows, to)
            else if id == from then {}
            else RequestKeys(rows, id)
  {
    hide RequestKeys;
    var rows' := MoveCommands(rows, from, to);
    forall k: nat
      ensures k in RequestKeys(rows', id) <==>
                (id != from && k in RequestKeys(rows, id)) || (id == to && k in RequestKeys(rows, from))
    {
      KeyOf(rows, id, k);
      KeyOf(rows, from, k);
      KeyOf(rows', id, k);
      if i :| 0 <= i < |rows| && IsPending(rows[i], id, "request_capabilities") && rows[i].pk == k && id != from {
        assert IsPending(rows'[i], id, "request_capabilities");
      }
      if i :| 0 <= i < |rows| && IsPending(rows[i], from, "request_capabilities") && rows[i].pk == k && id == to {
        assert IsPending(rows'[i], id, "request_capabilities");
      }
    }
  }

  lemma StructuralKeys(s: State, e: Event, id: Id)
    requires Inv(s, e.now) && !Runs(s, e) && id in Step(s, e).devices
    ensures Prior(s, e, id).Some?
    ensures var keys := RequestKeys(s.commands, Prior(s, e, id).value);
            RequestKeys(Step(s, e).commands, id) ==
            if Merges(s, e) && id == e.action.target then RequestKeys(s.commands, e.id) + keys
            else if e.id == id then OwnKeys(s, e, keys)
            else keys
  {
    hide CommandsOk, LogOk, ReadingsOk, CommandsWithout, LogsWithout, ReadingsWithout, ReadingsOutside, MoveLogs,
         MoveReadings, MoveCommands, MergedReadings, RequestKeys, OlderThanNewest, Handle;
    if e.id in s.devices && !IsSessionAction(e.action) {
      match e.action
      case DeleteDevice => DroppedKeys(s, e.id, None, id, e.now);
      case ClearCommands(pk) => DroppedKeys(s, e.id, pk, id, e.now);
      case EraseReadings(_, _, _) =>
      case RenameTo(newId) =>
        if Renames(s, e) {
          MovedKeys(s.commands, e.id, newId, id);
          NoKeys(s.commands, newId);
        }
      case MergeInto(target) => if Merges(s, e) { MovedKeys(s.commands, e.id, target, id); }
    }
  }

  /** In every run, for every device, the pending request_capabilities commands are exactly the requests it still owes
      an answer to by the events of the run. */
  lemma {:induction false} KeysAreOwed(es: seq<Event>, id: Id)
    requires Timed(es) && id in Run(es).devices
    ensures RequestKeys(Run(es).commands, id) == OwedKeys(es, id)
  {
    hide Step, Run, Inv, RequestKeys, OwnKeys;
    if es == [] {
      NoEvents();
    } else {
      var front, e := es[..|es| - 1], es[|es| - 1];
      var s := Run(front);
      Front(es);
      RunStep(es);
      PriorKnown(s, e, id);
      if Prior(s, e, id).Some? { KeysAreOwed(front, Prior(s, e, id).value); }
      if Runs(s, e) {
        SessionDevices(s, e);
        if e.id == id {
          OwnKeysStep(s, e);
        } else {
          OtherKeys(s, e, id);
        }
      } else {
        if Merges(s, e) && id == e.action.target { KeysAreOwed(front, e.id); }
        StructuralKeys(s, e, id);
      }
    }
  }

  lemma SessionDevices(s: State, e: Event)
    requires Inv(s, e.now) && Runs(s, e)
    ensures Step(s, e).devices.Keys == s.devices.Keys + {e.id}
  {
    hide Step, After, SessionOk, Recorded;
    Effect(s, e);
  }

  // -------------------------------------------------------- behind a stopped timer

  /** A user sent request_capabilities as a command of their own and the broker went away before the server's own
      request, which would have started the timer. */
  predicate Slips(s: State, e: Event) {
    && Runs(s, e) && e.up && e.action.UserCommand? && !e.action.upAgain
    && e.action.body.Action() == "request_capabilities"
    && TimerOf(s, e.id).None?
  }

  /** A request came past the timer of the device now called `id`: by a slipped command, or with a merge while the
      target's timer was off; and no request was sent, answered or timed out since. */
  predicate CamePast(es: seq<Event>, id: Id) {
    if es == [] then false
    else
      var front, e := es[..|es| - 1], es[|es| - 1];
      var s := Run(front);
      if e.id == id && (Asks(s, e) || Answers(s, e)) then false
      else if e.id == id && Slips(s, e) then true
      else if Merges(s, e) && id == e.action.target && RequestedAt(front, id).None? && OwedKeys(front, e.id) != {}
      then true
      else match Prior(s, e, id) case None => false case Some(p) => CamePast(front, p)
  }

  lemma OwnKeysGrow(s: State, e: Event, keys: set<nat>)
    requires Runs(s, e) && OwnKeys(s, e, keys) != {} && !Asks(s, e) && !Slips(s, e) && TimerOf(s, e.id).None?
    ensures keys != {}
  {
  }

  lemma StructuralGrow(s: State, e: Event, keys: set<nat>)
    requires !Runs(s, e) && e.id in s.devices
    ensures OwnKeys(s, e, keys) <= keys && !Asks(s, e) && !Answers(s, e) && !Slips(s, e)
  {
  }

  lemma SlipsQuietly(s: State, e: Event)
    requires Slips(s, e)
    ensures !Asks(s, e) && !Answers(s, e) && Prior(s, e, e.id) == Some(e.id)
  {
  }

  /** What came past the timer finds it off. */
  lemma {:induction false} PastWhileOff(es: seq<Event>, id: Id)
    requires Timed(es) && id in Run(es).devices && CamePast(es, id)
    ensures RequestedAt(es, id).None?
  {
    hide Step, Run, Inv, Asks, Answers, Slips, OwedKeys;
    if es != [] {
      var front, e := es[..|es| - 1], es[|es| - 1];
      var s := Run(front);
      Front(es);
      RunStep(es);
      PriorKnown(s, e, id);
      if e.id == id && Slips(s, e) {
        SlipsQuietly(s, e);
        SlipsOff(front, e);
      } else if Merges(s, e) && id == e.action.target {
        MergeIsQuiet(s, e);
        if RequestedAt(front, id).Some? { PastWhileOff(front, id); }
      } else {
        PastWhileOff(front, Prior(s, e, id).value);
      }
    }
  }

  lemma {:induction false} SlipsOff(es: seq<Event>, e: Event)
    requires Timed(es) && Slips(Run(es), e)
    ensures RequestedAt(es, e.id).None?
  {
    hide Run, RequestedAt;
    TimerIsOutstanding(es, e.id);
  }

  lemma MergeIsQuiet(s: State, e: Event)
    requires Merges(s, e)
    ensures !Asks(s, e) && !Answers(s, e) && Prior(s, e, e.action.target) == Some(e.action.target)
  {
  }

  lemma {:induction false} OwedCamePast(es: seq<Event>, id: Id)
    requires Timed(es) && id in Run(es).devices && RequestedAt(es, id).None? && OwedKeys(es, id) != {}
    ensures CamePast(es, id)
  {
    hide Step, Run, Inv, Asks, Answers, Slips, OwnKeys;
    if es != [] {
      var front, e := es[..|es| - 1], es[|es| - 1];
      var s := Run(front);
      Front(es);
      RunStep(es);
      PriorKnown(s, e, id);
      if Prior(s, e, id).Some? {
        var p := Prior(s, e, id).value;
        if Merges(s, e) && id == e.action.target {
          MergeIsQuiet(s, e);
          if OwedKeys(front, e.id) == {} { OwedCamePast(front, p); }
        } else if e.id == id && id in s.devices {
          OwnOwed(front, e);
          if !Slips(s, e) { OwedCamePast(front, p); }
        } else {
          OwedCamePast(front, p);
        }
      }
    }
  }

  /** An own event after which something is owed with the timer off: it slipped, or that was so before. */
  lemma {:induction false} OwnOwed(es: seq<Event>, e: Event)
    requires Timed(es) && e.id in Run(es).devices && Prior(Run(es), e, e.id) == Some(e.id)
    requires OwnKeys(Run(es), e, OwedKeys(es, e.id)) != {}
    requires !Asks(Run(es), e) && (!Answers(Run(es), e) ==> RequestedAt(es, e.id).None?)
    ensures !Answers(Run(es), e)
    ensures !Slips(Run(es), e) ==> OwedKeys(es, e.id) != {}
  {
    hide Run, RequestedAt, OwedKeys, Asks, Answers, Slips;
    TimerIsOutstanding(es, e.id);
    var s := Run(es);
    if Answers(s, e) {
    } else if Runs(s, e) {
      if !Slips(s, e) { OwnKeysGrow(s, e, OwedKeys(es, e.id)); }
    } else {
      StructuralGrow(s, e, OwedKeys(es, e.id));
    }
  }

  /** Nothing waits unseen: in every run a request_capabilities command is pending while no answer is owed exactly when
      requests are still owed by keys and one of them came past the timer, by a slipped command or with a merge. */
  lemma {:induction false} PendingRequestIsTimed(es: seq<Event>, id: Id)
    requires Timed(es) && id in Run(es).devices
    ensures WaitingIn(Run(es).commands, id) <==> OwedKeys(es, id) != {}
    ensures WaitingIn(Run(es).commands, id) && RequestedAt(es, id).None? <==> CamePast(es, id) && OwedKeys(es, id) != {}
  {
    hide Run, OwedKeys, CamePast, RequestedAt, RequestKeys;
    KeysAreOwed(es, id);
    WaitingKeys(Run(es).commands, id);
    if CamePast(es, id) { PastWhileOff(es, id); }
    if RequestedAt(es, id).None? && OwedKeys(es, id) != {} { OwedCamePast(es, id); }
  }

  lemma WaitingKeys(rows: seq<Command>, id: Id)
    ensures WaitingIn(rows, id) <==> RequestKeys(rows, id) != {}
  {
    hide RequestKeys;
    if WaitingIn(rows, id) {
      var i :| 0 <= i < |rows| && IsPending(rows[i], id, "request_capabilities");
      KeyOf(rows, id, rows[i].pk);
    }
    if k :| k in RequestKeys(rows, id) { KeyOf(rows, id, k); }
  }

  /** The timer covers the device's pending requests: while it is off there are none. */
  predicate Covered(s: State, id: Id) { TimerOf(s, id).None? ==> RequestKeys(s.commands, id) == {} }

  /** The command view leaves a request pending behind a stopped timer exactly when the command slips. */
  lemma CommandViewCovers(s: State, e: Event)
    requires Inv(s, e.now) && e.action.UserCommand? && e.id in s.devices && Covered(s, e.id)
    ensures Covered(Step(s, e), e.id) <==> !Slips(s, e)
  {
    hide Step, Inv, RequestKeys;
    ViewIsOwn(s, e);
    TimerStep(s, e, e.id);
    OwnKeysStep(s, e);
  }

  lemma ViewIsOwn(s: State, e: Event)
    requires Inv(s, e.now) && e.action.UserCommand? && e.id in s.devices
    ensures Runs(s, e) && e.id in Step(s, e).devices && !Answers(s, e) && Prior(s, e, e.id) == Some(e.id)
  {
  }

  /** A merge leaves one exactly when the absorbed device owed an answer and the target's timer is off. */
  lemma MergeCoversExactly(s: State, e: Event)
    requires Inv(s, e.now) && Merges(s, e) && Covered(s, e.action.target)
    ensures Covered(Step(s, e), e.action.target) <==>
              TimerOf(s, e.action.target).Some? || RequestKeys(s.commands, e.id) == {}
  {
    hide Step, Inv, RequestKeys;
    MergedAway(s, e);
    MergeIsQuiet(s, e);
    StructuralKeys(s, e, e.action.target);
    TimerStep(s, e, e.action.target);
  }
}
