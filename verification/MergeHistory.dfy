/** What the status log shows of a device that absorbed others: whichever of them logged last. */
module MergeHistory {
  import opened Domain
  import opened Protocol
  import opened Invariants
  import opened Reachable
  import opened History

  // ------------------------------------------------------- positions in the log

  /** Position of a device's newest log entry, among those not after `t`; -1 when it has none. */
  function LastEntry(log: seq<StatusEntry>, id: Id, t: Option<int>): (i: int)
    ensures -1 <= i < |log|
  {
    if log == [] then -1
    else
      var e := log[|log| - 1];
      if e.device == id && (t.Some? ==> e.time <= t.value) then |log| - 1 else LastEntry(log[..|log| - 1], id, t)
  }

  function MergedAlert(log: seq<StatusEntry>, source: Id, target: Id, t: Option<int>): Alert {
    if LastEntry(log, source, t) > LastEntry(log, target, t) then AlertBy(log, source, t) else AlertBy(log, target, t)
  }

  /** At every instant the merged log shows the alert of whichever device logged last. */
  lemma {:induction false} MergedLogShows(log: seq<StatusEntry>, source: Id, target: Id, t: Option<int>)
    requires source != target
    ensures AlertBy(MoveLogs(log, source, target), target, t) == MergedAlert(log, source, target, t)
    ensures LastEntry(MoveLogs(log, source, target), target, t) ==
            Max(LastEntry(log, source, t), LastEntry(log, target, t))
  {
    if log != [] {
      var front := log[..|log| - 1];
      assert MoveLogs(log, source, target)[..|log| - 1] == MoveLogs(front, source, target);
      MergedLogShows(front, source, target, t);
    }
  }

  lemma {:induction false} MovedEntry(log: seq<StatusEntry>, from: Id, to: Id, id: Id, t: Option<int>)
    requires from != to
    ensures id != from && id != to ==> LastEntry(MoveLogs(log, from, to), id, t) == LastEntry(log, id, t)
    ensures (forall i :: 0 <= i < |log| ==> log[i].device != to) ==>
              LastEntry(MoveLogs(log, from, to), to, t) == LastEntry(log, from, t)
  {
    if log != [] {
      var front := log[..|log| - 1];
      assert MoveLogs(log, from, to)[..|log| - 1] == MoveLogs(front, from, to);
      MovedEntry(front, from, to, id, t);
    }
  }

  lemma {:induction false} NoEntry(log: seq<StatusEntry>, id: Id, t: Option<int>)
    requires forall i :: 0 <= i < |log| ==> log[i].device != id
    ensures LastEntry(log, id, t) == -1
  {
    if log != [] { NoEntry(log[..|log| - 1], id, t); }
  }

  /** Dropping one device's entries keeps the order of the others'. */
  lemma {:induction false} DroppedOrder(log: seq<StatusEntry>, gone: Id, a: Id, b: Id, t: Option<int>)
    requires a != gone && b != gone
    ensures var log' := LogsWithout(log, gone);
            && (LastEntry(log', a, t) >= 0 <==> LastEntry(log, a, t) >= 0)
            && (LastEntry(log', a, t) > LastEntry(log', b, t) <==> LastEntry(log, a, t) > LastEntry(log, b, t))
  {
    if log != [] {
      var front, last := log[..|log| - 1], log[|log| - 1];
      var f, w := LogsWithout(front, gone), LogsWithout(log, gone);
      DroppedOrder(front, gone, a, b, t);
      if last.device == gone { assert w == f; } else { assert w == f + [last] && w[..|w| - 1] == f; }
    }
  }

  lemma {:induction false} EntryAppend(log: seq<StatusEntry>, more: seq<StatusEntry>, owner: Id, now: int, id: Id,
                                       t: int)
    requires forall i :: 0 <= i < |more| ==> more[i].device == owner && more[i].time == now
    ensures LastEntry(log + more, id, Some(t)) ==
            if more != [] && id == owner && now <= t then |log + more| - 1 else LastEntry(log, id, Some(t))
  {
    if more == [] {
      assert log + more == log;
    } else {
      assert (log + more)[..|log + more| - 1] == log + more[..|more| - 1];
      EntryAppend(log, more[..|more| - 1], owner, now, id, t);
    }
  }

  // ----------------------------------------------------- who logged last in a run

  /** The event writes at least one entry into the status log. */
  predicate Logs(s: State, e: Event) { |Step(s, e).statusLog| > |s.statusLog| }

  /** An event of the run, by its position, and the alert it left on its device. */
  datatype Logged = Never | At(event: nat, alert: Alert)
  {
    function Rank(): int { if Never? then -1 else event }

    function Alert(): Alert { if Never? then NO_ALERT else alert }
  }

  function Newer(a: Logged, b: Logged): Logged { if a.Rank() > b.Rank() then a else b }

  /** The latest event, not after `t`, that logged an alert for the device now called `id` or for one that was
      merged into it. */
  function LastLogged(es: seq<Event>, id: Id, t: int): (l: Logged)
    ensures l.Rank() < |es|
  {
    if es == [] then Never
    else
      var front, e := es[..|es| - 1], es[|es| - 1];
      var s := Run(front);
      if e.now <= t && e.id == id && Logs(s, e) then At(|front|, CurrentAlert(Run(es), id))
      else if Merges(s, e) && id == e.action.target then Newer(LastLogged(front, e.id, t), LastLogged(front, id, t))
      else match Prior(s, e, id) case None => Never case Some(p) => LastLogged(front, p, t)
  }

  /** Where the newest entry of a surviving device was before an event that only moves or drops rows. */
  function EntryBefore(s: State, e: Event, id: Id, t: int): int {
    if Merges(s, e) && id == e.action.target
    then Max(LastEntry(s.statusLog, e.id, Some(t)), LastEntry(s.statusLog, id, Some(t)))
    else match Prior(s, e, id) case None => -1 case Some(p) => LastEntry(s.statusLog, p, Some(t))
  }

  lemma {:induction false} StructuralOrder(s: State, e: Event, a: Id, b: Id, t: int)
    requires Referential(s) && !Runs(s, e) && a in Step(s, e).devices && b in Step(s, e).devices
    ensures var log := Step(s, e).statusLog;
            && !Logs(s, e)
            && (LastEntry(log, a, Some(t)) >= 0 <==> EntryBefore(s, e, a, t) >= 0)
            && (LastEntry(log, a, Some(t)) > LastEntry(log, b, Some(t)) <==>
                  EntryBefore(s, e, a, t) > EntryBefore(s, e, b, t))
  {
    hide LastEntry, LogsWithout, MoveLogs, CommandsWithout, ReadingsWithout, MoveCommands, MoveReadings, MergedReadings,
         Handle, Logs;
    FewerLogs(s, e);
    if e.id in s.devices && !IsSessionAction(e.action) {
      match e.action
      case DeleteDevice => DroppedOrder(s.statusLog, e.id, a, b, Some(t));
      case RenameTo(newId) =>
        if Renames(s, e) {
          MovedEntry(s.statusLog, e.id, newId, a, Some(t));
          MovedEntry(s.statusLog, e.id, newId, b, Some(t));
        }
      case MergeInto(target) =>
        if Merges(s, e) {
          MergedLogShows(s.statusLog, e.id, target, Some(t));
          MovedEntry(s.statusLog, e.id, target, a, Some(t));
          MovedEntry(s.statusLog, e.id, target, b, Some(t));
        }
      case ClearCommands(_) =>
      case EraseReadings(_, _, _) =>
    }
  }

  lemma {:induction false} ShorterLog(log: seq<StatusEntry>, id: Id)
    ensures |LogsWithout(log, id)| <= |log|
  {
    if log != [] { ShorterLog(log[..|log| - 1], id); }
  }

  lemma FewerLogs(s: State, e: Event)
    requires !Runs(s, e)
    ensures !Logs(s, e)
  {
    hide LogsWithout, CommandsWithout, ReadingsWithout, MoveCommands, MoveReadings, MergedReadings, Handle;
    ShorterLog(s.statusLog, e.id);
  }

  /** A handler writes entries for its own device only, at the time of its event. */
  lemma {:induction false} SessionEntries(s: State, e: Event, id: Id, t: int)
    requires Inv(s, e.now) && Runs(s, e)
    ensures var log := Step(s, e).statusLog;
            && s.statusLog <= log
            && (Logs(s, e) ==> |log| > |s.statusLog|)
            && LastEntry(log, id, Some(t)) ==
               if Logs(s, e) && id == e.id && e.now <= t then |log| - 1 else LastEntry(s.statusLog, id, Some(t))
    ensures id !in s.devices ==> LastEntry(s.statusLog, id, Some(t)) == -1
  {
    hide Step, After, LastEntry, SessionOk, Recorded, CommandsOk, LogOk, ReadingsOk;
    Effect(s, e);
    var more := After(s, e).statusLog[|s.statusLog|..];
    assert Step(s, e).statusLog == s.statusLog + more;
    EntryAppend(s.statusLog, more, e.id, e.now, id, t);
    if id !in s.devices { NoEntry(s.statusLog, id, Some(t)); }
  }

  /** A device has an entry exactly when some event logged for it. */
  lemma {:induction false} LoggedIff(es: seq<Event>, id: Id, t: int)
    requires Timed(es) && id in Run(es).devices
    ensures LastEntry(Run(es).statusLog, id, Some(t)) >= 0 <==> LastLogged(es, id, t) != Never
  {
    hide Step, Run, Inv, LastEntry, Logs;
    if es == [] {
      NoEvents();
    } else {
      var front, e := es[..|es| - 1], es[|es| - 1];
      var s := Run(front);
      Front(es);
      RunStep(es);
      PriorKnown(s, e, id);
      if Runs(s, e) {
        SessionEntries(s, e, id, t);
        if id in s.devices { LoggedIff(front, id, t); }
      } else {
        InvReferential(s, e.now);
        StructuralOrder(s, e, id, id, t);
        if Merges(s, e) && id == e.action.target { LoggedIff(front, e.id, t); }
        if Prior(s, e, id).Some? { LoggedIff(front, Prior(s, e, id).value, t); }
      }
    }
  }

  lemma InvReferential(s: State, now: int)
    requires Inv(s, now)
    ensures Referential(s)
  {
  }

  /** Entries stand in the log in the order of the events that wrote them. */
  ghost predicate InOrder(es: seq<Event>, a: Id, b: Id, t: int) {
    LastEntry(Run(es).statusLog, a, Some(t)) > LastEntry(Run(es).statusLog, b, Some(t)) <==>
      LastLogged(es, a, t).Rank() > LastLogged(es, b, t).Rank()
  }

  lemma {:induction false} LoggedInOrder(es: seq<Event>, a: Id, b: Id, t: int)
    requires Timed(es) && a in Run(es).devices && b in Run(es).devices && a != b
    ensures InOrder(es, a, b, t)
  {
    hide Step, Run, Inv, InOrder, Logs;
    if es == [] {
      NothingInOrder(a, b, t);
    } else {
      var front, e := es[..|es| - 1], es[|es| - 1];
      var s := Run(front);
      Front(es);
      RunStep(es);
      PriorKnown(s, e, a);
      PriorKnown(s, e, b);
      if Runs(s, e) {
        if a in s.devices && b in s.devices { LoggedInOrder(front, a, b, t); }
        if a in s.devices { LoggedIff(front, a, t); }
        OrderAfterSession(es, a, b, t);
      } else {
        if Merges(s, e) {
          MergedAway(s, e);
          if a == e.action.target { LoggedInOrder(front, e.id, b, t); }
          if b == e.action.target { LoggedInOrder(front, a, e.id, t); }
        }
        PriorsDiffer(s, e, a, b);
        LoggedInOrder(front, Prior(s, e, a).value, Prior(s, e, b).value, t);
        OrderAfterMove(es, a, b, t);
      }
    }
  }

  lemma NothingInOrder(a: Id, b: Id, t: int)
    ensures InOrder([], a, b, t)
  {
  }

  lemma {:induction false} OrderAfterSession(es: seq<Event>, a: Id, b: Id, t: int)
    requires es != [] && a != b
    requires var front, e, s := es[..|es| - 1], es[|es| - 1], Run(es[..|es| - 1]);
             && Inv(s, e.now) && Runs(s, e)
             && (a in s.devices && b in s.devices ==> InOrder(front, a, b, t))
             && (a in s.devices ==> (LastEntry(s.statusLog, a, Some(t)) >= 0 <==> LastLogged(front, a, t) != Never))
    ensures InOrder(es, a, b, t)
  {
    hide Step, Run, Inv, LastEntry, Logs;
    var front, e, s := es[..|es| - 1], es[|es| - 1], Run(es[..|es| - 1]);
    RunStep(es);
    SessionEntries(s, e, a, t);
    SessionEntries(s, e, b, t);
  }

  lemma {:induction false} OrderAfterMove(es: seq<Event>, a: Id, b: Id, t: int)
    requires es != [] && a != b
    requires var front, e, s := es[..|es| - 1], es[|es| - 1], Run(es[..|es| - 1]);
             && Inv(s, e.now) && !Runs(s, e) && a in Step(s, e).devices && b in Step(s, e).devices
             && Prior(s, e, a).Some? && Prior(s, e, b).Some?
             && InOrder(front, Prior(s, e, a).value, Prior(s, e, b).value, t)
             && (Merges(s, e) && a == e.action.target ==> InOrder(front, e.id, b, t))
             && (Merges(s, e) && b == e.action.target ==> InOrder(front, a, e.id, t))
    ensures InOrder(es, a, b, t)
  {
    hide Step, Run, Inv, LastEntry, Logs;
    var e, s := es[|es| - 1], Run(es[..|es| - 1]);
    RunStep(es);
    InvReferential(s, e.now);
    StructuralOrder(s, e, a, b, t);
  }

  lemma MergedAway(s: State, e: Event)
    requires Merges(s, e)
    ensures Step(s, e).devices.Keys == s.devices.Keys - {e.id}
  {
  }

  lemma PriorsDiffer(s: State, e: Event, a: Id, b: Id)
    requires !Runs(s, e) && a in Step(s, e).devices && b in Step(s, e).devices && a != b
    ensures Prior(s, e, a).Some? && Prior(s, e, b).Some? && Prior(s, e, a) != Prior(s, e, b)
  {
  }

  /** A handler that logs leaves its row's alert as the newest entry. */
  lemma LoggedTold(s: State, e: Event, t: int)
    requires Inv(s, e.now) && Runs(s, e) && Logs(s, e) && e.now <= t
    ensures AlertBy(Step(s, e).statusLog, e.id, Some(t)) == CurrentAlert(Step(s, e), e.id)
  {
    hide Step, After, AlertBy;
    Effect(s, e);
    AllWithin(Step(s, e).statusLog, e.id, t);
  }

  lemma {:induction false} OthersKept(s: State, e: Event, id: Id, t: int)
    requires Inv(s, e.now) && Runs(s, e) && !(Logs(s, e) && e.id == id && e.now <= t)
    ensures AlertBy(Step(s, e).statusLog, id, Some(t)) ==
            if id in s.devices then AlertBy(s.statusLog, id, Some(t)) else NO_ALERT
  {
    hide Step, After, AlertBy, Recorded, SessionOk;
    Effect(s, e);
    if id !in s.devices { NoAlert(s.statusLog, id, Some(t)); }
    if Logs(s, e) {
      LogSuffix(Opened(s, e), After(s, e), e.now, id, Some(t));
    } else {
      assert Step(s, e).statusLog == s.statusLog;
    }
  }

  /** For every device of every run and every instant: the log shows the alert left by the event that logged last,
      for the device itself or for one it absorbed. */
  lemma {:induction false} LogIsLastLogged(es: seq<Event>, id: Id, t: int)
    requires Timed(es) && id in Run(es).devices
    ensures AlertBy(Run(es).statusLog, id, Some(t)) == LastLogged(es, id, t).Alert()
  {
    hide Step, Run, Inv, AlertBy, LastEntry, Logs;
    if es == [] {
      NoEvents();
    } else {
      var front, e := es[..|es| - 1], es[|es| - 1];
      var s := Run(front);
      Front(es);
      RunStep(es);
      PriorKnown(s, e, id);
      if Runs(s, e) {
        if Logs(s, e) && e.id == id && e.now <= t {
          LoggedTold(s, e, t);
        } else {
          OthersKept(s, e, id, t);
          if id in s.devices { LogIsLastLogged(front, id, t); }
        }
      } else {
        InvReferential(s, e.now);
        FewerLogs(s, e);
        if Merges(s, e) && id == e.action.target {
          MergedLogShows(s.statusLog, e.id, id, Some(t));
          MergedLog(s, e);
          LoggedInOrder(front, e.id, id, t);
          LogIsLastLogged(front, e.id, t);
          LogIsLastLogged(front, id, t);
        } else {
          StructuralPast(s, e, id, t);
          if Prior(s, e, id).Some? { LogIsLastLogged(front, Prior(s, e, id).value, t); }
        }
      }
    }
  }

  lemma MergedLog(s: State, e: Event)
    requires Merges(s, e)
    ensures Step(s, e).statusLog == MoveLogs(s.statusLog, e.id, e.action.target)
  {
  }

  // ------------------------------------------------- after a merge, row and log

  /** A merge keeps the target's row: it agrees with the merged log exactly when it holds the alert logged last.
      Where both rows agreed with their logs before, that is when they held the same alert or the absorbed one
      did not log last. */
  lemma {:induction false} MergeAgreesExactly(s: State, source: Id, target: Id)
    requires source != target && source in s.devices && target in s.devices
    ensures AlertAgrees(Merge(s, source, target), target) <==>
              MergedAlert(s.statusLog, source, target, None) == s.devices[target].alert
    ensures AlertAgrees(s, source) && AlertAgrees(s, target) ==>
              (AlertAgrees(Merge(s, source, target), target) <==>
                 s.devices[source].alert == s.devices[target].alert ||
                 LastEntry(s.statusLog, source, None) <= LastEntry(s.statusLog, target, None))
  {
    hide LastEntry, AlertBy, MergedReadings, MoveCommands;
    MergedLogShows(s.statusLog, source, target, None);
  }

  /** A merge of a flagged device into a healthy one that makes the timeline show a warning the row does not
      hold. */
  lemma MergeCanDisagree()
    ensures var discoverA := Event(0, true, "a", Sensors("t", []));
            var discoverB := Event(1, true, "b", Sensors("t", []));
            var warn := Event(2, true, "a", StatusReport(LWarning, Some("hot")));
            var s := Run([discoverA, discoverB, warn]);
            && "a" in s.devices && "b" in s.devices
            && var s' := Merge(s, "a", "b");
            && AlertBy(s'.statusLog, "b", None) == Alert(Warning, "hot")
            && s'.devices["b"].alert == NO_ALERT
  {
    hide Run, Step, AlertBy, Merge;
    var discoverA := Event(0, true, "a", Sensors("t", []));
    var discoverB := Event(1, true, "b", Sensors("t", []));
    var warn := Event(2, true, "a", StatusReport(LWarning, Some("hot")));
    NoEvents();
    Ran([], discoverA); Ran([discoverA], discoverB); Ran([discoverA, discoverB], warn);
    assert [] + [discoverA] == [discoverA] && [discoverA] + [discoverB] == [discoverA, discoverB] &&
           [discoverA, discoverB] + [warn] == [discoverA, discoverB, warn];
    var s1 := Step(EMPTY, discoverA);
    Discover(EMPTY, discoverA);
    var s2 := Step(s1, discoverB);
    Discover(s1, discoverB);
    Warned(s2, warn);
    MergedLast(Step(s2, warn), s2.statusLog, warn);
  }

  lemma MergedLast(s: State, log: seq<StatusEntry>, e: Event)
    requires "a" in s.devices && "b" in s.devices
    requires s.statusLog == log + [StatusEntry(e.now, "a", Alert(Warning, "hot"))]
    ensures AlertBy(Merge(s, "a", "b").statusLog, "b", None) == Alert(Warning, "hot")
    ensures Merge(s, "a", "b").devices["b"].alert == s.devices["b"].alert
  {
  }

  lemma {:induction false} Ran(es: seq<Event>, e: Event)
    ensures Run(es + [e]) == Step(Run(es), e)
  {
  }

  lemma Discover(s: State, e: Event)
    requires e.id !in s.devices && e.action.Sensors? && e.action.data == []
    ensures var s' := Step(s, e);
            && s'.devices.Keys == s.devices.Keys + {e.id} && s'.statusLog == s.statusLog
            && s'.devices[e.id].alert == NO_ALERT
            && (forall id :: id in s.devices ==> s'.devices[id] == s.devices[id])
  {
    hide FlushBodies, Settle;
  }

  lemma Warned(s: State, e: Event)
    requires e.id in s.devices && e.action == StatusReport(LWarning, Some("hot"))
    ensures var s' := Step(s, e);
            && s'.devices.Keys == s.devices.Keys
            && s'.statusLog == s.statusLog + [StatusEntry(e.now, e.id, Alert(Warning, "hot"))]
            && (forall id :: id in s.devices && id != e.id ==> s'.devices[id] == s.devices[id])
  {
  }
}
