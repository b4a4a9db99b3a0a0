/** What a device's row says about the run that led to it. */
module History {
  import opened Domain
  import opened Protocol
  import opened Invariants
  import opened Reachable

  /** The entries of one device, in the order they were written. */
  function EntriesOf(log: seq<StatusEntry>, id: Id): seq<StatusEntry> {
    if log == [] then []
    else EntriesOf(log[..|log| - 1], id) + if log[|log| - 1].device == id then [log[|log| - 1]] else []
  }

  function CurrentAlert(s: State, id: Id): Alert { if id in s.devices then s.devices[id].alert else NO_ALERT }

  /** The alert the device now called `id` held at instant `t` of the run, following it back through renames. */
  function HeldAlert(es: seq<Event>, id: Id, t: int): Alert {
    if es == [] then NO_ALERT
    else
      var front, last := es[..|es| - 1], es[|es| - 1];
      if last.now <= t then CurrentAlert(Run(es), id)
      else
        match Prior(Run(front), last, id)
        case None => NO_ALERT
        case Some(p) => HeldAlert(front, p, t)
  }

  lemma {:induction false} AllWithin(log: seq<StatusEntry>, id: Id, t: int)
    requires forall i :: 0 <= i < |log| ==> log[i].time <= t
    ensures AlertBy(log, id, Some(t)) == AlertBy(log, id, None)
  {
    if log != [] { AllWithin(log[..|log| - 1], id, t); }
  }

  /** An event at `e.now` does not rewrite what the log says about earlier instants. */
  lemma {:induction false} PastKept(s: State, e: Event, id: Id, t: int)
    requires Inv(s, e.now) && id in Step(s, e).devices && t < e.now
    requires !(Merges(s, e) && id == e.action.target)
    ensures AlertBy(Step(s, e).statusLog, id, Some(t)) ==
            match Prior(s, e, id) case None => NO_ALERT case Some(p) => AlertBy(s.statusLog, p, Some(t))
  {
    hide Step, After, SessionOk, AlertBy, Recorded;
    if Runs(s, e) {
      if id !in s.devices { NoAlert(s.statusLog, id, Some(t)); }
      Effect(s, e);
      LogSuffix(Opened(s, e), After(s, e), e.now, id, Some(t));
    } else {
      StructuralPast(s, e, id, t);
    }
  }

  /** Deleting, renaming and merging move whole histories. */
  lemma {:induction false} StructuralPast(s: State, e: Event, id: Id, t: int)
    requires Referential(s) && !Runs(s, e) && id in Step(s, e).devices && !(Merges(s, e) && id == e.action.target)
    ensures AlertBy(Step(s, e).statusLog, id, Some(t)) ==
            match Prior(s, e, id) case None => NO_ALERT case Some(p) => AlertBy(s.statusLog, p, Some(t))
  {
    hide AlertBy, LogsWithout, MoveLogs, CommandsWithout, ReadingsWithout, MoveCommands, MoveReadings, MergedReadings,
         Handle;
    if e.id in s.devices && !IsSessionAction(e.action) {
      match e.action
      case DeleteDevice => LogsWithoutAlert(s.statusLog, e.id, id, Some(t));
      case RenameTo(newId) => if Renames(s, e) { MoveLogsAlert(s.statusLog, e.id, newId, id, Some(t)); }
      case MergeInto(target) => if Merges(s, e) { MoveLogsOthers(s.statusLog, e.id, target, id, Some(t)); }
      case ClearCommands(_) =>
      case EraseReadings(_, _, _) =>
    }
  }

  /** Identities are followed into devices that were known before. */
  lemma PriorKnown(s: State, e: Event, id: Id)
    requires id in Step(s, e).devices
    ensures Prior(s, e, id).Some? ==> Prior(s, e, id).value in s.devices
  {
  }

  lemma {:induction false} RunStep(es: seq<Event>)
    requires es != []
    ensures Run(es) == Step(Run(es[..|es| - 1]), es[|es| - 1])
  {
  }

  /** The device's row holds the alert its newest log entry tells. */
  predicate AlertAgrees(s: State, id: Id) {
    id in s.devices && AlertBy(s.statusLog, id, None) == s.devices[id].alert
  }

  lemma NoEvents()
    ensures Run([]) == EMPTY
  {
  }

  lemma {:induction false} LogWithin(s: State, now: int, id: Id, t: int)
    requires Inv(s, now) && now <= t
    ensures AlertBy(s.statusLog, id, Some(t)) == AlertBy(s.statusLog, id, None)
  {
    AllWithin(s.statusLog, id, t);
  }
}
