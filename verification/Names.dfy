/** Which devices exist, and under which identifiers, by the events alone. */
module Names {
  import opened Domain
  import opened Protocol
  import opened Reachable
  import opened History
  import opened Spelling

  /** An identifier an admin may choose. */
  predicate NewName(s: string) { |s| > 0 && Letters(s) }

  /** The identifiers in use: a sensor message brings one in, a deletion and a merge remove one, a rename to a valid
      free one exchanges them, and nothing else does anything. */
  function Known(es: seq<Event>): set<Id> {
    if es == [] then {}
    else
      var known, e := Known(es[..|es| - 1]), es[|es| - 1];
      match e.action
      case Sensors(_, _) => known + {e.id}
      case DeleteDevice => known - {e.id}
      case RenameTo(name) => if e.id in known && name !in known && NewName(name) then known - {e.id} + {name} else known
      case MergeInto(target) =>
        if e.id in known && target in known && target != e.id && NewName(target) then known - {e.id} else known
      case _ => known
  }

  lemma KeysStep(s: State, e: Event)
    ensures Step(s, e).devices.Keys ==
            match e.action
            case Sensors(_, _) => s.devices.Keys + {e.id}
            case DeleteDevice => s.devices.Keys - {e.id}
            case RenameTo(name) => if Renames(s, e) then s.devices.Keys - {e.id} + {name} else s.devices.Keys
            case MergeInto(target) => if Merges(s, e) then s.devices.Keys - {e.id} else s.devices.Keys
            case _ => s.devices.Keys
  {
    hide CommandsWithout, LogsWithout, ReadingsWithout, ReadingsOutside, MoveCommands, MoveLogs, MoveReadings,
         MergedReadings;
    if IsSessionAction(e.action) { SessionKeys(s, e); }
  }

  lemma SessionKeys(s: State, e: Event)
    requires IsSessionAction(e.action)
    ensures Step(s, e).devices.Keys == if e.action.Sensors? then s.devices.Keys + {e.id} else s.devices.Keys
  {
    hide Handle;
    if Runs(s, e) {
      SameName(Opened(s, e), e.id !in s.devices, e);
      assert Step(s, e) == Commit(s, After(s, e));
    }
  }

  lemma SameName(x: Session, created: bool, e: Event)
    requires IsSessionAction(e.action)
    ensures Handle(x, created, e).id == x.id
  {
    hide Settle, Acknowledge, ReportedMirror, PutOffset, Put, Published, Receive, Ingest;
  }

  lemma NewNameIs(s: string)
    ensures NewName(s) <==> ValidNewId(s)
  {
    hide Letters, AllSafe;
    LettersAre(s);
  }

  /** In every run the device table holds exactly the devices the events brought in and did not remove. */
  lemma {:induction false} KnownExactly(es: seq<Event>)
    ensures Run(es).devices.Keys == Known(es)
  {
    hide Run, Step, NewName, ValidNewId;
    if es == [] {
      NoEvents();
    } else {
      var front, e := es[..|es| - 1], es[|es| - 1];
      KnownExactly(front);
      RunStep(es);
      KeysStep(Run(front), e);
      if e.action.RenameTo? { NewNameIs(e.action.newId); }
      if e.action.MergeInto? { NewNameIs(e.action.target); }
    }
  }

  /** When every sensor message comes from a topic with a safe identifier, every device has one: letters, digits,
      hyphens and underscores, with one final newline allowed. No wildcard or separator gets in by a rename either. */
  lemma {:induction false} IdentifiersStaySafe(es: seq<Event>, id: Id)
    requires forall i :: 0 <= i < |es| && es[i].action.Sensors? ==> Spelled(es[i].id)
    requires id in Run(es).devices
    ensures Spelled(id)
  {
    KnownExactly(es);
    KnownAreSafe(es, id);
  }

  lemma {:induction false} KnownAreSafe(es: seq<Event>, id: Id)
    requires forall i :: 0 <= i < |es| && es[i].action.Sensors? ==> Spelled(es[i].id)
    requires id in Known(es)
    ensures Spelled(id)
  {
    hide Letters;
    if es != [] {
      var front, e := es[..|es| - 1], es[|es| - 1];
      if id in Known(front) { KnownAreSafe(front, id); } else if e.action.RenameTo? { ChosenIsSafe(id); }
    }
  }

  lemma ChosenIsSafe(s: string)
    requires NewName(s)
    ensures Spelled(s)
  {
    if s[|s| - 1] == '\n' { LettersAre(s); }
  }
}
