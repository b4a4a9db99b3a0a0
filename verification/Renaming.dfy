/** Renaming a device moves everything it owns, and what renaming back restores. */
module Renaming {
  import opened Domain
  import opened Protocol
  import opened Invariants
  import opened Reachable
  import opened History

  lemma MovedBack(s: State, from: Id, to: Id)
    requires Referential(s) && from in s.devices && to !in s.devices
    ensures MoveCommands(MoveCommands(s.commands, from, to), to, from) == s.commands
    ensures MoveLogs(MoveLogs(s.statusLog, from, to), to, from) == s.statusLog
    ensures MoveReadings(MoveReadings(s.readings, from, to), to, from) == s.readings
  {
  }

  /** Renaming to a fresh identifier and back restores every table of every reachable state, and the device
      row except for the two columns a rename forgets: the state is restored exactly when those two columns
      had their defaults. */
  lemma {:induction false} RenameThereAndBack(es: seq<Event>, from: Id, to: Id)
    requires Timed(es) && from in Run(es).devices && to !in Run(es).devices
    ensures var s := Run(es);
            var s' := Rename(Rename(s, from, to), to, from);
            && s'.commands == s.commands && s'.statusLog == s.statusLog && s'.readings == s.readings
            && s'.devices == s.devices[from := RenamedDevice(s.devices[from])]
            && (s' == s <==> s.devices[from].locationType == "" && !s.devices[from].diagCapable)
  {
    hide Run, CommandsOk, LogOk, ReadingsOk, RowOk;
    RunKeeps(es);
    var s := Run(es);
    MovedBack(s, from, to);
    var s' := Rename(Rename(s, from, to), to, from);
    assert s'.devices == s.devices[from := RenamedDevice(s.devices[from])];
    if RenamedDevice(s.devices[from]) == s.devices[from] {
      assert s.devices[from := s.devices[from]] == s.devices;
    } else {
      assert s'.devices[from] != s.devices[from];
    }
  }

  /** A rename neither loses nor invents rows, hands the renamed device's rows over unchanged but for the identifier,
      keeps its row but for the two columns it resets, and leaves other devices alone. */
  lemma {:induction false} RenameConserves(es: seq<Event>, e: Event, i: nat)
    requires Timed(es + [e]) && Renames(Run(es), e)
    ensures var s, s', from, to := Run(es), Run(es + [e]), e.id, e.action.newId;
            && s'.devices == (s.devices - {from})[to := s.devices[from].(locationType := "", diagCapable := false)]
            && s'.wire == s.wire && s'.nextPk == s.nextPk
            && |s'.commands| == |s.commands| && |s'.statusLog| == |s.statusLog| && |s'.readings| == |s.readings|
            && (i < |s.commands| ==>
                  var c := s.commands[i];
                  c.device != to && s'.commands[i] == c.(device := if c.device == from then to else c.device))
            && (i < |s.statusLog| ==>
                  var c := s.statusLog[i];
                  c.device != to && s'.statusLog[i] == c.(device := if c.device == from then to else c.device))
            && (i < |s.readings| ==>
                  var c := s.readings[i];
                  c.device != to && s'.readings[i] == c.(device := if c.device == from then to else c.device))
  {
    hide Run, CommandsOk, LogOk, ReadingsOk, RowOk, Handle;
    assert (es + [e])[..|es + [e]| - 1] == es;
    RunStep(es + [e]);
    Front(es + [e]);
  }

  /** A merge removes the source and hands its commands and log entries over unchanged but for the identifier; of the
      target's row it changes nothing but `last_seen`, to the later of the two, and of the others nothing. */
  lemma {:induction false} MergeConserves(es: seq<Event>, e: Event, i: nat)
    requires Merges(Run(es), e)
    ensures var s, s', source, target := Run(es), Run(es + [e]), e.id, e.action.target;
            var a, b := s.devices[source].lastSeen, s.devices[target].lastSeen;
            var later := if a.Some? && (b.None? || a.value > b.value) then a else b;
            && s'.devices == (s.devices - {source})[target := s.devices[target].(lastSeen := later)]
            && s'.wire == s.wire && s'.nextPk == s.nextPk
            && |s'.commands| == |s.commands| && |s'.statusLog| == |s.statusLog|
            && (i < |s.commands| ==>
                  var c := s.commands[i];
                  s'.commands[i] == c.(device := if c.device == source then target else c.device))
            && (i < |s.statusLog| ==>
                  var c := s.statusLog[i];
                  s'.statusLog[i] == c.(device := if c.device == source then target else c.device))
  {
    hide Run, MergedReadings, Handle;
    assert (es + [e])[..|es + [e]| - 1] == es;
    RunStep(es + [e]);
  }
}
