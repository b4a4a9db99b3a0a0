/** What deleting a device, clearing its commands and erasing its readings remove, and what they leave alone. */
module Removal {
  import opened Domain
  import opened Protocol
  import opened History

  // --------------------------------------------- the rows of one device, in order

  function CommandsOf(rows: seq<Command>, id: Id): seq<Command> {
    if rows == [] then []
    else CommandsOf(rows[..|rows| - 1], id) + if rows[|rows| - 1].device == id then [rows[|rows| - 1]] else []
  }

  function ReadingsOf(rows: seq<Reading>, id: Id): seq<Reading> {
    if rows == [] then []
    else ReadingsOf(rows[..|rows| - 1], id) + if rows[|rows| - 1].device == id then [rows[|rows| - 1]] else []
  }

  function WithoutKey(rows: seq<Command>, pk: nat): seq<Command> {
    if rows == [] then []
    else WithoutKey(rows[..|rows| - 1], pk) + if rows[|rows| - 1].pk == pk then [] else [rows[|rows| - 1]]
  }

  predicate Selected(r: Reading, only: Option<string>, start: int, end: int) {
    (only.Some? ==> r.metric == only.value) && start <= r.time <= end
  }

  /** The readings of a range, of one metric or of all, taken out. */
  function Unselected(rows: seq<Reading>, only: Option<string>, start: int, end: int): seq<Reading> {
    if rows == [] then []
    else
      Unselected(rows[..|rows| - 1], only, start, end) +
      if Selected(rows[|rows| - 1], only, start, end) then [] else [rows[|rows| - 1]]
  }

  // -------------------------------------------------------- one row more or less

  lemma {:induction false} OneCommandMore(rows: seq<Command>, c: Command, id: Id, pk: Option<nat>, key: nat)
    ensures CommandsOf(rows + [c], id) == CommandsOf(rows, id) + if c.device == id then [c] else []
    ensures CommandsWithout(rows + [c], id, pk) ==
            CommandsWithout(rows, id, pk) + if c.device == id && (pk.None? || pk.value == c.pk) then [] else [c]
    ensures WithoutKey(rows + [c], key) == WithoutKey(rows, key) + if c.pk == key then [] else [c]
  {
    assert (rows + [c])[..|rows|] == rows;
  }

  lemma {:induction false} OneEntryMore(rows: seq<StatusEntry>, c: StatusEntry, id: Id)
    ensures EntriesOf(rows + [c], id) == EntriesOf(rows, id) + if c.device == id then [c] else []
    ensures LogsWithout(rows + [c], id) == LogsWithout(rows, id) + if c.device == id then [] else [c]
  {
    assert (rows + [c])[..|rows|] == rows;
  }

  lemma {:induction false} OneReadingMore(rows: seq<Reading>, r: Reading, id: Id, only: Option<string>, start: int,
                                          end: int)
    ensures ReadingsOf(rows + [r], id) == ReadingsOf(rows, id) + if r.device == id then [r] else []
    ensures ReadingsWithout(rows + [r], id) == ReadingsWithout(rows, id) + if r.device == id then [] else [r]
    ensures ReadingsOutside(rows + [r], id, only, start, end) ==
            ReadingsOutside(rows, id, only, start, end) +
            if r.device == id && Selected(r, only, start, end) then [] else [r]
    ensures Unselected(rows + [r], only, start, end) ==
            Unselected(rows, only, start, end) + if Selected(r, only, start, end) then [] else [r]
  {
    assert (rows + [r])[..|rows|] == rows;
  }

  lemma {:induction false} NoRows(id: Id, pk: Option<nat>, key: nat, only: Option<string>, start: int, end: int)
    ensures CommandsOf([], id) == [] && CommandsWithout([], id, pk) == [] && WithoutKey([], key) == []
    ensures EntriesOf([], id) == [] && LogsWithout([], id) == []
    ensures ReadingsOf([], id) == [] && ReadingsWithout([], id) == []
    ensures ReadingsOutside([], id, only, start, end) == [] && Unselected([], only, start, end) == []
  {
  }

  lemma {:induction false} CommandsDropped(rows: seq<Command>, id: Id, pk: Option<nat>, o: Id)
    ensures CommandsOf(CommandsWithout(rows, id, pk), o) ==
            if o != id then CommandsOf(rows, o)
            else if pk.None? then []
            else WithoutKey(CommandsOf(rows, o), pk.value)
    ensures pk.None? ==> |CommandsWithout(rows, id, pk)| + |CommandsOf(rows, id)| == |rows|
  {
    hide CommandsOf, CommandsWithout, WithoutKey;
    var key := if pk.Some? then pk.value else 0;
    if rows == [] {
      NoRows(id, pk, key, None, 0, 0);
      NoRows(o, pk, key, None, 0, 0);
    } else {
      var front, last := rows[..|rows| - 1], rows[|rows| - 1];
      assert rows == front + [last];
      CommandsDropped(front, id, pk, o);
      OneCommandMore(front, last, id, pk, key);
      OneCommandMore(front, last, o, pk, key);
      OneCommandMore(CommandsWithout(front, id, pk), last, o, pk, key);
      OneCommandMore(CommandsOf(front, o), last, o, pk, key);
      SameSeq(CommandsWithout(front, id, pk), CommandsOf(front, o));
    }
  }

  lemma SameSeq<T>(a: seq<T>, b: seq<T>)
    ensures a + [] == a && b + [] == b
  {
  }

  lemma {:induction false} EntriesDropped(rows: seq<StatusEntry>, id: Id, o: Id)
    ensures EntriesOf(LogsWithout(rows, id), o) == if o == id then [] else EntriesOf(rows, o)
    ensures |LogsWithout(rows, id)| + |EntriesOf(rows, id)| == |rows|
  {
    hide EntriesOf, LogsWithout;
    if rows == [] {
      NoRows(id, None, 0, None, 0, 0);
      NoRows(o, None, 0, None, 0, 0);
    } else {
      var front, last := rows[..|rows| - 1], rows[|rows| - 1];
      assert rows == front + [last];
      EntriesDropped(front, id, o);
      OneEntryMore(front, last, id);
      OneEntryMore(front, last, o);
      OneEntryMore(LogsWithout(front, id), last, o);
      SameSeq(LogsWithout(front, id), EntriesOf(front, o));
    }
  }

  lemma {:induction false} ReadingsDropped(rows: seq<Reading>, id: Id, o: Id)
    ensures ReadingsOf(ReadingsWithout(rows, id), o) == if o == id then [] else ReadingsOf(rows, o)
    ensures |ReadingsWithout(rows, id)| + |ReadingsOf(rows, id)| == |rows|
  {
    hide ReadingsOf, ReadingsWithout, ReadingsOutside, Unselected;
    if rows == [] {
      NoRows(id, None, 0, None, 0, 0);
      NoRows(o, None, 0, None, 0, 0);
    } else {
      var front, last := rows[..|rows| - 1], rows[|rows| - 1];
      assert rows == front + [last];
      ReadingsDropped(front, id, o);
      OneReadingMore(front, last, id, None, 0, 0);
      OneReadingMore(front, last, o, None, 0, 0);
      OneReadingMore(ReadingsWithout(front, id), last, o, None, 0, 0);
      SameSeq(ReadingsWithout(front, id), ReadingsOf(front, o));
    }
  }

  lemma {:induction false} ReadingsErased(rows: seq<Reading>, id: Id, only: Option<string>, start: int, end: int, o: Id)
    ensures ReadingsOf(ReadingsOutside(rows, id, only, start, end), o) ==
            if o == id then Unselected(ReadingsOf(rows, o), only, start, end) else ReadingsOf(rows, o)
  {
    hide ReadingsOf, ReadingsWithout, ReadingsOutside, Unselected, Selected;
    if rows == [] {
      NoRows(id, None, 0, only, start, end);
      NoRows(o, None, 0, only, start, end);
    } else {
      var front, last := rows[..|rows| - 1], rows[|rows| - 1];
      assert rows == front + [last];
      ReadingsErased(front, id, only, start, end, o);
      OneReadingMore(front, last, id, only, start, end);
      OneReadingMore(front, last, o, only, start, end);
      OneReadingMore(ReadingsOutside(front, id, only, start, end), last, o, only, start, end);
      OneReadingMore(ReadingsOf(front, o), last, o, only, start, end);
      SameSeq(ReadingsOutside(front, id, only, start, end), ReadingsOf(front, o));
    }
  }

  // --------------------------------------------------------------------- theorems

  /** After a deletion nothing of the device is left in any table, no other row is lost, and every other device keeps
      its row and its commands, log entries and readings in their order. */
  lemma {:induction false} DeleteRemovesExactly(es: seq<Event>, e: Event, o: Id)
    requires e.action.DeleteDevice? && e.id in Run(es).devices
    ensures var s, s' := Run(es), Run(es + [e]);
            && s'.devices == s.devices - {e.id} && s'.wire == s.wire
            && |s'.commands| + |CommandsOf(s.commands, e.id)| == |s.commands|
            && |s'.statusLog| + |EntriesOf(s.statusLog, e.id)| == |s.statusLog|
            && |s'.readings| + |ReadingsOf(s.readings, e.id)| == |s.readings|
            && CommandsOf(s'.commands, o) == (if o == e.id then [] else CommandsOf(s.commands, o))
            && EntriesOf(s'.statusLog, o) == (if o == e.id then [] else EntriesOf(s.statusLog, o))
            && ReadingsOf(s'.readings, o) == (if o == e.id then [] else ReadingsOf(s.readings, o))
  {
    hide Run, CommandsOf, EntriesOf, ReadingsOf, CommandsWithout, LogsWithout, ReadingsWithout, WithoutKey;
    assert (es + [e])[..|es + [e]| - 1] == es;
    RunStep(es + [e]);
    var s := Run(es);
    CommandsDropped(s.commands, e.id, None, o);
    EntriesDropped(s.statusLog, e.id, o);
    ReadingsDropped(s.readings, e.id, o);
  }

  /** Clearing removes the device's commands, or the one with the given key, and nothing else; the device row, its log
      and its readings stay, and so do all other devices' commands in their order. */
  lemma {:induction false} ClearRemovesExactly(es: seq<Event>, e: Event, o: Id)
    requires e.action.ClearCommands? && e.id in Run(es).devices
    ensures var s, s', pk := Run(es), Run(es + [e]), e.action.pk;
            && s' == s.(commands := s'.commands)
            && CommandsOf(s'.commands, o) ==
               if o != e.id then CommandsOf(s.commands, o)
               else if pk.None? then []
               else WithoutKey(CommandsOf(s.commands, o), pk.value)
  {
    hide Run, CommandsOf, CommandsWithout, WithoutKey;
    assert (es + [e])[..|es + [e]| - 1] == es;
    RunStep(es + [e]);
    CommandsDropped(Run(es).commands, e.id, e.action.pk, o);
  }

  /** Erasing takes exactly the device's readings in the range, of the one metric or of all, out of the table, and
      nothing when the range is empty; its other readings and those of every other device keep their order, and nothing
      but the readings changes: not the cached battery level, the alert or any log. */
  lemma {:induction false} EraseRemovesExactly(es: seq<Event>, e: Event, o: Id)
    requires e.action.EraseReadings? && e.id in Run(es).devices
    ensures var s, s', a := Run(es), Run(es + [e]), e.action;
            && s' == s.(readings := s'.readings)
            && ReadingsOf(s'.readings, o) ==
               if o == e.id && a.start < a.end then Unselected(ReadingsOf(s.readings, o), a.only, a.start, a.end)
               else ReadingsOf(s.readings, o)
  {
    hide Run, ReadingsOf, ReadingsOutside, Unselected;
    assert (es + [e])[..|es + [e]| - 1] == es;
    RunStep(es + [e]);
    ReadingsErased(Run(es).readings, e.id, e.action.only, e.action.start, e.action.end, o);
  }
}
