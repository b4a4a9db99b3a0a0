/** Message handlers and web requests interleaved, one database operation at a time. */
module Interleaving {
  import opened Domain
  import opened Protocol
  import opened Invariants
  import opened AlertClock
  import opened Saves

  // ---------------------------------------------------------------- schedules

  /** One atomic step. The worker loads the row for a message and issues its next operation. A web request saves
      whatever values it likes in columns the views may write; the capabilities request publishes, then saves the timer,
      then creates its row; the merge view loads the target (the source's `last_seen` at hand) and may save its
      `last_seen` later; the rename view loads the device and later, in one transaction, puts a copy of what it loaded
      in the place of the row. */
  datatype Micro =
    | Load(tables: Session, created: bool, e: Event)
    | WorkerStep
    | WebSave(local: Device, columns: set<Column>)
    | RequestView(id: Id, now: int)
    | WebStep
    | MergeLoad(source: Option<int>)
    | MergeSave
    | RenameLoad
    | RenameCreate(from: Id, to: Id)

  /** What the merge view remembers between its load and its save. */
  datatype Merging = Idle | Loaded(source: Option<int>, target: Option<int>)

  /** The row and the command table, the operations either side has still to issue, what the merge and the rename view
      have loaded, and (for the record) the device as each side's own saves alone would have it. */
  datatype Schedule = Schedule(
    row: Device, commands: seq<Command>, nextPk: nat, todo: seq<Task>, request: seq<Task>, merging: Merging,
    renaming: Option<Device>, byWorker: Device, byWeb: Device)

  function Worked(c: Schedule, t: Task): Schedule {
    c.(row := OnRow(c.row, t), commands := OnRows(c.commands, c.nextPk, t), byWorker := OnRow(c.byWorker, t))
  }

  function Requested(c: Schedule, t: Task): Schedule {
    c.(row := OnRow(c.row, t), commands := OnRows(c.commands, c.nextPk, t),
       nextPk := if t.CreateRow? then c.nextPk + 1 else c.nextPk, byWeb := OnRow(c.byWeb, t))
  }

  /** The copy takes the row's place. Whatever was still to be done to the old row fails or finds nothing: a save of
      columns wants an existing row, and so does a command that refers to it. */
  function Replaced(c: Schedule, from: Id, to: Id): Schedule
    requires c.renaming.Some?
  {
    c.(row := RenamedDevice(c.renaming.value), commands := MoveCommands(c.commands, from, to),
       todo := [], request := [], merging := Idle, renaming := None)
  }

  function TimerSave(row: Device, now: int): Task {
    SaveColumns(Saved(row.(capabilitiesRequestedAt := Some(now)), {CapabilitiesRequestedAt}))
  }

  /** `a` is a later time than `b`, or `b` is none. */
  predicate Beats(a: Option<int>, b: Option<int>) { a.Some? && (b.None? || a.value > b.value) }

  function Seen(d: Device, seen: Option<int>): Device { d.(lastSeen := seen) }

  function Do(c: Schedule, m: Micro): Schedule {
    match m
    case Load(tables, created, e) =>
      if c.todo == [] && IsMessage(e.action)
      then c.(todo := TasksOf(tables.(device := c.row, commands := c.commands), created, e)) else c
    case WorkerStep => if c.todo == [] then c else Worked(c, c.todo[0]).(todo := c.todo[1..])
    case WebSave(local, columns) =>
      if columns <= WEB_ONLY + SHARED - {LastSeen}
      then c.(row := Save(c.row, local, columns), byWeb := Save(c.byWeb, local, columns))
      else c
    case RequestView(id, now) =>
      if c.request == [] then c.(request := [TimerSave(c.row, now), CreateRow(id, REQUEST_CAPABILITIES, now)]) else c
    case WebStep => if c.request == [] then c else Requested(c, c.request[0]).(request := c.request[1..])
    case MergeLoad(source) => if c.merging.Idle? then c.(merging := Loaded(source, c.row.lastSeen)) else c
    case MergeSave =>
      if c.merging.Idle? then c
      else if Beats(c.merging.source, c.merging.target)
      then c.(merging := Idle, row := Seen(c.row, c.merging.source), byWeb := Seen(c.byWeb, c.merging.source))
      else c.(merging := Idle)
    case RenameLoad => if c.renaming.None? then c.(renaming := Some(c.row)) else c
    case RenameCreate(from, to) => if c.renaming.None? then c else Replaced(c, from, to)
  }

  function DoAll(c: Schedule, ms: seq<Micro>): Schedule {
    if ms == [] then c else Do(DoAll(c, ms[..|ms| - 1]), ms[|ms| - 1])
  }

  lemma {:induction false} DoMore(c: Schedule, ms: seq<Micro>, more: seq<Micro>)
    ensures DoAll(c, ms + more) == DoAll(DoAll(c, ms), more)
  {
    hide Do;
    if more == [] {
      assert ms + more == ms;
    } else {
      assert (ms + more)[..|ms + more| - 1] == ms + more[..|more| - 1];
      DoMore(c, ms, more[..|more| - 1]);
    }
  }

  lemma {:induction false} DoOne(c: Schedule, m: Micro)
    ensures DoAll(c, [m]) == Do(c, m)
  {
  }

  function Fresh(row: Device, commands: seq<Command>, nextPk: nat): Schedule {
    Schedule(row, commands, nextPk, [], [], Idle, None, row, row)
  }

  // ------------------------------------------------------------- what a step writes

  function WorkerSave(c: Schedule, m: Micro): Option<Saved> {
    if m.WorkerStep? && c.todo != [] && c.todo[0].SaveColumns? then Some(c.todo[0].saved) else None
  }

  function ViewSave(c: Schedule, m: Micro): Option<Saved> {
    match m
    case WebSave(local, columns) =>
      if columns <= WEB_ONLY + SHARED - {LastSeen} then Some(Saved(local, columns)) else None
    case WebStep => if c.request != [] && c.request[0].SaveColumns? then Some(c.request[0].saved) else None
    case MergeSave =>
      if c.merging.Loaded? && Beats(c.merging.source, c.merging.target)
      then Some(Saved(Seen(c.row, c.merging.source), {LastSeen})) else None
    case _ => None
  }

  /** The step replaces the row by the copy. */
  predicate Swaps(c: Schedule, m: Micro) { m.RenameCreate? && c.renaming.Some? }

  function Write(d: Device, s: Option<Saved>): Device { if s.None? then d else Save(d, s.value.local, s.value.columns) }

  predicate Writes(s: Option<Saved>, column: Column) { s.Some? && column in s.value.columns }

  /** Steps other than the swap write nothing into the row but their saves. */
  lemma StepWrites(c: Schedule, m: Micro)
    ensures WorkerSave(c, m).None? || ViewSave(c, m).None?
    ensures var c' := Do(c, m);
            && c'.byWorker == Write(c.byWorker, WorkerSave(c, m))
            && c'.byWeb == Write(c.byWeb, ViewSave(c, m))
            && (!Swaps(c, m) ==> c'.row == Write(Write(c.row, WorkerSave(c, m)), ViewSave(c, m)))
            && (Swaps(c, m) ==> c'.row == RenamedDevice(c.renaming.value))
    ensures Swaps(c, m) ==> WorkerSave(c, m).None? && ViewSave(c, m).None?
  {
    hide Save, TasksOf;
    if m.MergeSave? && c.merging.Loaded? {
      SeenIsSave(c.row, Seen(c.row, c.merging.source));
      SeenIsSave(c.byWeb, Seen(c.row, c.merging.source));
    }
  }

  lemma SeenIsSave(row: Device, local: Device)
    ensures Save(row, local, {LastSeen}) == Seen(row, local.lastSeen)
  {
  }

  lemma SaveSame(a: Device, b: Device, s: Saved, column: Column)
    ensures Same(Save(a, s.local, s.columns), if column in s.columns then s.local else a, column)
  {
  }

  lemma {:induction false} SameIsEqual(a: Device, b: Device, c: Device, column: Column)
    ensures Same(a, a, column)
    ensures Same(a, b, column) == Same(b, a, column)
    ensures Same(a, b, column) ==> Same(a, c, column) == Same(b, c, column)
  {
  }

  // ------------------------------------------------------------ every schedule

  predicate WebTask(t: Task) { t.CreateRow? || (t.SaveColumns? && t.saved.columns == {CapabilitiesRequestedAt}) }

  /** What holds after any schedule. */
  ghost predicate Orderly(c: Schedule) {
    && Consistent(c.row)
    && (c.renaming.Some? ==> Consistent(c.renaming.value))
    && (forall i :: 0 <= i < |c.todo| && c.todo[i].SaveColumns? ==> Sane(c.todo[i].saved))
    && (forall i :: 0 <= i < |c.request| ==> WebTask(c.request[i]))
  }

  lemma KeepsConsistent(row: Device, s: Saved)
    requires Consistent(row) && (AlertPair in s.columns <==> AlertUpdatedAt in s.columns)
    requires AlertPair in s.columns ==> Consistent(s.local)
    ensures Consistent(Save(row, s.local, s.columns))
  {
  }

  lemma SavesAreOwn(c: Schedule, m: Micro)
    requires Orderly(c)
    ensures WorkerSave(c, m).Some? ==>
              Sane(WorkerSave(c, m).value) && WorkerSave(c, m).value.columns <= WORKER_ONLY + SHARED
    ensures ViewSave(c, m).Some? ==> ViewSave(c, m).value.columns <= WEB_ONLY + SHARED
  {
  }

  lemma LoadIsSane(x: Session, created: bool, e: Event)
    requires IsMessage(e.action) && Consistent(x.device)
    ensures forall i :: 0 <= i < |TasksOf(x, created, e)| && TasksOf(x, created, e)[i].SaveColumns? ==>
              Sane(TasksOf(x, created, e)[i].saved)
  {
    hide SavesOf, TasksOf, SavesIn, Sane, Consistent;
    SavesAreSane(x, created, e);
    TasksSave(x, created, e);
    var tasks := TasksOf(x, created, e);
    forall i | 0 <= i < |tasks| && tasks[i].SaveColumns? ensures Sane(tasks[i].saved) { AmongSaves(tasks, i); }
  }

  lemma {:induction false} AmongSaves(tasks: seq<Task>, i: int)
    requires 0 <= i < |tasks| && tasks[i].SaveColumns?
    ensures tasks[i].saved in SavesIn(tasks)
  {
    if i < |tasks| - 1 { AmongSaves(tasks[..|tasks| - 1], i); }
  }

  lemma OrderlyStep(c: Schedule, m: Micro)
    requires Orderly(c)
    ensures Orderly(Do(c, m))
  {
    hide Save, Consistent, Sane, TasksOf;
    StepWrites(c, m);
    SavesAreOwn(c, m);
    if WorkerSave(c, m).Some? { SaneKeeps(c.row, WorkerSave(c, m).value); }
    if ViewSave(c, m).Some? { KeepsConsistent(c.row, ViewSave(c, m).value); }
    match m
    case Load(tables, created, e) =>
      if c.todo == [] && IsMessage(e.action) {
        LoadIsSane(tables.(device := c.row, commands := c.commands), created, e);
      }
    case RenameCreate(from, to) => if c.renaming.Some? { CopyIsConsistent(c.renaming.value); }
    case _ =>
  }

  lemma SaneKeeps(row: Device, s: Saved)
    requires Consistent(row) && Sane(s)
    ensures Consistent(Save(row, s.local, s.columns))
  {
  }

  lemma CopyIsConsistent(d: Device)
    requires Consistent(d)
    ensures Consistent(RenamedDevice(d))
  {
  }

  /** What the side that owns a column has written last: the worker for its columns, the views for theirs. */
  function Owner(c: Schedule, column: Column): Device { if column in WORKER_ONLY then c.byWorker else c.byWeb }

  predicate OwnerSaves(c: Schedule, m: Micro, column: Column) {
    Writes(if column in WORKER_ONLY then WorkerSave(c, m) else ViewSave(c, m), column)
  }

  /** The last rename put an older value in the place of what the column's owner had written, and the owner has not
      written it since. */
  predicate Behind(c: Schedule, ms: seq<Micro>, column: Column) {
    if ms == [] then false
    else
      var before, m := DoAll(c, ms[..|ms| - 1]), ms[|ms| - 1];
      if OwnerSaves(before, m, column) then false
      else if Swaps(before, m) then !Same(RenamedDevice(before.renaming.value), Owner(before, column), column)
      else Behind(c, ms[..|ms| - 1], column)
  }

  lemma ColumnStep(c: Schedule, m: Micro, column: Column)
    requires Orderly(c) && column in WORKER_ONLY + WEB_ONLY
    ensures var c' := Do(c, m);
            Same(c'.row, Owner(c', column), column) <==>
              if OwnerSaves(c, m, column) then true
              else if Swaps(c, m) then Same(RenamedDevice(c.renaming.value), Owner(c, column), column)
              else Same(c.row, Owner(c, column), column)
  {
    hide Do, Save, Same, Orderly, Sane, RenamedDevice, WorkerSave, ViewSave, Swaps, Write;
    StepWrites(c, m);
    OwnColumns(c, m, column);
    if Swaps(c, m) {
      NoWrite(Owner(c, column));
    } else if column in WORKER_ONLY {
      OneWrites(c.row, c.byWorker, WorkerSave(c, m), ViewSave(c, m), column);
    } else {
      OneWrites(c.row, c.byWeb, ViewSave(c, m), WorkerSave(c, m), column);
    }
  }

  /** Of a row and its owner's record, when one of them saves and the other side leaves the column alone. */
  lemma OneWrites(row: Device, own: Device, mine: Option<Saved>, others: Option<Saved>, column: Column)
    requires (mine.None? || others.None?) && !Writes(others, column)
    ensures Write(Write(row, mine), others) == Write(Write(row, others), mine)
    ensures Same(Write(Write(row, mine), others), Write(own, mine), column) <==>
              Writes(mine, column) || Same(row, own, column)
  {
  }

  lemma OwnColumns(c: Schedule, m: Micro, column: Column)
    requires Orderly(c)
    ensures column in WORKER_ONLY ==> !Writes(ViewSave(c, m), column)
    ensures column in WEB_ONLY ==> !Writes(WorkerSave(c, m), column) && column !in WORKER_ONLY
  {
  }

  lemma NoWrite(d: Device)
    ensures Write(d, None) == d
  {
  }

  lemma WriteBoth(row: Device, own: Device, s: Option<Saved>, column: Column)
    ensures if Writes(s, column) then Same(Write(row, s), Write(own, s), column)
            else (Same(Write(row, s), own, column) <==> Same(row, own, column)) &&
                 (Same(Write(row, s), Write(own, s), column) <==> Same(row, own, column))
  {
  }

  /** In every interleaving of message handlers with web requests, at every instant: the alert and its clock are
      consistent, and a column with one writer holds that writer's last write, if and only if the last rename did not
      put an older value in its place or the writer has written it since. */
  lemma {:induction false} EverySchedule(row: Device, commands: seq<Command>, nextPk: nat, ms: seq<Micro>,
                                         column: Column)
    requires Consistent(row) && column in WORKER_ONLY + WEB_ONLY
    ensures var c0 := Fresh(row, commands, nextPk);
            var c := DoAll(c0, ms);
            Orderly(c) && (Same(c.row, Owner(c, column), column) <==> !Behind(c0, ms, column))
  {
    hide Do, Save, Consistent, Same, OwnerSaves, Swaps, Sane;
    var c0 := Fresh(row, commands, nextPk);
    if ms == [] {
      SameIsEqual(row, row, row, column);
    } else {
      var c := DoAll(c0, ms[..|ms| - 1]);
      EverySchedule(row, commands, nextPk, ms[..|ms| - 1], column);
      OrderlyStep(c, ms[|ms| - 1]);
      ColumnStep(c, ms[|ms| - 1], column);
    }
  }

  // -------------------------------------------------------------------- a rename

  predicate IsRename(m: Micro) { m.RenameLoad? || m.RenameCreate? }

  /** The device object whose save wrote the column last during `ms`. */
  function SavedDuring(c: Schedule, ms: seq<Micro>, column: Column): Option<Device> {
    if ms == [] then None
    else
      var before, m := DoAll(c, ms[..|ms| - 1]), ms[|ms| - 1];
      var worker, view := WorkerSave(before, m), ViewSave(before, m);
      if Writes(worker, column) then Some(worker.value.local)
      else if Writes(view, column) then Some(view.value.local)
      else SavedDuring(c, ms[..|ms| - 1], column)
  }

  lemma {:induction false} RowIsSaved(c: Schedule, ms: seq<Micro>, column: Column)
    requires forall i :: 0 <= i < |ms| ==> !IsRename(ms[i])
    ensures var saved := SavedDuring(c, ms, column);
            Same(DoAll(c, ms).row, if saved.Some? then saved.value else c.row, column)
    ensures DoAll(c, ms).renaming == c.renaming
  {
    hide Do, Save, Same, WorkerSave, ViewSave;
    if ms == [] {
      SameIsEqual(c.row, c.row, c.row, column);
    } else {
      var before, m := DoAll(c, ms[..|ms| - 1]), ms[|ms| - 1];
      RowIsSaved(c, ms[..|ms| - 1], column);
      StepWrites(before, m);
      KeepsLoaded(before, m);
      var s := if WorkerSave(before, m).Some? then WorkerSave(before, m) else ViewSave(before, m);
      if s.Some? {
        SaveSame(before.row, before.row, s.value, column);
        SameIsEqual(DoAll(c, ms).row, before.row,
                    if SavedDuring(c, ms, column).Some? then SavedDuring(c, ms, column).value else c.row, column);
      }
    }
  }

  lemma KeepsLoaded(c: Schedule, m: Micro)
    requires !IsRename(m)
    ensures Do(c, m).renaming == c.renaming && !Swaps(c, m)
  {
  }

  /** The columns a rename does not copy. */
  const RESET: set<Column> := {LocationType, DiagCapable}

  /** A rename loses what a column holds exactly when some request or message saved another value into it after the view
      had loaded the device; the columns it does not copy it loses unless they hold their defaults. */
  lemma {:induction false} RenameLosesExactly(c: Schedule, ms: seq<Micro>, from: Id, to: Id, column: Column)
    requires c.renaming.None? && forall i :: 0 <= i < |ms| ==> !IsRename(ms[i])
    ensures var loaded := Do(c, RenameLoad);
            var before := DoAll(loaded, ms);
            var after := Do(before, RenameCreate(from, to));
            var saved := SavedDuring(loaded, ms, column);
            Same(after.row, before.row, column) <==>
              if column in RESET then Same(RenamedDevice(before.row), before.row, column)
              else saved.None? || Same(saved.value, c.row, column)
  {
    hide DoAll, SavedDuring, Same;
    var loaded := Do(c, RenameLoad);
    var before := DoAll(loaded, ms);
    var saved := SavedDuring(loaded, ms, column);
    RowIsSaved(loaded, ms, column);
    Copied(c.row, before.row, column);
    SameIsEqual(RenamedDevice(c.row), c.row, before.row, column);
    SameIsEqual(before.row, if saved.Some? then saved.value else c.row, c.row, column);
    SameIsEqual(c.row, before.row, before.row, column);
    SameIsEqual(RenamedDevice(c.row), RenamedDevice(before.row), before.row, column);
  }

  lemma Copied(d: Device, e: Device, column: Column)
    ensures if column in RESET then Same(RenamedDevice(d), RenamedDevice(e), column)
            else Same(RenamedDevice(d), d, column)
  {
  }

  /** The view loads a healthy device; before it creates the copy the device reports a warning, which is saved. The
      renamed device is healthy again. */
  lemma RenameCanLose(tables: Session, from: Id, to: Id)
    ensures var report := Event(10, true, from, StatusReport(LWarning, Some("hot")));
            var row := FreshDevice("node");
            var warned := DoAll(Fresh(row, [], 0), [RenameLoad, Load(tables, false, report), WorkerStep]);
            var renamed := Do(warned, RenameCreate(from, to));
            && warned.row.alert == Alert(Warning, "hot") && renamed.row.alert == NO_ALERT
            && renamed.byWorker.alert == Alert(Warning, "hot") && renamed.todo == []
  {
    hide Save, DoAll;
    var report := Event(10, true, from, StatusReport(LWarning, Some("hot")));
    var row := FreshDevice("node");
    var ms := [RenameLoad, Load(tables, false, report), WorkerStep];
    var c0 := Fresh(row, [], 0);
    ThreeSteps(c0, ms[0], ms[1], ms[2]);
    var c2 := Do(Do(c0, ms[0]), ms[1]);
    var d := row.(alert := Alert(Warning, "hot"), alertUpdatedAt := Some(10), lastSeen := Some(10));
    assert c2.todo == [SaveColumns(Saved(d, {AlertPair, AlertUpdatedAt, LastSeen}))];
    ReportColumns(row, d);
  }

  lemma {:induction false} ThreeSteps(c: Schedule, a: Micro, b: Micro, d: Micro)
    ensures DoAll(c, [a, b, d]) == Do(Do(Do(c, a), b), d)
  {
    hide Do, DoAll;
    DoOne(c, a);
    DoMore(c, [a], [b]);
    DoOne(Do(c, a), b);
    DoMore(c, [a] + [b], [d]);
    DoOne(Do(Do(c, a), b), d);
    assert [a, b, d] == [a] + [b] + [d];
  }

  // ------------------------------------------------------- a handler undisturbed

  /** The worker has performed its operations in order, up to those still to do, and nothing else. */
  predicate Progressed(c: Schedule, row: Device, tasks: seq<Task>) {
    var done := |tasks| - |c.todo|;
    done >= 0 && c.todo == tasks[done..] && c.byWorker == SaveAll(row, SavesIn(tasks[..done]))
  }

  lemma ProgressStarts(c: Schedule, load: Micro)
    requires load.Load? && IsMessage(load.e.action) && c.todo == [] && c.byWorker == c.row
    ensures Progressed(Do(c, load), c.row,
                       TasksOf(load.tables.(device := c.row, commands := c.commands), load.created, load.e))
  {
  }

  lemma ProgressStep(c: Schedule, m: Micro, row: Device, tasks: seq<Task>)
    requires !m.Load? && !m.RenameCreate? && Progressed(c, row, tasks)
    ensures Progressed(Do(c, m), row, tasks)
  {
    hide Save, OnRows, SavesIn, SaveAll;
    if m.WorkerStep? && c.todo != [] { WorkerProgresses(c, row, tasks); }
  }

  lemma WorkerProgresses(c: Schedule, row: Device, tasks: seq<Task>)
    requires c.todo != [] && Progressed(c, row, tasks)
    ensures Progressed(Do(c, WorkerStep), row, tasks)
  {
    hide Save, OnRows, SavesIn, SaveAll;
    var done := |tasks| - |c.todo|;
    assert c.todo[0] == tasks[done] && c.todo[1..] == tasks[done + 1..];
    assert tasks[..done + 1] == tasks[..done] + [tasks[done]];
    SavesInAppend(tasks[..done], [tasks[done]]);
    OneTask([], 0, tasks[done]);
    if tasks[done].SaveColumns? {
      SaveLast(row, SavesIn(tasks[..done]), tasks[done].saved);
    } else {
      assert SavesIn(tasks[..done]) + [] == SavesIn(tasks[..done]);
    }
  }

  lemma {:induction false} WorkerProgress(c: Schedule, load: Micro, ms: seq<Micro>)
    requires c.todo == [] && c.byWorker == c.row
    requires load.Load? && IsMessage(load.e.action)
    requires forall i :: 0 <= i < |ms| ==> !ms[i].Load? && !ms[i].RenameCreate?
    ensures Progressed(DoAll(c, [load] + ms), c.row,
                       TasksOf(load.tables.(device := c.row, commands := c.commands), load.created, load.e))
  {
    hide Do, TasksOf, Progressed;
    if ms == [] {
      assert [load] + ms == [load];
      DoOne(c, load);
      ProgressStarts(c, load);
    } else {
      var front := ms[..|ms| - 1];
      assert ([load] + ms)[..|ms|] == [load] + front;
      WorkerProgress(c, load, front);
      ProgressStep(DoAll(c, [load] + front), ms[|ms| - 1], c.row,
                   TasksOf(load.tables.(device := c.row, commands := c.commands), load.created, load.e));
    }
  }

  predicate NoSwaps(ms: seq<Micro>) { forall i :: 0 <= i < |ms| ==> !ms[i].RenameCreate? }

  lemma {:induction false} NotBehind(c: Schedule, ms: seq<Micro>, column: Column)
    requires NoSwaps(ms)
    ensures !Behind(c, ms, column)
  {
    hide Do, DoAll, Same, OwnerSaves;
    if ms != [] { NotBehind(c, ms[..|ms| - 1], column); }
  }

  /** A handler interleaved with any web requests but a rename leaves, in the columns only the worker writes, exactly
      what it would have left undisturbed from the row it loaded; the web's own columns keep the web's last write. */
  lemma {:induction false} HandlerSurvivesInterleaving(row: Device, commands: seq<Command>, nextPk: nat, load: Micro,
                                                       ms: seq<Micro>, column: Column)
    requires Consistent(row) && column in WORKER_ONLY + WEB_ONLY
    requires load.Load? && IsMessage(load.e.action) && forall i :: 0 <= i < |ms| ==> !ms[i].Load?
    ensures var c := DoAll(Fresh(row, commands, nextPk), [load] + ms);
            var x := load.tables.(device := row, commands := commands);
            NoSwaps(ms) && c.todo == [] ==>
              Same(c.row, if column in WORKER_ONLY then Handle(x, load.created, load.e).device else c.byWeb, column)
  {
    hide DoAll, Save, TasksOf, Consistent, Handle, SavesIn, SaveAll, Same, Behind;
    var x := load.tables.(device := row, commands := commands);
    if NoSwaps(ms) {
      EverySchedule(row, commands, nextPk, [load] + ms, column);
      NotBehind(Fresh(row, commands, nextPk), [load] + ms, column);
      WorkerProgress(Fresh(row, commands, nextPk), load, ms);
      TasksAreComplete(x, load.created, load.e);
      var tasks := TasksOf(x, load.created, load.e);
      assert tasks[..|tasks|] == tasks;
    }
  }

  /** With nothing left to do and no message loaded, the worker's columns stay as they are. */
  lemma {:induction false} WorkerRests(c: Schedule, ms: seq<Micro>, column: Column)
    requires Orderly(c) && c.todo == [] && c.renaming.None? && column in WORKER_ONLY
    requires forall i :: 0 <= i < |ms| ==> !ms[i].Load? && !IsRename(ms[i])
    ensures var c' := DoAll(c, ms);
            Orderly(c') && c'.todo == [] && c'.renaming.None? && Same(c'.row, c.row, column)
  {
    hide Do, Same, Orderly;
    if ms == [] {
      SameIsEqual(c.row, c.row, c.row, column);
    } else {
      var before, m := DoAll(c, ms[..|ms| - 1]), ms[|ms| - 1];
      WorkerRests(c, ms[..|ms| - 1], column);
      RestStep(before, m, column);
      SameIsEqual(DoAll(c, ms).row, before.row, c.row, column);
    }
  }

  lemma RestStep(c: Schedule, m: Micro, column: Column)
    requires Orderly(c) && c.todo == [] && c.renaming.None? && column in WORKER_ONLY && !m.Load? && !IsRename(m)
    ensures var c' := Do(c, m);
            Orderly(c') && c'.todo == [] && c'.renaming.None? && Same(c'.row, c.row, column)
  {
    hide Do, Save, Same, Orderly, Sane, WorkerSave, ViewSave, Write, Writes;
    OrderlyStep(c, m);
    StepWrites(c, m);
    OwnColumns(c, m, column);
    StillIdle(c, m);
    NoWrite(c.row);
    SameIsEqual(c.row, c.row, c.row, column);
    WriteBoth(c.row, c.row, ViewSave(c, m), column);
  }

  lemma StillIdle(c: Schedule, m: Micro)
    requires c.todo == [] && c.renaming.None? && !m.Load? && !IsRename(m)
    ensures Do(c, m).todo == [] && Do(c, m).renaming.None? && WorkerSave(c, m).None? && !Swaps(c, m)
  {
  }

  /** Once the rename view holds the device, nothing a message saves before the copy takes the row's place reaches the
      copy, and what it has still to save afterwards does not either. */
  lemma {:induction false} CopyStays(c: Schedule, ms: seq<Micro>, from: Id, to: Id, rest: seq<Micro>, column: Column)
    requires Orderly(c) && c.renaming.Some? && column in WORKER_ONLY
    requires forall i :: 0 <= i < |ms| ==> !IsRename(ms[i])
    requires forall i :: 0 <= i < |rest| ==> !rest[i].Load? && !IsRename(rest[i])
    ensures var c' := DoAll(Do(DoAll(c, ms), RenameCreate(from, to)), rest);
            Same(c'.row, RenamedDevice(c.renaming.value), column) && c'.todo == []
  {
    hide DoAll, Orderly, Same;
    RowIsSaved(c, ms, column);
    OrderlyAll(c, ms);
    OrderlyStep(DoAll(c, ms), RenameCreate(from, to));
    WorkerRests(Do(DoAll(c, ms), RenameCreate(from, to)), rest, column);
  }

  lemma {:induction false} OrderlyAll(c: Schedule, ms: seq<Micro>)
    requires Orderly(c)
    ensures Orderly(DoAll(c, ms))
  {
    hide Do, Orderly;
    if ms != [] {
      OrderlyAll(c, ms[..|ms| - 1]);
      OrderlyStep(DoAll(c, ms[..|ms| - 1]), ms[|ms| - 1]);
    }
  }

  /** A rename that passes over a message: a column only the worker writes ends as the handler would have left it
      exactly when what had been saved of it by the time the view loaded the device is what the handler leaves; the
      diagnostics flag, which the copy does not carry, when the handler leaves it off. */
  lemma {:induction false} HandlerThroughRename(row: Device, commands: seq<Command>, nextPk: nat, load: Micro,
                                                a: seq<Micro>, b: seq<Micro>, from: Id, to: Id, rest: seq<Micro>,
                                                column: Column)
    requires Consistent(row) && column in WORKER_ONLY && load.Load? && IsMessage(load.e.action)
    requires forall i :: 0 <= i < |a| ==> !a[i].Load? && !IsRename(a[i])
    requires forall i :: 0 <= i < |b| ==> !b[i].Load? && !IsRename(b[i])
    requires forall i :: 0 <= i < |rest| ==> !rest[i].Load? && !IsRename(rest[i])
    ensures var x := load.tables.(device := row, commands := commands);
            var tasks, final := TasksOf(x, load.created, load.e), Handle(x, load.created, load.e).device;
            var partial := DoAll(Fresh(row, commands, nextPk), [load] + a);
            var c := DoAll(Do(DoAll(Do(partial, RenameLoad), b), RenameCreate(from, to)), rest);
            && |partial.todo| <= |tasks|
            && (Same(c.row, final, column) <==>
                  if column == DiagCapable then !final.diagCapable
                  else Same(SaveAll(row, SavesIn(tasks[..|tasks| - |partial.todo|])), final, column))
  {
    hide DoAll, Save, TasksOf, Handle, SavesIn, SaveAll, Same, Orderly, RenamedDevice;
    var x := load.tables.(device := row, commands := commands);
    var tasks, final := TasksOf(x, load.created, load.e), Handle(x, load.created, load.e).device;
    var partial := DoAll(Fresh(row, commands, nextPk), [load] + a);
    PartlySaved(row, commands, nextPk, load, a, column);
    var held := Do(partial, RenameLoad);
    OrderlyStep(partial, RenameLoad);
    CopyStays(held, b, from, to, rest, column);
    var c := DoAll(Do(DoAll(held, b), RenameCreate(from, to)), rest);
    SameIsEqual(c.row, RenamedDevice(partial.row), final, column);
    Copied(partial.row, partial.row, column);
    if column == DiagCapable {
      FlagIsOff(partial.row, final);
    } else {
      SameIsEqual(RenamedDevice(partial.row), partial.row, final, column);
      SameIsEqual(partial.row, partial.byWorker, final, column);
    }
  }

  /** The row while no rename is under way: in the worker's columns, what the worker has saved so far. */
  lemma {:induction false} PartlySaved(row: Device, commands: seq<Command>, nextPk: nat, load: Micro, a: seq<Micro>,
                                       column: Column)
    requires Consistent(row) && column in WORKER_ONLY && load.Load? && IsMessage(load.e.action)
    requires forall i :: 0 <= i < |a| ==> !a[i].Load? && !IsRename(a[i])
    ensures var c := DoAll(Fresh(row, commands, nextPk), [load] + a);
            && Orderly(c) && c.renaming.None? && Same(c.row, c.byWorker, column)
            && Progressed(c, row, TasksOf(load.tables.(device := row, commands := commands), load.created, load.e))
  {
    hide DoAll, TasksOf, Consistent, Same, Behind, Orderly, Progressed;
    var c0 := Fresh(row, commands, nextPk);
    EverySchedule(row, commands, nextPk, [load] + a, column);
    NotBehind(c0, [load] + a, column);
    NotRenaming(c0, [load] + a);
    WorkerProgress(c0, load, a);
  }

  lemma FlagIsOff(d: Device, final: Device)
    ensures Same(RenamedDevice(d), final, DiagCapable) <==> !final.diagCapable
  {
  }

  lemma {:induction false} NotRenaming(c: Schedule, ms: seq<Micro>)
    requires c.renaming.None? && forall i :: 0 <= i < |ms| ==> !IsRename(ms[i])
    ensures DoAll(c, ms).renaming.None?
  {
    hide Do;
    if ms != [] {
      NotRenaming(c, ms[..|ms| - 1]);
      KeepsLoaded(DoAll(c, ms[..|ms| - 1]), ms[|ms| - 1]);
    }
  }

  // ----------------------------------------------------- a merge and `last_seen`

  /** The `last_seen` the worker saved last during `ms`, if it saved any. */
  function HeardDuring(c: Schedule, ms: seq<Micro>): Option<Option<int>> {
    if ms == [] then None
    else
      var before, m := DoAll(c, ms[..|ms| - 1]), ms[|ms| - 1];
      var s := WorkerSave(before, m);
      if Writes(s, LastSeen) then Some(s.value.local.lastSeen)
      else HeardDuring(c, ms[..|ms| - 1])
  }

  /** A copy took the row's place during `ms`. */
  predicate RenamedDuring(c: Schedule, ms: seq<Micro>) {
    ms != [] && (Swaps(DoAll(c, ms[..|ms| - 1]), ms[|ms| - 1]) || RenamedDuring(c, ms[..|ms| - 1]))
  }

  predicate LeavesMerge(m: Micro) { !m.MergeLoad? && !m.MergeSave? }

  lemma {:induction false} SeenDuring(c: Schedule, ms: seq<Micro>)
    requires forall i :: 0 <= i < |ms| ==> LeavesMerge(ms[i])
    requires forall i :: 0 <= i < |c.request| ==> WebTask(c.request[i])
    ensures var c' := DoAll(c, ms);
            && (forall i :: 0 <= i < |c'.request| ==> WebTask(c'.request[i]))
            && if RenamedDuring(c, ms) then c'.merging.Idle?
               else c'.merging == c.merging &&
                    c'.row.lastSeen == if HeardDuring(c, ms).Some? then HeardDuring(c, ms).value else c.row.lastSeen
  {
    hide TasksOf, OnRows, Do, Save, WorkerSave;
    if ms != [] {
      var before, m := DoAll(c, ms[..|ms| - 1]), ms[|ms| - 1];
      SeenDuring(c, ms[..|ms| - 1]);
      SeenStep(before, m);
    }
  }

  lemma SeenStep(c: Schedule, m: Micro)
    requires LeavesMerge(m) && forall i :: 0 <= i < |c.request| ==> WebTask(c.request[i])
    ensures Do(c, m).merging == if Swaps(c, m) then Idle else c.merging
    ensures !Swaps(c, m) ==>
              Do(c, m).row.lastSeen ==
              if Writes(WorkerSave(c, m), LastSeen)
              then WorkerSave(c, m).value.local.lastSeen else c.row.lastSeen
    ensures forall i :: 0 <= i < |Do(c, m).request| ==> WebTask(Do(c, m).request[i])
  {
    hide TasksOf, OnRows;
    if m.WebStep? && c.request != [] { assert WebTask(c.request[0]); }
  }

  /** The merge view writes back a `last_seen` older than the row's exactly when the source's beat the target's at the
      time it loaded them, and the worker has heard from the target since, later than that, as the same device. */
  lemma {:induction false} MergeLosesExactly(c: Schedule, source: Option<int>, ms: seq<Micro>)
    requires c.merging.Idle? && forall i :: 0 <= i < |c.request| ==> WebTask(c.request[i])
    requires forall i :: 0 <= i < |ms| ==> LeavesMerge(ms[i])
    ensures var loaded := Do(c, MergeLoad(source));
            var before := DoAll(loaded, ms);
            var after := Do(before, MergeSave);
            var heard := HeardDuring(loaded, ms);
            Beats(before.row.lastSeen, after.row.lastSeen) <==>
              Beats(source, c.row.lastSeen) && !RenamedDuring(loaded, ms) && heard.Some? && Beats(heard.value, source)
  {
    hide DoAll, HeardDuring, RenamedDuring;
    SeenDuring(Do(c, MergeLoad(source)), ms);
  }

  /** The source was heard from at 5 and the target at 0 when the view loaded them; the target reports at 10 before the
      view saves, and its row goes back to 5. */
  lemma MergeCanLose(tables: Session, row: Device)
    requires row.lastSeen == Some(0)
    ensures var report := Event(10, true, tables.id, CommandList);
            var heard := DoAll(Fresh(row, [], 0), [MergeLoad(Some(5)), Load(tables, false, report), WorkerStep]);
            heard.row.lastSeen == Some(10) && Do(heard, MergeSave).row.lastSeen == Some(5)
  {
    hide Save, DoAll;
    var report := Event(10, true, tables.id, CommandList);
    var c0 := Fresh(row, [], 0);
    ThreeSteps(c0, MergeLoad(Some(5)), Load(tables, false, report), WorkerStep);
    var c2 := Do(Do(c0, MergeLoad(Some(5))), Load(tables, false, report));
    assert c2.todo == [SaveColumns(Saved(row.(lastSeen := Some(10)), {LastSeen}))];
    SeenIsSave(row, row.(lastSeen := Some(10)));
  }
}
