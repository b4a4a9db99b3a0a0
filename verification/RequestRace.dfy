/** A capabilities request made while a message of the same device is being handled: when the two lose it. */
module RequestRace {
  import opened Domain
  import opened Protocol
  import opened Invariants
  import opened AlertClock
  import opened Saves
  import opened Interleaving

  // ------------------------------------------------------- programs and the timer

  /** An operation that touches neither the request timer nor any request_capabilities row. */
  predicate Neutral(t: Task) {
    match t
    case SaveColumns(saved) => CapabilitiesRequestedAt !in saved.columns
    case SettleRows(q, status, _) => !q.ByAction? && status != Pending
    case _ => false
  }

  /** An operation that may start the timer but not stop it, and leaves the request rows alone. */
  predicate Starting(t: Task) {
    Neutral(t) || (t.SaveColumns? && t.saved.local.capabilitiesRequestedAt.Some?)
  }

  predicate StopsTimer(t: Task) {
    t.SaveColumns? && CapabilitiesRequestedAt in t.saved.columns && t.saved.local.capabilitiesRequestedAt.None?
  }

  predicate Resolves(t: Task, id: Id) {
    t.SettleRows? && t.selection == ByAction(id, "request_capabilities") && t.status != Pending
  }

  /** A program that, at position `p`, stops the timer and then resolves the pending requests. */
  ghost predicate StopsAt(tasks: seq<Task>, id: Id, p: nat) {
    && p + 1 < |tasks| && StopsTimer(tasks[p]) && Resolves(tasks[p + 1], id)
    && forall i :: 0 <= i < |tasks| && i != p && i != p + 1 ==> Neutral(tasks[i])
  }

  ghost predicate NeverStops(tasks: seq<Task>) { forall i :: 0 <= i < |tasks| ==> Starting(tasks[i]) }

  /** The message ends the wait for capabilities, judged by the row it loads. */
  predicate Ends(row: Device, created: bool, e: Event) {
    e.action.Capabilities? || TimeoutFires(row, created, e)
  }

  function StopPosition(e: Event): nat { if e.action.Capabilities? then 0 else 2 }

  lemma CapabilitiesShape(x: Session, created: bool, e: Event)
    requires e.action.Capabilities?
    ensures StopsAt(TasksOf(x, created, e), x.id, 0)
  {
    hide OnCapabilities;
    CapabilitiesTimer(x, e.now, e.up, e.action.report);
  }

  lemma CapabilitiesTimer(x: Session, now: int, up: bool, r: CapabilitiesReport)
    ensures OnCapabilities(x, now, up, r).device.capabilitiesRequestedAt == None
  {
  }

  lemma ReceiveTimer(x: Session, created: bool, now: int, up: bool)
    ensures var saves := ReceiveSaves(x, created, now, up);
            var fires := !Wakes(x.device, created, now) && CapabilitiesOverdue(x.device, now);
            && 1 <= |saves| <= 2 && CapabilitiesRequestedAt !in saves[0].columns
            && (fires ==> |saves| == 2)
            && (|saves| == 2 ==>
                  CapabilitiesRequestedAt in saves[1].columns &&
                  (fires <==> saves[1].local.capabilitiesRequestedAt.None?))
  {
    hide Receive, Reconcile;
    ReceiveColumns(x, created, now, up);
  }

  lemma IngestTimer(x: Session, now: int, up: bool, data: Payload)
    ensures forall i :: 0 <= i < |IngestSaves(x, now, up, data)| ==>
              CapabilitiesRequestedAt !in IngestSaves(x, now, up, data)[i].columns
  {
  }

  lemma SensorsShape(x: Session, created: bool, e: Event)
    requires e.action.Sensors?
    ensures if TimeoutFires(x.device, created, e) then StopsAt(TasksOf(x, created, e), x.id, 2)
            else NeverStops(TasksOf(x, created, e))
  {
    hide TasksOf, Receive, ReceiveSaves, IngestSaves, Reconcile, OnSensors, CapabilitiesOverdue, Wakes, SaveTasks;
    var y := Receive(x, created, e.now, e.up);
    var a := ReceiveSaves(x, created, e.now, e.up);
    var b := if y.device.isApproved then IngestSaves(y, e.now, e.up, e.action.data) else [];
    ReceiveTimer(x, created, e.now, e.up);
    IngestTimer(y, e.now, e.up, e.action.data);
    SensorTasks(x, created, e, a, b);
    NeutralSaves(b);
    var tasks := TasksOf(x, created, e);
    var front := |tasks| - |b|;
    assert forall i :: front <= i < |tasks| ==> tasks[i] == SaveTasks(b)[i - front];
  }

  lemma NeutralSaves(saves: seq<Saved>)
    requires forall i :: 0 <= i < |saves| ==> CapabilitiesRequestedAt !in saves[i].columns
    ensures |SaveTasks(saves)| == |saves| && forall i :: 0 <= i < |saves| ==> Neutral(SaveTasks(saves)[i])
  {
  }

  lemma SensorTasks(x: Session, created: bool, e: Event, a: seq<Saved>, b: seq<Saved>)
    requires e.action.Sensors? && a == ReceiveSaves(x, created, e.now, e.up) && 1 <= |a| <= 2
    requires SavesOf(x, created, e) == a + b
    ensures var r := Reconcile(Heard(x, e.now), e.now).device;
            TasksOf(x, created, e) ==
            [SaveColumns(a[0]), SettleRows(OtaOlderThan(x.id, e.now - r.OtaTimeout()), TimedOut, e.now)] +
            (if |a| == 2 then [SaveColumns(a[1])] else []) +
            (if TimeoutFires(x.device, created, e)
             then [SettleRows(ByAction(x.id, "request_capabilities"), TimedOut, e.now)] else []) +
            SaveTasks(b)
  {
    hide SavesOf, Receive, ReceiveSaves, IngestSaves, Reconcile, OnSensors, TimeoutFires;
    var saves := SaveTasks(a + b);
    assert saves[..1] == [SaveColumns(a[0])] && saves[|a|..] == SaveTasks(b);
    assert saves[1..|a|] == if |a| == 2 then [SaveColumns(a[1])] else [];
  }

  // ------------------------------------------------ what a worker does to the timer

  function Work(c: Schedule, k: nat): Schedule {
    if k == 0 then c else Do(Work(c, k - 1), WorkerStep)
  }

  lemma {:induction false} WorkIs(c: Schedule, k: nat)
    ensures DoAll(c, seq(k, _ => WorkerStep)) == Work(c, k)
  {
    hide Do;
    if k > 0 {
      var ms := seq(k, _ => WorkerStep);
      assert ms[..k - 1] == seq(k - 1, _ => WorkerStep);
      WorkIs(c, k - 1);
    }
  }

  function TimerOn(c: Schedule): bool { c.row.capabilitiesRequestedAt.Some? }

  lemma {:induction false} SettledWaiting(rows: seq<Command>, q: Selection, status: Status, now: int, id: Id)
    requires status != Pending
    ensures !q.ByAction? ==> (WaitingIn(Settle(rows, q, status, now), id) <==> WaitingIn(rows, id))
    ensures q == ByAction(id, "request_capabilities") ==> !WaitingIn(Settle(rows, q, status, now), id)
  {
    var rows' := Settle(rows, q, status, now);
    if !q.ByAction? {
      forall i | 0 <= i < |rows|
        ensures IsPending(rows'[i], id, "request_capabilities") <==> IsPending(rows[i], id, "request_capabilities")
      {
      }
    }
  }

  lemma TaskEffect(c: Schedule, t: Task, id: Id)
    requires Neutral(t) || StopsTimer(t) || Resolves(t, id) || Starting(t)
    ensures var c' := Worked(c, t);
            && TimerOn(c') == (if StopsTimer(t) then false
                               else if t.SaveColumns? && CapabilitiesRequestedAt in t.saved.columns then true
                               else TimerOn(c))
            && (WaitingIn(c'.commands, id) <==> !Resolves(t, id) && WaitingIn(c.commands, id))
  {
    hide Settle, WaitingIn;
    if t.SettleRows? { SettledWaiting(c.commands, t.selection, t.status, t.now, id); }
  }

  /** Working off `k` operations of a stopping program, from operation `j` on. */
  lemma {:induction false} StoppingSpan(c: Schedule, tasks: seq<Task>, id: Id, p: nat, j: nat, k: nat)
    requires StopsAt(tasks, id, p) && c.todo == (if j <= |tasks| then tasks[j..] else [])
    ensures var c' := Work(c, k);
            && c'.todo == (if j + k <= |tasks| then tasks[j + k..] else [])
            && TimerOn(c') == (TimerOn(c) && !(j <= p < j + k))
            && (WaitingIn(c'.commands, id) <==> WaitingIn(c.commands, id) && !(j <= p + 1 < j + k))
  {
    hide WaitingIn, OnRow, OnRows, Neutral, StopsTimer, Resolves;
    if k > 0 {
      StoppingSpan(c, tasks, id, p, j, k - 1);
      var b := Work(c, k - 1);
      if b.todo != [] {
        var n := j + k - 1;
        assert b.todo[0] == tasks[n];
        assert n != p && n != p + 1 ==> Neutral(tasks[n]);
        TaskKinds(tasks[n], id);
        TaskEffect(b, tasks[n], id);
      }
    }
  }

  lemma TaskKinds(t: Task, id: Id)
    ensures Neutral(t) ==> !StopsTimer(t) && !Resolves(t, id) &&
                           !(t.SaveColumns? && CapabilitiesRequestedAt in t.saved.columns)
    ensures StopsTimer(t) ==> !Resolves(t, id)
    ensures Resolves(t, id) ==> !StopsTimer(t) && !t.SaveColumns?
    ensures Starting(t) ==> !StopsTimer(t) && !Resolves(t, id)
  {
  }

  lemma {:induction false} StartingSpan(c: Schedule, k: nat)
    requires NeverStops(c.todo)
    ensures NeverStops(Work(c, k).todo)
    ensures TimerOn(c) ==> TimerOn(Work(c, k))
  {
    hide OnRows, Starting;
    if k > 0 {
      StartingSpan(c, k - 1);
      var b := Work(c, k - 1);
      if b.todo != [] {
        assert Starting(b.todo[0]);
        if TimerOn(b) { TimerKept(b, b.todo[0]); }
      }
    }
  }

  lemma TimerKept(c: Schedule, t: Task)
    requires Starting(t) && TimerOn(c)
    ensures TimerOn(Worked(c, t))
  {
  }

  // ----------------------------------------------------- one request, one message

  /** The worker's micro-steps: the load, then `n` operations. */
  function Worker(load: Micro, n: nat): seq<Micro> { [load] + seq(n, _ => WorkerStep) }

  /** All interleavings of a message with a capabilities request of the same device: the view publishes after `v` of the
      worker's steps, saves the timer after `a` and creates its row after `b`. */
  function Woven(load: Micro, n: nat, id: Id, now: int, v: nat, a: nat, b: nat): seq<Micro>
    requires v <= a <= b <= n + 1
  {
    var w := Worker(load, n);
    w[..v] + [RequestView(id, now)] + w[v..a] + [WebStep] + w[a..b] + [WebStep] + w[b..]
  }

  /** The schedule between the pieces of a woven sequence. */
  function Span(c: Schedule, load: Micro, i: nat, j: nat): Schedule
    requires i <= j
  {
    if i == 0 && 0 < j then Work(Do(c, load), j - 1) else Work(c, j - i)
  }

  lemma {:induction false} SpanIs(c: Schedule, load: Micro, n: nat, i: nat, j: nat)
    requires i <= j <= n + 1
    ensures DoAll(c, Worker(load, n)[i..j]) == Span(c, load, i, j)
  {
    hide Do;
    var w := Worker(load, n);
    if i == 0 && 0 < j {
      assert w[0..j] == [load] + seq(j - 1, _ => WorkerStep);
      DoMore(c, [load], seq(j - 1, _ => WorkerStep));
      DoOne(c, load);
      WorkIs(Do(c, load), j - 1);
    } else {
      assert w[i..j] == seq(j - i, _ => WorkerStep);
      WorkIs(c, j - i);
    }
  }

  /** The whole interleaving, piece by piece. */
  function Pieces(c: Schedule, load: Micro, n: nat, id: Id, now: int, v: nat, a: nat, b: nat): Schedule
    requires v <= a <= b <= n + 1
  {
    var started := Do(Span(Do(Span(c, load, 0, v), RequestView(id, now)), load, v, a), WebStep);
    Span(Do(Span(started, load, a, b), WebStep), load, b, n + 1)
  }

  lemma {:induction false} WovenIs(c: Schedule, load: Micro, n: nat, id: Id, now: int, v: nat, a: nat, b: nat)
    requires v <= a <= b <= n + 1
    ensures DoAll(c, Woven(load, n, id, now, v, a, b)) == Pieces(c, load, n, id, now, v, a, b)
  {
    hide Do, Worker, Span, DoAll;
    WorkerLength(load, n);
    var w := Worker(load, n);
    var m1, m2 := [RequestView(id, now)], [WebStep];
    var s1 := Span(c, load, 0, v);
    SpanIs(c, load, n, 0, v);
    assert w[..v] == w[0..v] && w[b..] == w[b..n + 1];
    DoMore(c, w[..v], m1);
    DoOne(s1, m1[0]);
    var s2 := Do(s1, m1[0]);
    DoMore(c, w[..v] + m1, w[v..a]);
    SpanIs(s2, load, n, v, a);
    var s3 := Span(s2, load, v, a);
    DoMore(c, w[..v] + m1 + w[v..a], m2);
    DoOne(s3, WebStep);
    var s4 := Do(s3, WebStep);
    DoMore(c, w[..v] + m1 + w[v..a] + m2, w[a..b]);
    SpanIs(s4, load, n, a, b);
    var s5 := Span(s4, load, a, b);
    DoMore(c, w[..v] + m1 + w[v..a] + m2 + w[a..b], m2);
    DoOne(s5, WebStep);
    DoMore(c, w[..v] + m1 + w[v..a] + m2 + w[a..b] + m2, w[b..]);
    SpanIs(Do(s5, WebStep), load, n, b, n + 1);
  }

  lemma WorkerLength(load: Micro, n: nat)
    ensures |Worker(load, n)| == n + 1
  {
  }

  lemma {:induction false} WorkKeepsRequest(c: Schedule, k: nat)
    ensures Work(c, k).request == c.request && Work(c, k).nextPk == c.nextPk
  {
    hide OnRow, OnRows;
    if k > 0 { WorkKeepsRequest(c, k - 1); }
  }

  /** The worker has taken `k` of its steps; from the first on it works off `tasks`. */
  predicate Working(c: Schedule, tasks: seq<Task>, k: nat) {
    c.todo == if 0 < k <= |tasks| + 1 then tasks[k - 1..] else []
  }

  /** The row and the tables as the load finds them, if it has not happened yet. */
  predicate Finds(c: Schedule, load: Micro, tasks: seq<Task>) {
    load.Load? && IsMessage(load.e.action) &&
    tasks == TasksOf(load.tables.(device := c.row, commands := c.commands), load.created, load.e)
  }

  lemma StoppingPiece(c: Schedule, load: Micro, tasks: seq<Task>, id: Id, p: nat, i: nat, j: nat)
    requires i <= j && Working(c, tasks, i) && StopsAt(tasks, id, p)
    requires i == 0 && 0 < j ==> Finds(c, load, tasks)
    ensures var c' := Span(c, load, i, j);
            && Working(c', tasks, j)
            && c'.request == c.request && c'.nextPk == c.nextPk
            && TimerOn(c') == (TimerOn(c) && !(i <= p + 1 < j))
            && (WaitingIn(c'.commands, id) <==> WaitingIn(c.commands, id) && !(i <= p + 2 < j))
            && (j == 0 ==> c' == c)
  {
    hide StopsAt, TasksOf, WaitingIn, TimerOn, Do, Work, Finds;
    if i == 0 && 0 < j {
      Loads(c, load, tasks);
      var l := Do(c, load);
      assert tasks[0..] == tasks;
      StoppingSpan(l, tasks, id, p, 0, j - 1);
      WorkKeepsRequest(l, j - 1);
    } else if i > 0 {
      StoppingSpan(c, tasks, id, p, i - 1, j - i);
      WorkKeepsRequest(c, j - i);
    } else {
      NoWork(c);
    }
  }

  lemma {:induction false} NoWork(c: Schedule)
    ensures Work(c, 0) == c
  {
  }

  lemma Loads(c: Schedule, load: Micro, tasks: seq<Task>)
    requires c.todo == [] && Finds(c, load, tasks)
    ensures Do(c, load) == c.(todo := tasks) && TimerOn(Do(c, load)) == TimerOn(c)
  {
  }

  lemma StartingPiece(c: Schedule, load: Micro, tasks: seq<Task>, i: nat, j: nat)
    requires i <= j && (i > 0 ==> NeverStops(c.todo)) && (i == 0 ==> c.todo == []) && NeverStops(tasks)
    requires i == 0 && 0 < j ==> Finds(c, load, tasks)
    ensures var c' := Span(c, load, i, j);
            && (j > 0 ==> NeverStops(c'.todo)) && (j == 0 ==> c' == c)
            && c'.request == c.request && c'.nextPk == c.nextPk
            && (TimerOn(c) ==> TimerOn(c'))
  {
    hide TasksOf, TimerOn, Starting, Do, Work, Finds;
    if i == 0 && 0 < j {
      Loads(c, load, tasks);
      var l := Do(c, load);
      StartingSpan(l, j - 1);
      WorkKeepsRequest(l, j - 1);
    } else if i > 0 {
      StartingSpan(c, j - i);
      WorkKeepsRequest(c, j - i);
    } else {
      NoWork(c);
    }
  }

  /** The view's two operations, from a schedule in which both are still to come. */
  lemma StartsTimer(c: Schedule, row: Device, id: Id, now: int)
    requires c.request == [TimerSave(row, now), CreateRow(id, REQUEST_CAPABILITIES, now)]
    ensures var c' := Do(c, WebStep);
            && c' == c.(row := c'.row, byWeb := c'.byWeb, request := [CreateRow(id, REQUEST_CAPABILITIES, now)])
            && c'.row == c.row.(capabilitiesRequestedAt := Some(now)) && TimerOn(c')
  {
    hide Save, OnRows;
    RequestColumns(c.row, TimerSave(row, now).saved.local);
    assert [TimerSave(row, now), CreateRow(id, REQUEST_CAPABILITIES, now)][1..] ==
           [CreateRow(id, REQUEST_CAPABILITIES, now)];
    TimerRows(c.commands, c.nextPk, TimerSave(row, now));
  }

  lemma TimerRows(rows: seq<Command>, nextPk: nat, t: Task)
    requires t.SaveColumns?
    ensures OnRows(rows, nextPk, t) == rows
  {
  }

  lemma CreatesRow(c: Schedule, id: Id, now: int)
    requires c.request == [CreateRow(id, REQUEST_CAPABILITIES, now)]
    ensures var c' := Do(c, WebStep);
            && c'.row == c.row && c'.todo == c.todo
            && c'.commands == c.commands + [NewCommand(c.nextPk, id, REQUEST_CAPABILITIES, now)]
            && WaitingIn(c'.commands, id)
  {
    var rows := Do(c, WebStep).commands;
    assert IsPending(rows[|rows| - 1], id, "request_capabilities");
  }

  /** The program of the message, from the row its load finds. */
  ghost predicate Programmed(load: Micro, row: Device, tasks: seq<Task>) {
    load.Load? && (load.e.action.Sensors? || load.e.action.Capabilities?) &&
    if Ends(row, load.created, load.e) then StopsAt(tasks, load.tables.id, StopPosition(load.e)) else NeverStops(tasks)
  }

  lemma FoundProgram(c: Schedule, load: Micro, tasks: seq<Task>)
    requires Finds(c, load, tasks) && (load.e.action.Sensors? || load.e.action.Capabilities?)
    ensures Programmed(load, c.row, tasks)
  {
    hide TasksOf, StopsAt, NeverStops, TimeoutFires;
    var x := load.tables.(device := c.row, commands := c.commands);
    if load.e.action.Sensors? {
      SensorsShape(x, load.created, load.e);
    } else {
      CapabilitiesShape(x, load.created, load.e);
    }
  }

  /** In every interleaving of one message with one capabilities request of the same device, over any row and any
      command table, a request_capabilities command is left pending with the timer off exactly when the message ends
      the wait (an answer, or a timeout judged by the row it loaded), its save that stops the timer comes after the
      view's save that starts it, and its update of the pending commands comes before the view creates its row. */
  lemma {:induction false} RequestLostExactly(row: Device, commands: seq<Command>, nextPk: nat, load: Micro, n: nat,
                                              now: int, v: nat, a: nat, b: nat)
    requires load.Load? && (load.e.action.Sensors? || load.e.action.Capabilities?) && v <= a <= b <= n + 1
    requires DoAll(Fresh(row, commands, nextPk), Woven(load, n, load.tables.id, now, v, a, b)).todo == []
    ensures var c := DoAll(Fresh(row, commands, nextPk), Woven(load, n, load.tables.id, now, v, a, b));
            var found := if a == 0 then row.(capabilitiesRequestedAt := Some(now)) else row;
            var stop := StopPosition(load.e) + 1;
            !TimerOn(c) && WaitingIn(c.commands, load.tables.id) <==>
              Ends(found, load.created, load.e) && a <= stop && stop + 2 <= b
  {
    hide DoAll, Woven, Pieces, Ends;
    var id := load.tables.id;
    WovenIs(Fresh(row, commands, nextPk), load, n, id, now, v, a, b);
    var found := if a == 0 then row.(capabilitiesRequestedAt := Some(now)) else row;
    if Ends(found, load.created, load.e) {
      LostWhenStopped(row, commands, nextPk, load, n, now, v, a, b);
    } else {
      NotLostOtherwise(row, commands, nextPk, load, n, now, v, a, b);
    }
  }

  /** What the load finds: the view's timer save if that came first, and its row if that did too. */
  function FoundRow(row: Device, now: int, a: nat): Device {
    if a == 0 then row.(capabilitiesRequestedAt := Some(now)) else row
  }

  function FoundTasks(row: Device, commands: seq<Command>, nextPk: nat, load: Micro, now: int, a: nat,
                      b: nat): seq<Task>
    requires load.Load? && IsMessage(load.e.action)
  {
    var rows := if b == 0 then commands + [NewCommand(nextPk, load.tables.id, REQUEST_CAPABILITIES, now)] else commands;
    TasksOf(load.tables.(device := FoundRow(row, now, a), commands := rows), load.created, load.e)
  }

  /** The schedule just before the view creates its row. */
  function BeforeCreate(c: Schedule, load: Micro, id: Id, now: int, v: nat, a: nat, b: nat): Schedule
    requires v <= a <= b
  {
    Span(Do(Span(Do(Span(c, load, 0, v), RequestView(id, now)), load, v, a), WebStep), load, a, b)
  }

  lemma StoppedBeforeCreate(row: Device, commands: seq<Command>, nextPk: nat, load: Micro, tasks: seq<Task>, now: int,
                            v: nat, a: nat, b: nat)
    requires load.Load? && (load.e.action.Sensors? || load.e.action.Capabilities?) && v <= a <= b
    requires tasks == FoundTasks(row, commands, nextPk, load, now, a, b)
    requires StopsAt(tasks, load.tables.id, StopPosition(load.e))
    ensures var id := load.tables.id;
            var c := BeforeCreate(Fresh(row, commands, nextPk), load, id, now, v, a, b);
            && Working(c, tasks, b) && c.request == [CreateRow(id, REQUEST_CAPABILITIES, now)]
            && TimerOn(c) == !(a <= StopPosition(load.e) + 1 < b)
            && (b == 0 ==> c.row == FoundRow(row, now, a) && c.commands == commands && c.nextPk == nextPk)
  {
    hide TasksOf, StopsAt, Span, Do, WaitingIn, TimerOn;
    var id, p := load.tables.id, StopPosition(load.e);
    var s0 := Fresh(row, commands, nextPk);
    StoppingPiece(s0, load, tasks, id, p, 0, v);
    var s1 := Span(s0, load, 0, v);
    Requests(s1, id, now);
    var s2 := Do(s1, RequestView(id, now));
    StoppingPiece(s2, load, tasks, id, p, v, a);
    var s3 := Span(s2, load, v, a);
    StartsTimer(s3, s1.row, id, now);
    StoppingPiece(Do(s3, WebStep), load, tasks, id, p, a, b);
  }

  lemma LostWhenStopped(row: Device, commands: seq<Command>, nextPk: nat, load: Micro, n: nat, now: int,
                        v: nat, a: nat, b: nat)
    requires load.Load? && (load.e.action.Sensors? || load.e.action.Capabilities?) && v <= a <= b <= n + 1
    requires Ends(FoundRow(row, now, a), load.created, load.e)
    requires Pieces(Fresh(row, commands, nextPk), load, n, load.tables.id, now, v, a, b).todo == []
    ensures var c := Pieces(Fresh(row, commands, nextPk), load, n, load.tables.id, now, v, a, b);
            var stop := StopPosition(load.e) + 1;
            !TimerOn(c) && WaitingIn(c.commands, load.tables.id) <==> a <= stop && stop + 2 <= b
  {
    hide TasksOf, StopsAt, Span, Do, WaitingIn, TimerOn, Ends, NeverStops;
    var id, p := load.tables.id, StopPosition(load.e);
    var tasks := FoundTasks(row, commands, nextPk, load, now, a, b);
    FoundProgram(Fresh(FoundRow(row, now, a),
                       if b == 0 then commands + [NewCommand(nextPk, id, REQUEST_CAPABILITIES, now)] else commands,
                       nextPk), load, tasks);
    StoppedBeforeCreate(row, commands, nextPk, load, tasks, now, v, a, b);
    var s5 := BeforeCreate(Fresh(row, commands, nextPk), load, id, now, v, a, b);
    CreatesRow(s5, id, now);
    var s6 := Do(s5, WebStep);
    SameTimer(s5, s6);
    StoppingPiece(s6, load, tasks, id, p, b, n + 1);
    LongEnough(tasks, id, p, n);
  }

  lemma Requests(c: Schedule, id: Id, now: int)
    requires c.request == []
    ensures var c' := Do(c, RequestView(id, now));
            c' == c.(request := [TimerSave(c.row, now), CreateRow(id, REQUEST_CAPABILITIES, now)]) &&
            TimerOn(c') == TimerOn(c)
  {
  }

  lemma SameTimer(c: Schedule, d: Schedule)
    requires c.row == d.row
    ensures TimerOn(c) == TimerOn(d)
  {
  }

  lemma LongEnough(tasks: seq<Task>, id: Id, p: nat, n: nat)
    requires StopsAt(tasks, id, p)
    ensures (if n <= |tasks| then tasks[n..] else []) == [] ==> n > p + 1
  {
  }

  lemma NotLostOtherwise(row: Device, commands: seq<Command>, nextPk: nat, load: Micro, n: nat, now: int,
                         v: nat, a: nat, b: nat)
    requires load.Load? && (load.e.action.Sensors? || load.e.action.Capabilities?) && v <= a <= b <= n + 1
    requires !Ends(FoundRow(row, now, a), load.created, load.e)
    ensures TimerOn(Pieces(Fresh(row, commands, nextPk), load, n, load.tables.id, now, v, a, b))
  {
    hide TasksOf, StopsAt, Span, Do, TimerOn, Ends, NeverStops;
    var id := load.tables.id;
    var tasks := FoundTasks(row, commands, nextPk, load, now, a, b);
    var s0 := Fresh(row, commands, nextPk);
    FoundProgram(Fresh(FoundRow(row, now, a),
                       if b == 0 then commands + [NewCommand(nextPk, id, REQUEST_CAPABILITIES, now)] else commands,
                       nextPk), load, tasks);
    StartingPiece(s0, load, tasks, 0, v);
    var s1 := Span(s0, load, 0, v);
    var s2 := Do(s1, RequestView(id, now));
    Requests(s1, id, now);
    StartingPiece(s2, load, tasks, v, a);
    var s3 := Span(s2, load, v, a);
    StartsTimer(s3, s1.row, id, now);
    var s4 := Do(s3, WebStep);
    StartingPiece(s4, load, tasks, a, b);
    var s5 := Span(s4, load, a, b);
    CreatesRow(s5, id, now);
    SameTimer(s5, Do(s5, WebStep));
    StartingPiece(Do(s5, WebStep), load, tasks, b, n + 1);
  }

  /** The answer that is already on its way when an admin asks again: whatever the row, the commands and the report, it
      stops the timer the view has just started and settles the requests before the view creates its own, which then
      waits with the timer off. */
  lemma RequestCanBeLost(tables: Session, row: Device, commands: seq<Command>, nextPk: nat, report: CapabilitiesReport,
                         now: int)
    ensures var load := Load(tables, false, Event(now, true, tables.id, Capabilities(report)));
            var c := DoAll(Fresh(row, commands, nextPk), Woven(load, 3, tables.id, now, 0, 0, 3));
            c.todo == [] && !TimerOn(c) && WaitingIn(c.commands, tables.id)
  {
    hide DoAll, Woven, TasksOf, StopsAt, Span, Do, TimerOn, WaitingIn;
    var load := Load(tables, false, Event(now, true, tables.id, Capabilities(report)));
    var id, c0 := tables.id, Fresh(row, commands, nextPk);
    var tasks := FoundTasks(row, commands, nextPk, load, now, 0, 3);
    WovenIs(c0, load, 3, id, now, 0, 0, 3);
    FoundProgram(Fresh(FoundRow(row, now, 0), commands, nextPk), load, tasks);
    StoppedBeforeCreate(row, commands, nextPk, load, tasks, now, 0, 0, 3);
    var s := BeforeCreate(c0, load, id, now, 0, 0, 3);
    CreatesRow(s, id, now);
    SameTimer(s, Do(s, WebStep));
    StoppingPiece(Do(s, WebStep), load, tasks, id, 0, 3, 4);
    CapabilitiesTasks(tables.(device := FoundRow(row, now, 0), commands := commands), load.e);
    RequestLostExactly(row, commands, nextPk, load, 3, now, 0, 0, 3);
  }

  lemma CapabilitiesTasks(x: Session, e: Event)
    requires e.action.Capabilities?
    ensures |TasksOf(x, false, e)| == 3
  {
  }
}
