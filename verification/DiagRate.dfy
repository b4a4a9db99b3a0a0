/** Automatic diagnostics polls are rate-limited over whole runs. */
module DiagRate {
  import opened Domain
  import opened Protocol
  import opened Invariants
  import opened Reachable
  import opened History
  import opened AlertClock
  import opened Requests

  /** Times of the automatic get_diag polls of a device on the wire. */
  function PollTimes(wire: seq<Publish>, id: Id): seq<int> {
    if wire == [] then []
    else
      var p := wire[|wire| - 1];
      PollTimes(wire[..|wire| - 1], id) + if p.device == id && p.cause == DiagPoll then [p.at] else []
  }

  lemma {:induction false} PollTimesAppend(a: seq<Publish>, b: seq<Publish>, id: Id)
    ensures PollTimes(a + b, id) == PollTimes(a, id) + PollTimes(b, id)
  {
    if b == [] {
      assert a + b == a;
    } else {
      assert (a + b)[..|a + b| - 1] == a + b[..|b| - 1];
      PollTimesAppend(a, b[..|b| - 1], id);
    }
  }

  lemma {:induction false} NoPolls(wire: seq<Publish>, id: Id)
    requires forall i :: 0 <= i < |wire| ==> wire[i].device != id || wire[i].cause != DiagPoll
    ensures PollTimes(wire, id) == []
  {
    if wire != [] { NoPolls(wire[..|wire| - 1], id); }
  }

  function PolledAt(s: State, id: Id): Option<int> { if id in s.devices then s.devices[id].diagRequestedAt else None }

  predicate PollsNow(x: Session, created: bool, e: Event) {
    e.action.Sensors? && x.device.isApproved && DiagDue(Receive(x, created, e.now, e.up).device, e.now)
  }

  lemma OnePoll(p: Publish)
    requires p.cause == DiagPoll
    ensures PollTimes([p], p.device) == [p.at]
  {
  }

  lemma SensorsPoll(x: Session, created: bool, e: Event)
    requires e.action.Sensors? && CommandsOk(x.commands, x.nextPk, e.now)
    ensures var y := OnSensors(x, created, e.now, e.up, e.action.data);
            var polls := PollsNow(x, created, e);
            && y.device.diagRequestedAt == (if polls then Some(e.now) else x.device.diagRequestedAt)
            && (polls && x.device.diagRequestedAt.Some? ==>
                  10 * (e.now - x.device.diagRequestedAt.value) >= x.device.TenCooldowns())
            && PollTimes(y.wire, x.id) == PollTimes(x.wire, x.id) + if polls && e.up then [e.now] else []
  {
    hide Receive, Ingest, CommandsOk, WakeBatch, Reconcile, PollTimes, Wakes;
    ReceiveColumns(x, created, e.now, e.up);
    ReceiveWire(x, created, e.now, e.up);
    var r := Receive(x, created, e.now, e.up);
    IngestColumns(r, e.now, e.up, e.action.data);
    IngestWire(r, e.now, e.up, e.action.data);
    BatchHasNoPoll(x.device, x.commands, x.id, e.now);
    var batch := if Wakes(x.device, created, e.now) && e.up then WakeBatch(x.device, x.commands, x.id, e.now) else [];
    PollTimesAppend(x.wire, batch, x.id);
    var poll := [Publish(e.now, x.device.deviceType, x.id, GET_DIAG, DiagPoll)];
    PollTimesAppend(r.wire, poll, x.id);
    OnePoll(poll[0]);
    NoPolls([], x.id);
    assert poll == [poll[0]];
    assert r.wire + [] == r.wire;
  }

  lemma {:induction false} BatchHasNoPoll(d: Device, rows: seq<Command>, id: Id, now: int)
    ensures PollTimes(WakeBatch(d, rows, id, now), id) == []
  {
    hide PendingBodies;
    NoPolls(WakeBatch(d, rows, id, now), id);
  }

  ghost predicate Quiet(x: Session, y: Session) {
    && y.device.diagRequestedAt == x.device.diagRequestedAt
    && x.wire <= y.wire
    && forall i :: |x.wire| <= i < |y.wire| ==> y.wire[i].cause != DiagPoll
  }

  lemma CapabilitiesNeverPoll(x: Session, now: int, up: bool, r: CapabilitiesReport)
    ensures Quiet(x, OnCapabilities(x, now, up, r))
  {
  }

  lemma WebNeverPolls(x: Session, created: bool, e: Event)
    requires e.action.UserCommand? || e.action.RequestCaps? || e.action.ConfirmUplink? || e.action.Offset? ||
             e.action.CalibrationValue? || e.action.OtaPush?
    ensures Quiet(x, Handle(x, created, e))
  {
    hide Put, Round2, Round4;
  }

  /** Only sensor messages poll. */
  lemma OthersNeverPoll(x: Session, created: bool, e: Event)
    requires IsSessionAction(e.action) && !e.action.Sensors?
    ensures Quiet(x, Handle(x, created, e))
  {
    hide Settle, Put, ReportedMirror, Acknowledge, OnCapabilities, Send;
    if e.action.Capabilities? {
      CapabilitiesNeverPoll(x, e.now, e.up, e.action.report);
    } else if e.action.UserCommand? || e.action.RequestCaps? || e.action.ConfirmUplink? || e.action.Offset? ||
              e.action.CalibrationValue? || e.action.OtaPush? {
      WebNeverPolls(x, created, e);
    }
  }

  lemma SessionPoll(s: State, e: Event)
    requires Runs(s, e) && CommandsOk(s.commands, s.nextPk, e.now)
    ensures var x, y := Opened(s, e), After(s, e);
            || (y.device.diagRequestedAt == x.device.diagRequestedAt &&
                PollTimes(y.wire, e.id) == PollTimes(x.wire, e.id))
            || (y.device.diagRequestedAt == Some(e.now) &&
                (x.device.diagRequestedAt.Some? ==>
                   10 * (e.now - x.device.diagRequestedAt.value) >= x.device.TenCooldowns()) &&
                (PollTimes(y.wire, e.id) == PollTimes(x.wire, e.id) ||
                 PollTimes(y.wire, e.id) == PollTimes(x.wire, e.id) + [e.now]))
  {
    hide PollTimes, CommandsOk, OnSensors, PollsNow;
    if e.action.Sensors? {
      SensorsPoll(Opened(s, e), e.id !in s.devices, e);
    } else {
      QuietPoll(s, e);
    }
  }

  lemma QuietPoll(s: State, e: Event)
    requires Runs(s, e) && !e.action.Sensors?
    ensures After(s, e).device.diagRequestedAt == Opened(s, e).device.diagRequestedAt
    ensures PollTimes(After(s, e).wire, e.id) == PollTimes(s.wire, e.id)
  {
    hide PollTimes, Handle;
    OthersNeverPoll(Opened(s, e), e.id !in s.devices, e);
    var y := After(s, e);
    var more := y.wire[|s.wire|..];
    assert y.wire == s.wire + more;
    NoPolls(more, e.id);
    PollTimesAppend(s.wire, more, e.id);
  }

  /** Polls of the device now called `id` that the event puts on the wire. */
  function NewPolls(s: State, e: Event, id: Id): seq<int> {
    var w := Step(s, e).wire;
    if |s.wire| <= |w| then PollTimes(w[|s.wire|..], id) else []
  }

  /** When the device now called `id` was last polled, before the event. */
  function PolledBefore(s: State, e: Event, id: Id): Option<int> {
    match Prior(s, e, id) case None => None case Some(p) => PolledAt(s, p)
  }

  /** One event: at most one poll is added, and only a cooldown after the previous one of the same device, whatever
      it was called then. */
  lemma {:induction false} PollStep(s: State, e: Event, id: Id)
    requires Inv(s, e.now) && id in Step(s, e).devices
    ensures s.wire <= Step(s, e).wire
    ensures NotAfter(PolledBefore(s, e, id), e.now)
    ensures var t, t' := PolledBefore(s, e, id), PolledAt(Step(s, e), id);
            || (NewPolls(s, e, id) == [] && (t' == t || t' == Some(e.now)))
            || (NewPolls(s, e, id) == [e.now] && t' == Some(e.now) &&
                (t.Some? ==> var p := Prior(s, e, id).value;
                             p in s.devices && 10 * (e.now - t.value) >= s.devices[p].TenCooldowns()))
  {
    hide Step, After, Handle, PollTimes, SessionOk, Recorded, CommandsOk, LogOk, ReadingsOk, MirrorOk, Referential;
    PriorKnown(s, e, id);
    if Prior(s, e, id).Some? { assert RowOk(s, Prior(s, e, id).value, e.now); }
    if Runs(s, e) {
      Effect(s, e);
      var more := After(s, e).wire[|s.wire|..];
      assert Step(s, e).wire == s.wire + more;
      if e.id == id {
        SessionPolls(s, e);
      } else {
        NoPolls(more, id);
      }
    } else {
      StructuralPoll(s, e, id);
    }
  }

  lemma SessionPolls(s: State, e: Event)
    requires Inv(s, e.now) && Runs(s, e)
    ensures s.wire <= After(s, e).wire
    ensures var t, t' := Opened(s, e).device.diagRequestedAt, After(s, e).device.diagRequestedAt;
            var polls := PollTimes(After(s, e).wire[|s.wire|..], e.id);
            || (polls == [] && (t' == t || t' == Some(e.now)))
            || (polls == [e.now] && t' == Some(e.now) &&
                (t.Some? ==> 10 * (e.now - t.value) >= Opened(s, e).device.TenCooldowns()))
  {
    hide Step, After, PollTimes, SessionOk, Recorded, CommandsOk, LogOk, ReadingsOk;
    Effect(s, e);
    SessionPoll(s, e);
    var w, more := s.wire, After(s, e).wire[|s.wire|..];
    assert After(s, e).wire == w + more;
    PollTimesAppend(w, more, e.id);
    if PollTimes(w + more, e.id) == PollTimes(w, e.id) {
      Cancel(PollTimes(w, e.id), PollTimes(more, e.id), []);
    } else {
      Cancel(PollTimes(w, e.id), PollTimes(more, e.id), [e.now]);
    }
  }

  lemma StructuralPoll(s: State, e: Event, id: Id)
    requires !Runs(s, e) && id in Step(s, e).devices
    ensures Step(s, e).wire == s.wire && NewPolls(s, e, id) == []
    ensures PolledAt(Step(s, e), id) == PolledBefore(s, e, id)
  {
  }

  lemma Cancel(a: seq<int>, x: seq<int>, y: seq<int>)
    requires a + x == a + y || (y == [] && a + x == a)
    ensures x == y
  {
    assert (a + x)[|a|..] == x && (a + y)[|a|..] == y;
  }

  // --------------------------------------------------------------- whole runs

  /** The automatic polls that reach the wire while `fs` is handled after `es`, for the device called `id` in the
      end, under whatever identifier it had when it was polled. */
  function LinePolls(es: seq<Event>, fs: seq<Event>, id: Id): seq<int> {
    if fs == [] then []
    else
      var front, e := fs[..|fs| - 1], fs[|fs| - 1];
      var s := Run(es + front);
      (match Prior(s, e, id) case None => [] case Some(p) => LinePolls(es, front, p)) + NewPolls(s, e, id)
  }

  /** While `fs` is handled the device called `id` in the end has, under whatever identifier, a cooldown of at least
      `cooldown`. */
  predicate SteadyLine(es: seq<Event>, fs: seq<Event>, id: Id, cooldown: int) {
    if fs == [] then true
    else
      var front, e := fs[..|fs| - 1], fs[|fs| - 1];
      var s := Run(es + front);
      match Prior(s, e, id)
      case None => true
      case Some(p) =>
        (p in s.devices ==> s.devices[p].TenCooldowns() >= 10 * cooldown) && SteadyLine(es, front, p, cooldown)
  }

  ghost predicate Spaced(times: seq<int>, gap: int) {
    forall i, j :: 0 <= i < j < |times| ==> times[j] - times[i] >= (j - i) * gap
  }

  /** Polls are a gap apart, and `last` is no earlier than any of them. */
  ghost predicate LatestPoll(times: seq<int>, gap: int, last: Option<int>) {
    Spaced(times, gap) && (times != [] ==> last.Some? && times[|times| - 1] <= last.value)
  }

  /** In every run, from any reachable state, consecutive polls of a device are at least its cooldown apart, through
      renames and merges. */
  lemma {:induction false} PollsAreSpaced(es: seq<Event>, fs: seq<Event>, id: Id, cooldown: int)
    requires Timed(es + fs) && id in Run(es + fs).devices && cooldown >= 0 && SteadyLine(es, fs, id, cooldown)
    ensures LatestPoll(LinePolls(es, fs, id), cooldown, PolledAt(Run(es + fs), id))
  {
    hide Step, Run, NewPolls, Spaced, Inv;
    if fs == [] {
      NothingSpaced(cooldown);
    } else {
      var front, e := fs[..|fs| - 1], fs[|fs| - 1];
      assert (es + fs)[..|es + fs| - 1] == es + front;
      var s := Run(es + front);
      Front(es + fs);
      RunStep(es + fs);
      PriorKnown(s, e, id);
      PollStep(s, e, id);
      if Prior(s, e, id).Some? {
        PollsAreSpaced(es, front, Prior(s, e, id).value, cooldown);
      } else {
        NothingSpaced(cooldown);
      }
      var before := match Prior(s, e, id) case None => [] case Some(p) => LinePolls(es, front, p);
      OnePollMore(before, NewPolls(s, e, id), PolledBefore(s, e, id), PolledAt(Run(es + fs), id), e.now, cooldown);
    }
  }

  lemma NothingSpaced(gap: int)
    ensures Spaced([], gap)
  {
  }

  lemma SpacedAppend(times: seq<int>, t: int, gap: int)
    requires gap >= 0 && Spaced(times, gap) && (times != [] ==> t - times[|times| - 1] >= gap)
    ensures Spaced(times + [t], gap)
  {
    var n := |times|;
    forall i, j | 0 <= i < j < n + 1 ensures (times + [t])[j] - (times + [t])[i] >= (j - i) * gap {
      if j == n {
        assert i < n - 1 ==> times[n - 1] - times[i] >= (n - 1 - i) * gap;
        assert (n - i) * gap == (n - 1 - i) * gap + gap;
      }
    }
  }

  lemma OnePollMore(before: seq<int>, more: seq<int>, t: Option<int>, t': Option<int>, now: int, gap: int)
    requires gap >= 0 && LatestPoll(before, gap, t) && NotAfter(t, now)
    requires || (more == [] && (t' == t || t' == Some(now)))
             || (more == [now] && t' == Some(now) && (t.Some? ==> now - t.value >= gap))
    ensures LatestPoll(before + more, gap, t')
  {
    hide Spaced;
    if more == [] { assert before + more == before; } else { SpacedAppend(before, now, gap); }
  }

  /** In any span of time at most floor(span / cooldown) + 1 polls of a device are sent, while its cooldown stays at
      least `cooldown`. */
  lemma {:induction false} PollRateBound(es: seq<Event>, fs: seq<Event>, id: Id, cooldown: int, i: int, j: int)
    requires Timed(es + fs) && cooldown > 0
    ensures var times := LinePolls(es, fs, id);
            id in Run(es + fs).devices && SteadyLine(es, fs, id, cooldown) && 0 <= i <= j < |times| ==>
              j - i + 1 <= (times[j] - times[i]) / cooldown + 1
  {
    hide Run, LinePolls, SteadyLine, Timed;
    var times := LinePolls(es, fs, id);
    if id in Run(es + fs).devices && SteadyLine(es, fs, id, cooldown) && 0 <= i <= j < |times| {
      PollsAreSpaced(es, fs, id, cooldown);
      if i < j { assert times[j] - times[i] >= (j - i) * cooldown; }
      Quotient(times[j] - times[i], j - i, cooldown);
    }
  }

  lemma Quotient(span: int, n: int, gap: int)
    requires gap > 0 && span >= n * gap
    ensures n <= span / gap
  {
    var q := span / gap;
    assert n * gap < (q + 1) * gap;
  }

  // ------------------------------------------------------------- on the wire

  /** The event takes the identifier away from its device, or gives it to another. */
  predicate Rebinds(e: Event, id: Id) {
    || (e.id == id && (e.action.DeleteDevice? || e.action.RenameTo? || e.action.MergeInto?))
    || (e.action.RenameTo? && e.action.newId == id)
  }

  lemma KeepsName(s: State, e: Event, id: Id)
    requires Inv(s, e.now) && id in s.devices && !Rebinds(e, id)
    ensures id in Step(s, e).devices && Prior(s, e, id) == Some(id)
  {
    hide After, SessionOk, Grows, Handle;
    if Runs(s, e) { Effect(s, e); }
  }

  /** For a device that keeps its identifier these are exactly the get_diag polls the wire gains for it. */
  lemma {:induction false} PollsOnWire(es: seq<Event>, fs: seq<Event>, id: Id)
    requires Timed(es + fs) && id in Run(es).devices && forall i :: 0 <= i < |fs| ==> !Rebinds(fs[i], id)
    ensures id in Run(es + fs).devices && Run(es).wire <= Run(es + fs).wire
    ensures LinePolls(es, fs, id) == PollTimes(Run(es + fs).wire[|Run(es).wire|..], id)
  {
    hide Step, Run, Inv, PollTimes;
    if fs == [] {
      assert es + fs == es;
      assert Run(es).wire[|Run(es).wire|..] == [];
      NoPolls([], id);
    } else {
      var front, e := fs[..|fs| - 1], fs[|fs| - 1];
      assert (es + fs)[..|es + fs| - 1] == es + front;
      var s := Run(es + front);
      Front(es + fs);
      RunStep(es + fs);
      PollsOnWire(es, front, id);
      KeepsName(s, e, id);
      PollStep(s, e, id);
      var a, b, c := Run(es).wire, s.wire, Run(es + fs).wire;
      assert c[|a|..] == b[|a|..] + c[|b|..];
      PollTimesAppend(b[|a|..], c[|b|..], id);
    }
  }
}
