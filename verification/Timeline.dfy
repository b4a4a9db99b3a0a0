/** The status timeline: folding a device's log entries into segments of a time window. */
module Timeline {
  import opened Domain
  import opened Protocol
  import opened Invariants
  import opened Reachable
  import opened History
  import opened MergeHistory
  import opened Agreement
  import opened Ledger
  import opened Writes

  datatype Segment = Segment(start: int, end: int, alert: Alert)

  // ------------------------------------------------------------------ queries

  /** Stable insertion: after every entry that is not later. */
  function InsertByTime(rows: seq<StatusEntry>, e: StatusEntry): seq<StatusEntry> {
    if rows == [] || rows[|rows| - 1].time <= e.time then rows + [e]
    else InsertByTime(rows[..|rows| - 1], e) + [rows[|rows| - 1]]
  }

  function OrderByTime(rows: seq<StatusEntry>): seq<StatusEntry> {
    if rows == [] then [] else InsertByTime(OrderByTime(rows[..|rows| - 1]), rows[|rows| - 1])
  }

  predicate Ordered(rows: seq<StatusEntry>) {
    forall i, j :: 0 <= i < j < |rows| ==> rows[i].time <= rows[j].time
  }

  lemma InsertedBelow(r: seq<StatusEntry>, front: seq<StatusEntry>, e: StatusEntry, t: int)
    requires multiset(r) == multiset(front) + multiset{e} && e.time <= t
    requires forall i :: 0 <= i < |front| ==> front[i].time <= t
    ensures forall i :: 0 <= i < |r| ==> r[i].time <= t
  {
    forall i | 0 <= i < |r| ensures r[i].time <= t {
      assert r[i] in multiset(r);
      if r[i] != e { assert r[i] in multiset(front); }
    }
  }

  lemma {:induction false} InsertOrdered(rows: seq<StatusEntry>, e: StatusEntry)
    requires Ordered(rows)
    ensures Ordered(InsertByTime(rows, e))
    ensures multiset(InsertByTime(rows, e)) == multiset(rows) + multiset{e}
  {
    if rows == [] || rows[|rows| - 1].time <= e.time {
    } else {
      var front, last := rows[..|rows| - 1], rows[|rows| - 1];
      assert rows == front + [last];
      InsertOrdered(front, e);
      InsertedBelow(InsertByTime(front, e), front, e, last.time);
    }
  }

  /** The query's order: sorted by time, the same rows. */
  lemma {:induction false} OrderByTimeSorts(rows: seq<StatusEntry>)
    ensures Ordered(OrderByTime(rows)) && multiset(OrderByTime(rows)) == multiset(rows)
  {
    if rows != [] {
      assert rows == rows[..|rows| - 1] + [rows[|rows| - 1]];
      OrderByTimeSorts(rows[..|rows| - 1]);
      InsertOrdered(OrderByTime(rows[..|rows| - 1]), rows[|rows| - 1]);
    }
  }

  /** A table written in time order is already in query order. */
  lemma {:induction false} OrderedAlready(rows: seq<StatusEntry>)
    requires Ordered(rows)
    ensures OrderByTime(rows) == rows
  {
    if rows != [] { OrderedAlready(rows[..|rows| - 1]); }
  }

  lemma {:induction false} EntriesOrdered(log: seq<StatusEntry>, id: Id, now: int)
    requires LogOk(log, now)
    ensures LogOk(EntriesOf(log, id), now)
  {
    if log != [] { EntriesOrdered(log[..|log| - 1], id, log[|log| - 1].time); }
  }

  lemma {:induction false} EntriesAlert(log: seq<StatusEntry>, id: Id, t: Option<int>)
    ensures AlertBy(EntriesOf(log, id), id, t) == AlertBy(log, id, t)
    ensures forall i :: 0 <= i < |EntriesOf(log, id)| ==> EntriesOf(log, id)[i].device == id
  {
    if log != [] {
      var front, last := log[..|log| - 1], log[|log| - 1];
      EntriesAlert(front, id, t);
      var f, w := EntriesOf(front, id), EntriesOf(log, id);
      if last.device == id { assert w[..|w| - 1] == f; } else { assert w == f; }
    }
  }

  // --------------------------------------------------------------------- view

  /** Number of rows before the first one that is not earlier than `t`. */
  function CountBefore(rows: seq<StatusEntry>, t: int): (n: nat)
    ensures n <= |rows|
    ensures forall i :: 0 <= i < n ==> rows[i].time < t
    ensures n < |rows| ==> rows[n].time >= t
  {
    if rows == [] || rows[0].time >= t then 0 else 1 + CountBefore(rows[1..], t)
  }

  /** Segment `i` is the one shown at instant `t`. */
  predicate Shows(segments: seq<Segment>, i: int, t: int) {
    && 0 <= i < |segments|
    && segments[i].start <= t <= segments[i].end
    && (i + 1 < |segments| ==> t < segments[i + 1].start)
  }

  /** Contiguous segments from `start` to `end` whose bounds never go backwards. */
  ghost predicate Tiles(segments: seq<Segment>, start: int, end: int) {
    && |segments| > 0
    && segments[0].start == start
    && segments[|segments| - 1].end == end
    && (forall i :: 0 <= i < |segments| ==> segments[i].start <= segments[i].end)
    && (forall i :: 0 <= i < |segments| - 1 ==> segments[i].end == segments[i + 1].start)
  }

  /** Every instant of the window is shown with the latest logged alert, "ok" before any entry. */
  ghost predicate ShowsLatest(segments: seq<Segment>, rows: seq<StatusEntry>, id: Id) {
    forall i, t :: Shows(segments, i, t) ==> segments[i].alert == AlertBy(rows, id, Some(t))
  }

  /** Segment `k` of the fold over rows[first..last]. */
  function FoldedSegment(rows: seq<StatusEntry>, first: nat, last: nat, start: int, end: int, k: nat): Segment
    requires first <= last <= |rows| && k <= last - first
  {
    Segment(if k == 0 then start else rows[first + k - 1].time,
            if k == last - first then end else rows[first + k].time,
            if first + k == 0 then NO_ALERT else rows[first + k - 1].alert)
  }

  /** rows[first..last] are the entries of the window. */
  ghost predicate InWindow(rows: seq<StatusEntry>, first: nat, last: nat, start: int, end: int) {
    && first <= last <= |rows|
    && (forall i :: 0 <= i < first ==> rows[i].time < start)
    && (forall i :: first <= i < last ==> start <= rows[i].time <= end)
    && (forall i :: last <= i < |rows| ==> end < rows[i].time)
  }

  ghost predicate IsFold(segments: seq<Segment>, rows: seq<StatusEntry>, first: nat, last: nat, start: int, end: int)
    requires first <= last <= |rows|
  {
    && |segments| == last - first + 1
    && forall k :: 0 <= k < |segments| ==> segments[k] == FoldedSegment(rows, first, last, start, end, k)
  }

  lemma FoldTiles(segments: seq<Segment>, rows: seq<StatusEntry>, first: nat, last: nat, start: int, end: int)
    requires start <= end && Ordered(rows) && InWindow(rows, first, last, start, end)
    requires IsFold(segments, rows, first, last, start, end)
    ensures Tiles(segments, start, end)
  {
  }

  lemma {:induction false} FoldShows(segments: seq<Segment>, rows: seq<StatusEntry>, id: Id, first: nat, last: nat,
                  start: int, end: int, i: int, t: int)
    requires start <= end && Ordered(rows) && InWindow(rows, first, last, start, end)
    requires forall i :: 0 <= i < |rows| ==> rows[i].device == id
    requires IsFold(segments, rows, first, last, start, end) && Shows(segments, i, t)
    ensures segments[i].alert == AlertBy(rows, id, Some(t))
  {
    var k := first + i;
    assert segments[i] == FoldedSegment(rows, first, last, start, end, i);
    forall j | k <= j < |rows| ensures rows[j].time > t {
      if i < last - first {
        assert segments[i + 1] == FoldedSegment(rows, first, last, start, end, i + 1);
        assert rows[k].time > t;
      }
    }
    SplitAt(rows, id, t, k);
  }

  lemma {:induction false} QueryRows(log: seq<StatusEntry>, id: Id)
    ensures var rows := OrderByTime(EntriesOf(log, id));
            Ordered(rows) && forall i :: 0 <= i < |rows| ==> rows[i].device == id
  {
    var rows := OrderByTime(EntriesOf(log, id));
    OrderByTimeSorts(EntriesOf(log, id));
    EntriesAlert(log, id, None);
    forall i | 0 <= i < |rows| ensures rows[i].device == id {
      assert rows[i] in multiset(rows);
      assert rows[i] in EntriesOf(log, id);
    }
  }

  lemma Bounds(rows: seq<StatusEntry>, start: int, end: int)
    requires Ordered(rows) && start <= end
    ensures InWindow(rows, CountBefore(rows, start), CountBefore(rows, end + 1), start, end)
  {
    var first, last := CountBefore(rows, start), CountBefore(rows, end + 1);
    assert !(last < first);
  }

  /** With the rows split at an instant, the row before the split decides. */
  lemma {:induction false} SplitAt(rows: seq<StatusEntry>, id: Id, t: int, k: nat)
    requires k <= |rows| && forall i :: 0 <= i < |rows| ==> rows[i].device == id
    requires forall i :: k <= i < |rows| ==> rows[i].time > t
    requires k > 0 ==> rows[k - 1].time <= t
    ensures AlertBy(rows, id, Some(t)) == if k == 0 then NO_ALERT else rows[k - 1].alert
  {
    if |rows| > k { SplitAt(rows[..|rows| - 1], id, t, k); }
  }

  /** The view's fold, run on the log entries of the device in query order. */
  method StatusTimeline(log: seq<StatusEntry>, id: Id, start: int, end: int) returns (segments: seq<Segment>)
    ensures var rows := OrderByTime(EntriesOf(log, id));
            start <= end ==>
              && Tiles(segments, start, end)
              && ShowsLatest(segments, rows, id)
              && |segments| == 1 + CountBefore(rows, end + 1) - CountBefore(rows, start)
  {
    hide AlertBy, OrderByTime, EntriesOf, CountBefore;
    var rows := OrderByTime(EntriesOf(log, id));
    var first := CountBefore(rows, start);
    var last := Max(first, CountBefore(rows, end + 1));
    segments := FoldEntries(rows, first, last, start, end);
    QueryRows(log, id);
    if start <= end {
      Bounds(rows, start, end);
      FoldTiles(segments, rows, first, last, start, end);
      forall i, t | Shows(segments, i, t) ensures segments[i].alert == AlertBy(rows, id, Some(t)) {
        FoldShows(segments, rows, id, first, last, start, end, i, t);
      }
    }
  }

  method FoldEntries(rows: seq<StatusEntry>, first: nat, last: nat, start: int, end: int)
      returns (segments: seq<Segment>)
    requires first <= last <= |rows|
    ensures IsFold(segments, rows, first, last, start, end)
  {
    var initial := if first > 0 then rows[first - 1].alert else NO_ALERT;
    segments := [];
    var currentStart, currentAlert := start, initial;
    for i := first to last
      invariant |segments| == i - first
      invariant currentStart == (if i == first then start else rows[i - 1].time)
      invariant currentAlert == (if i == 0 then NO_ALERT else rows[i - 1].alert)
      invariant forall k :: 0 <= k < i - first ==> segments[k] == FoldedSegment(rows, first, last, start, end, k)
    {
      segments := segments + [Segment(currentStart, rows[i].time, currentAlert)];
      currentStart := rows[i].time;
      currentAlert := rows[i].alert;
    }
    segments := segments + [Segment(currentStart, end, currentAlert)];
  }

  /** Every instant of the window is shown by some segment. */
  lemma SomeShows(segments: seq<Segment>, start: int, end: int, t: int)
    requires Tiles(segments, start, end) && start <= t <= end
    ensures exists i :: Shows(segments, i, t)
  {
    var i := |segments| - 1;
    while segments[i].start > t
      decreases i
      invariant 0 <= i < |segments|
      invariant i + 1 < |segments| ==> t < segments[i + 1].start
    {
      i := i - 1;
    }
    assert i + 1 < |segments| ==> segments[i].end == segments[i + 1].start;
    assert Shows(segments, i, t);
  }

  // ----------------------------------------------------- alerts by the events alone

  /** The event writes an entry into the status log. */
  predicate WritesLog(front: seq<Event>, e: Event) {
    Runs(Run(front), e) && GainedEntries(CardBefore(front, e, e.id), e) != []
  }

  /** The latest event, not after `t`, that logged an alert for the device now called `id` or for one it absorbed. */
  function LoggedBy(es: seq<Event>, id: Id, t: int): (k: Option<nat>)
    ensures k.Some? ==> k.value < |es|
  {
    if es == [] then None
    else
      var front, e := es[..|es| - 1], es[|es| - 1];
      var s := Run(front);
      if e.now <= t && e.id == id && WritesLog(front, e) then Some(|front|)
      else if Merges(s, e) && id == e.action.target then
        var a, b := LoggedBy(front, e.id, t), LoggedBy(front, id, t);
        if a.Some? && (b.None? || a.value > b.value) then a else b
      else match Prior(s, e, id) case None => None case Some(p) => LoggedBy(front, p, t)
  }

  /** The alert that event left on its device, "ok" before any. */
  function ToldAlert(es: seq<Event>, id: Id, t: int): Alert {
    match LoggedBy(es, id, t)
    case None => Alert(Ok, "")
    case Some(k) => CardOf(es[..k + 1], es[k].id).alert
  }

  /** The alert the device now called `id` held at instant `t`. */
  function AlertAt(es: seq<Event>, id: Id, t: int): Alert {
    if es == [] then Alert(Ok, "")
    else
      var front, e := es[..|es| - 1], es[|es| - 1];
      if e.now <= t then CardOf(es, id).alert
      else match Prior(Run(front), e, id) case None => Alert(Ok, "") case Some(p) => AlertAt(front, p, t)
  }

  lemma {:induction false} HeldIsCard(es: seq<Event>, id: Id, t: int)
    requires Timed(es) && id in Run(es).devices
    ensures HeldAlert(es, id, t) == AlertAt(es, id, t)
  {
    hide Run, Step, CardOf, Inv, Values;
    if es != [] {
      var front, e := es[..|es| - 1], es[|es| - 1];
      Front(es);
      RunStep(es);
      RowIsCard(es, id);
      PriorKnown(Run(front), e, id);
      if Prior(Run(front), e, id).Some? { HeldIsCard(front, Prior(Run(front), e, id).value, t); }
    }
  }

  lemma {:induction false} LogsIs(front: seq<Event>, e: Event)
    requires Timed(front + [e])
    ensures Logs(Run(front), e) <==> WritesLog(front, e)
  {
    hide Run, Step, CardOf, GainedEntries, GainedReadings, GainedWire, GainedCommands;
    assert (front + [e])[..|front + [e]| - 1] == front;
    RunStep(front + [e]);
    if Runs(Run(front), e) { EventWrites(front, e); } else { FewerLogs(Run(front), e); }
  }

  function Entry(es: seq<Event>, k: Option<nat>): (l: Logged)
    requires k.Some? ==> k.value < |es|
    ensures l.Rank() == if k.Some? then k.value else -1
  {
    if k.None? then Never else At(k.value, CardOf(es[..k.value + 1], es[k.value].id).alert)
  }

  lemma {:induction false} ToldIs(es: seq<Event>, id: Id, t: int)
    requires Timed(es)
    ensures LastLogged(es, id, t) == Entry(es, LoggedBy(es, id, t))
    decreases |es|, 1
  {
    hide Run, Step, CardOf, Logs, WritesLog, Inv, Agrees, Entry;
    if es == [] {
      NoneTold(es);
    } else {
      var front, e := es[..|es| - 1], es[|es| - 1];
      var s := Run(front);
      assert front + [e] == es;
      Front(es);
      LogsIs(front, e);
      if e.now <= t && e.id == id && Logs(s, e) {
        OwnEntry(es);
      } else if Merges(s, e) && id == e.action.target {
        ToldBefore(es, e.id, t);
        ToldBefore(es, id, t);
      } else if Prior(s, e, id).Some? {
        ToldBefore(es, Prior(s, e, id).value, t);
      } else {
        NoneTold(es);
      }
    }
  }

  lemma {:induction false} NoneTold(es: seq<Event>)
    ensures Entry(es, None) == Never
  {
  }

  /** What `ToldIs` says of the run without its last event, in terms of the whole run. */
  lemma {:induction false} ToldBefore(es: seq<Event>, id: Id, t: int)
    requires Timed(es) && es != []
    ensures LastLogged(es[..|es| - 1], id, t) == Entry(es, LoggedBy(es[..|es| - 1], id, t))
    decreases |es|, 0
  {
    hide Run, CardOf, LastLogged, LoggedBy;
    var front := es[..|es| - 1];
    Front(es);
    ToldIs(front, id, t);
    var l := LoggedBy(front, id, t);
    if l.Some? { assert front[..l.value + 1] == es[..l.value + 1]; }
  }

  lemma {:induction false} OwnEntry(es: seq<Event>)
    requires Timed(es) && es != [] && Logs(Run(es[..|es| - 1]), es[|es| - 1])
    ensures At(|es| - 1, CurrentAlert(Run(es), es[|es| - 1].id)) == Entry(es, Some(|es| - 1))
  {
    hide Run, Step, CardOf, Inv, Values;
    var front, e := es[..|es| - 1], es[|es| - 1];
    Front(es);
    RunStep(es);
    if !Runs(Run(front), e) { FewerLogs(Run(front), e); }
    StaysKnown(Run(front), e);
    RowIsCard(es, e.id);
    assert es[..|es|] == es;
  }

  // ------------------------------------------------------------- end to end

  /** For any run, any device, any window and any instant in it: the segment shown at that instant carries the
      alert left by the event that logged last, for the device itself or for one it absorbed, as the events alone give
      it; and that is the alert the device held then exactly at the instants no merge has falsified. */
  method TimelineOfRun(es: seq<Event>, id: Id, start: int, end: int) returns (segments: seq<Segment>)
    requires Timed(es) && id in Run(es).devices && start <= end
    ensures Tiles(segments, start, end)
    ensures forall i, t :: Shows(segments, i, t) ==> segments[i].alert == ToldAlert(es, id, t)
    ensures forall i, t :: Shows(segments, i, t) ==>
              (segments[i].alert == AlertAt(es, id, t) <==> Faithful(es, id, t))
  {
    hide Run, AlertAt, ToldAlert, Faithful;
    var log := Run(es).statusLog;
    segments := StatusTimeline(log, id, start, end);
    forall i, t | Shows(segments, i, t)
      ensures segments[i].alert == ToldAlert(es, id, t)
      ensures segments[i].alert == AlertAt(es, id, t) <==> Faithful(es, id, t)
    {
      TimelineRow(es, id, t);
    }
  }

  lemma {:induction false} TimelineRow(es: seq<Event>, id: Id, t: int)
    requires Timed(es) && id in Run(es).devices
    ensures var shown := AlertBy(OrderByTime(EntriesOf(Run(es).statusLog, id)), id, Some(t));
            && shown == ToldAlert(es, id, t)
            && (shown == AlertAt(es, id, t) <==> Faithful(es, id, t))
  {
    hide Run, HeldAlert, AlertAt, LastLogged, LoggedBy, Faithful, CardOf;
    HeldIsCard(es, id, t);
    ToldIs(es, id, t);
    var log := Run(es).statusLog;
    RunKeeps(es);
    EntriesOrdered(log, id, Clock(es));
    OrderedAlready(EntriesOf(log, id));
    EntriesAlert(log, id, Some(t));
    LogIsLastLogged(es, id, t);
    LogIsHistory(es, id, t);
  }
}
