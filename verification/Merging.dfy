/** Merging two devices' readings: the in-place loop over shared metrics, and what it leaves. */
module Merging {
  import opened Domain
  import opened Protocol

  // ------------------------------------------------------- bulk row updates

  function DeleteSeries(rows: seq<Reading>, id: Id, metric: string): seq<Reading> {
    if rows == [] then []
    else
      var r := rows[|rows| - 1];
      DeleteSeries(rows[..|rows| - 1], id, metric) + if r.device == id && r.metric == metric then [] else [r]
  }

  function MoveSeries(rows: seq<Reading>, from: Id, metric: string, to: Id): seq<Reading> {
    if rows == [] then []
    else
      var r := rows[|rows| - 1];
      MoveSeries(rows[..|rows| - 1], from, metric, to) +
      [if r.device == from && r.metric == metric then r.(device := to) else r]
  }

  /** What has become of a row once the metrics in `done` have been decided. */
  ghost function PartialRow(r: Reading, all: seq<Reading>, source: Id, target: Id,
                            done: set<string>): (kept: seq<Reading>)
    ensures |kept| <= 1
  {
    if r.metric in done then MergedRow(r, all, source, target) else [r]
  }

  ghost function Partial(rows: seq<Reading>, all: seq<Reading>, source: Id, target: Id,
                         done: set<string>): seq<Reading> {
    if rows == [] then []
    else Partial(rows[..|rows| - 1], all, source, target, done) +
         PartialRow(rows[|rows| - 1], all, source, target, done)
  }

  lemma {:induction false} PartialNone(rows: seq<Reading>, all: seq<Reading>, source: Id, target: Id)
    ensures Partial(rows, all, source, target, {}) == rows
  {
    if rows != [] { PartialNone(rows[..|rows| - 1], all, source, target); }
  }

  lemma {:induction false} DeleteSeriesAppend(a: seq<Reading>, b: seq<Reading>, id: Id, metric: string)
    requires |b| <= 1
    ensures DeleteSeries(a + b, id, metric) == DeleteSeries(a, id, metric) + DeleteSeries(b, id, metric)
  {
    if b == [] { assert a + b == a; } else { assert (a + b)[..|a + b| - 1] == a; assert b == [b[0]]; }
  }

  lemma {:induction false} MoveSeriesAppend(a: seq<Reading>, b: seq<Reading>, from: Id, metric: string, to: Id)
    requires |b| <= 1
    ensures MoveSeries(a + b, from, metric, to) == MoveSeries(a, from, metric, to) + MoveSeries(b, from, metric, to)
  {
    if b == [] { assert a + b == a; } else { assert (a + b)[..|a + b| - 1] == a; assert b == [b[0]]; }
  }

  lemma {:induction false} SourceStepRow(r: Reading, all: seq<Reading>, source: Id, target: Id, done: set<string>,
                                         metric: string)
    requires source != target && metric !in done && SourceWins(all, source, target, metric)
    ensures MoveSeries(DeleteSeries(PartialRow(r, all, source, target, done), target, metric), source, metric, target)
         == PartialRow(r, all, source, target, done + {metric})
  {
  }

  /** Deciding one more metric for the source. */
  lemma {:induction false} SourceStep(rows: seq<Reading>, all: seq<Reading>, source: Id, target: Id,
                                      done: set<string>, metric: string)
    requires source != target && metric !in done && SourceWins(all, source, target, metric)
    ensures MoveSeries(DeleteSeries(Partial(rows, all, source, target, done), target, metric), source, metric, target)
         == Partial(rows, all, source, target, done + {metric})
  {
    if rows != [] {
      var front, last := rows[..|rows| - 1], rows[|rows| - 1];
      SourceStep(front, all, source, target, done, metric);
      SourceStepRow(last, all, source, target, done, metric);
      var p, tail := Partial(front, all, source, target, done), PartialRow(last, all, source, target, done);
      DeleteSeriesAppend(p, tail, target, metric);
      MoveSeriesAppend(DeleteSeries(p, target, metric), DeleteSeries(tail, target, metric), source, metric, target);
    }
  }

  lemma {:induction false} TargetStepRow(r: Reading, all: seq<Reading>, source: Id, target: Id, done: set<string>,
                                         metric: string)
    requires source != target && metric !in done && !SourceWins(all, source, target, metric)
    ensures DeleteSeries(PartialRow(r, all, source, target, done), source, metric)
         == PartialRow(r, all, source, target, done + {metric})
  {
  }

  /** Deciding one more metric for the target. */
  lemma {:induction false} TargetStep(rows: seq<Reading>, all: seq<Reading>, source: Id, target: Id,
                                      done: set<string>, metric: string)
    requires source != target && metric !in done && !SourceWins(all, source, target, metric)
    ensures DeleteSeries(Partial(rows, all, source, target, done), source, metric)
         == Partial(rows, all, source, target, done + {metric})
  {
    if rows != [] {
      var front, last := rows[..|rows| - 1], rows[|rows| - 1];
      TargetStep(front, all, source, target, done, metric);
      TargetStepRow(last, all, source, target, done, metric);
      DeleteSeriesAppend(Partial(front, all, source, target, done), PartialRow(last, all, source, target, done),
                         source, metric);
    }
  }

  lemma RowKeepsMetric(r: Reading, all: seq<Reading>, source: Id, target: Id, done: set<string>)
    ensures var kept := PartialRow(r, all, source, target, done);
            kept != [] ==> kept[0].metric == r.metric && (r.metric !in done ==> kept[0] == r)
    ensures r.metric !in done ==> PartialRow(r, all, source, target, done) == [r]
  {
  }

  /** Deciding other metrics does not change when a metric was last read. */
  lemma {:induction false} PartialLatest(rows: seq<Reading>, all: seq<Reading>, source: Id, target: Id,
                                         done: set<string>, id: Id, metric: string)
    requires metric !in done
    ensures Latest(Partial(rows, all, source, target, done), id, metric) == Latest(rows, id, metric)
  {
    hide PartialRow;
    if rows != [] {
      var front, last := rows[..|rows| - 1], rows[|rows| - 1];
      RowKeepsMetric(last, all, source, target, done);
      PartialLatest(front, all, source, target, done, id, metric);
      var p := Partial(front, all, source, target, done);
      var w := Partial(rows, all, source, target, done);
      if |w| > |p| { assert w[..|w| - 1] == p; } else { assert w == p; }
    }
  }

  function Metrics(rows: seq<Reading>, id: Id): set<string> {
    set r | r in rows && r.device == id :: r.metric
  }

  lemma {:induction false} LatestKnown(rows: seq<Reading>, id: Id, metric: string)
    ensures Latest(rows, id, metric).Some? <==> metric in Metrics(rows, id)
  {
    if rows != [] {
      var front, last := rows[..|rows| - 1], rows[|rows| - 1];
      assert rows == front + [last];
      LatestKnown(front, id, metric);
    }
  }

  predicate IsShared(rows: seq<Reading>, source: Id, target: Id, metric: string) {
    Latest(rows, source, metric).Some? && Latest(rows, target, metric).Some?
  }

  lemma PartialAllRow(r: Reading, all: seq<Reading>, source: Id, target: Id, shared: set<string>)
    requires source != target && shared == Metrics(all, source) * Metrics(all, target) && r in all
    ensures MoveReadings(PartialRow(r, all, source, target, shared), source, target) ==
            MergedRow(r, all, source, target)
  {
    hide Latest;
    LatestKnown(all, source, r.metric);
    LatestKnown(all, target, r.metric);
    assert r.device == source ==> r.metric in Metrics(all, source);
    assert r.device == target ==> r.metric in Metrics(all, target);
  }

  lemma MoveBoth(a: seq<Reading>, b: seq<Reading>, from: Id, to: Id)
    ensures MoveReadings(a + b, from, to) == MoveReadings(a, from, to) + MoveReadings(b, from, to)
    ensures MoveReadings([], from, to) == []
  {
  }

  /** After all shared metrics are decided, handing over what is left of the source finishes the merge. */
  lemma {:induction false} PartialAll(rows: seq<Reading>, all: seq<Reading>, source: Id, target: Id,
                                      shared: set<string>)
    requires source != target && shared == Metrics(all, source) * Metrics(all, target)
    requires forall r :: r in rows ==> r in all
    ensures MoveReadings(Partial(rows, all, source, target, shared), source, target)
         == MergedPrefix(rows, all, source, target)
  {
    hide Metrics, PartialRow, MergedRow, MoveReadings;
    MoveBoth([], [], source, target);
    if rows != [] {
      var front, last := rows[..|rows| - 1], rows[|rows| - 1];
      MoveBoth(Partial(front, all, source, target, shared), PartialRow(last, all, source, target, shared), source,
               target);
      PartialAll(front, all, source, target, shared);
      PartialAllRow(last, all, source, target, shared);
    }
  }

  // ------------------------------------------------------ what a merge leaves

  /** The readings of one metric of one device, oldest row first. */
  function Series(rows: seq<Reading>, id: Id, metric: string): seq<(int, real)> {
    if rows == [] then []
    else
      var r := rows[|rows| - 1];
      Series(rows[..|rows| - 1], id, metric) + if r.device == id && r.metric == metric then [(r.time, r.value)] else []
  }

  lemma {:induction false} SeriesAppend(a: seq<Reading>, b: seq<Reading>, id: Id, metric: string)
    requires |b| <= 1
    ensures Series(a + b, id, metric) == Series(a, id, metric) + Series(b, id, metric)
  {
    if b == [] { assert a + b == a; } else { assert (a + b)[..|a + b| - 1] == a; assert b == [b[0]]; }
  }

  function MergedSide(all: seq<Reading>, source: Id, target: Id, id: Id, metric: string): (side: Option<Id>) {
    if id == source then None
    else if id == target && SourceWins(all, source, target, metric) then Some(source)
    else Some(id)
  }

  lemma {:induction false} MergedSeriesRow(r: Reading, all: seq<Reading>, source: Id, target: Id, id: Id,
                                           metric: string)
    requires source != target
    ensures var side := MergedSide(all, source, target, id, metric);
            Series(MergedRow(r, all, source, target), id, metric) ==
            if side.None? then [] else Series([r], side.value, metric)
  {
  }

  lemma {:induction false} MergedSeries(rows: seq<Reading>, all: seq<Reading>, source: Id, target: Id, id: Id,
                                        metric: string)
    requires source != target
    ensures var side := MergedSide(all, source, target, id, metric);
            Series(MergedPrefix(rows, all, source, target), id, metric) ==
            if side.None? then [] else Series(rows, side.value, metric)
  {
    hide MergedSide, MergedRow;
    if rows != [] {
      var front, last := rows[..|rows| - 1], rows[|rows| - 1];
      MergedSeries(front, all, source, target, id, metric);
      MergedSeriesRow(last, all, source, target, id, metric);
      SeriesAppend(MergedPrefix(front, all, source, target), MergedRow(last, all, source, target), id, metric);
      var side := MergedSide(all, source, target, id, metric);
      if side.Some? { assert rows == front + [last]; SeriesAppend(front, [last], side.value, metric); }
    }
  }

  /** The source has a reading of the metric that is later than every one the target has. */
  ghost predicate ReadLast(rows: seq<Reading>, source: Id, target: Id, metric: string) {
    exists i :: 0 <= i < |rows| && rows[i].device == source && rows[i].metric == metric &&
                forall j :: 0 <= j < |rows| && rows[j].device == target && rows[j].metric == metric ==>
                  rows[i].time > rows[j].time
  }

  lemma {:induction false} LatestBounds(rows: seq<Reading>, id: Id, metric: string)
    ensures var latest := Latest(rows, id, metric);
            && (latest.Some? ==> exists i :: 0 <= i < |rows| && rows[i].device == id && rows[i].metric == metric &&
                                             rows[i].time == latest.value)
            && (forall j :: 0 <= j < |rows| && rows[j].device == id && rows[j].metric == metric ==>
                  latest.Some? && rows[j].time <= latest.value)
  {
    if rows != [] {
      var front, last := rows[..|rows| - 1], rows[|rows| - 1];
      LatestBounds(front, id, metric);
      var latest := Latest(front, id, metric);
      if latest.Some? {
        var i :| 0 <= i < |front| && front[i].device == id && front[i].metric == metric &&
                 front[i].time == latest.value;
        assert rows[i] == front[i];
      }
    }
  }

  lemma SourceWinsMeans(rows: seq<Reading>, source: Id, target: Id, metric: string)
    ensures SourceWins(rows, source, target, metric) <==> ReadLast(rows, source, target, metric)
  {
    hide Latest;
    LatestBounds(rows, source, metric);
    LatestBounds(rows, target, metric);
  }

  /** Per metric the target ends with the whole series of the side that read it last (the target on a
      tie), the source with nothing, and every other device with what it had. */
  lemma {:induction false} MergeKeepsWinners(s: State, source: Id, target: Id, id: Id, metric: string)
    requires source in s.devices && target in s.devices && source != target
    ensures var after := Merge(s, source, target).readings;
            && Series(after, source, metric) == []
            && (id != source && id != target ==> Series(after, id, metric) == Series(s.readings, id, metric))
            && Series(after, target, metric) ==
               Series(s.readings, if ReadLast(s.readings, source, target, metric) then source else target, metric)
  {
    hide SourceWins, ReadLast;
    SourceWinsMeans(s.readings, source, target, metric);
    MergedSeries(s.readings, s.readings, source, target, source, metric);
    MergedSeries(s.readings, s.readings, source, target, target, metric);
    MergedSeries(s.readings, s.readings, source, target, id, metric);
  }

  function Newest(series: seq<(int, real)>): Option<int> {
    if series == [] then None
    else
      var before := Newest(series[..|series| - 1]);
      var t := series[|series| - 1].0;
      if before.None? || t >= before.value then Some(t) else before
  }

  lemma {:induction false} LatestIsNewest(rows: seq<Reading>, id: Id, metric: string)
    ensures Latest(rows, id, metric) == Newest(Series(rows, id, metric))
  {
    if rows != [] {
      LatestIsNewest(rows[..|rows| - 1], id, metric);
      var p, w := Series(rows[..|rows| - 1], id, metric), Series(rows, id, metric);
      if |w| > |p| { assert w[..|w| - 1] == p; } else { assert w == p; }
    }
  }

  /** No metric loses its most recent reading. */
  lemma {:induction false} MergeKeepsLatest(s: State, source: Id, target: Id, metric: string)
    requires source in s.devices && target in s.devices && source != target
    ensures Latest(Merge(s, source, target).readings, target, metric) ==
            Later(Latest(s.readings, source, metric), Latest(s.readings, target, metric))
  {
    SourceWinsMeans(s.readings, source, target, metric);
    MergeKeepsWinners(s, source, target, target, metric);
    LatestIsNewest(Merge(s, source, target).readings, target, metric);
    LatestIsNewest(s.readings, source, metric);
    LatestIsNewest(s.readings, target, metric);
  }
}
