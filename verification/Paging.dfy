/** The read API's bounded window and limit+1 paging, and the documented client loop over it. */
module Paging {
  import opened Domain

  const DEFAULT_LIMIT: int := 1000
  const MAX_LIMIT: int := 10000
  const MAX_RANGE: int := 366 * 86400 * SECOND

  /** The `limit` parameter, None when it is missing or not a number. */
  function ParseLimit(raw: Option<int>): (limit: int)
    ensures 1 <= limit <= 10000
    ensures raw.None? ==> limit == 1000
    ensures raw.Some? && 1 <= raw.value <= 10000 ==> limit == raw.value
    ensures raw.Some? && raw.value < 1 ==> limit == 1
    ensures raw.Some? && raw.value > 10000 ==> limit == 10000
  {
    var n := if raw.Some? then raw.value else DEFAULT_LIMIT;
    if n < 1 then 1 else if n > MAX_LIMIT then MAX_LIMIT else n
  }

  predicate RangeOk(start: int, end: int) { start < end && end - start <= MAX_RANGE }

  // -------------------------------------------------------------------- order

  predicate StringLeq(a: string, b: string) {
    a == "" || (b != "" && (a[0] < b[0] || (a[0] == b[0] && StringLeq(a[1..], b[1..]))))
  }

  lemma {:induction false} StringTotal(a: string, b: string)
    ensures StringLeq(a, b) || StringLeq(b, a)
    ensures StringLeq(a, b) && StringLeq(b, a) ==> a == b
  {
    if a != "" && b != "" && a[0] == b[0] {
      StringTotal(a[1..], b[1..]);
      assert a == [a[0]] + a[1..] && b == [b[0]] + b[1..];
    }
  }

  lemma {:induction false} StringTrans(a: string, b: string, c: string)
    requires StringLeq(a, b) && StringLeq(b, c)
    ensures StringLeq(a, c)
  {
    if a != "" && b != "" && c != "" && a[0] == b[0] == c[0] { StringTrans(a[1..], b[1..], c[1..]); }
  }

  /** Ordered by time, then device, then metric. */
  predicate Leq(a: Reading, b: Reading) {
    a.time < b.time ||
    (a.time == b.time &&
     if a.device == b.device then StringLeq(a.metric, b.metric) else StringLeq(a.device, b.device))
  }

  lemma LeqTotal(a: Reading, b: Reading)
    ensures Leq(a, b) || Leq(b, a)
  {
    StringTotal(a.device, b.device);
    StringTotal(a.metric, b.metric);
  }

  lemma LeqTrans(a: Reading, b: Reading, c: Reading)
    requires Leq(a, b) && Leq(b, c)
    ensures Leq(a, c)
  {
    if a.time == b.time == c.time {
      StringTotal(a.device, b.device);
      StringTotal(b.device, c.device);
      if a.device != b.device && b.device != c.device {
        StringTrans(a.device, b.device, c.device);
        StringTotal(a.device, c.device);
      }
      if a.device == b.device == c.device { StringTrans(a.metric, b.metric, c.metric); }
    }
  }

  function Insert(rows: seq<Reading>, r: Reading): seq<Reading> {
    if rows == [] || Leq(rows[|rows| - 1], r) then rows + [r]
    else Insert(rows[..|rows| - 1], r) + [rows[|rows| - 1]]
  }

  function Sort(rows: seq<Reading>): seq<Reading> {
    if rows == [] then [] else Insert(Sort(rows[..|rows| - 1]), rows[|rows| - 1])
  }

  predicate Sorted(rows: seq<Reading>) { forall i, j :: 0 <= i < j < |rows| ==> Leq(rows[i], rows[j]) }

  lemma {:induction false} InsertSorted(rows: seq<Reading>, r: Reading)
    requires Sorted(rows)
    ensures Sorted(Insert(rows, r))
    ensures multiset(Insert(rows, r)) == multiset(rows) + multiset{r}
  {
    if rows == [] {
    } else if Leq(rows[|rows| - 1], r) {
      forall i | 0 <= i < |rows| ensures Leq(rows[i], r) {
        if i < |rows| - 1 { LeqTrans(rows[i], rows[|rows| - 1], r); }
      }
    } else {
      var front, last := rows[..|rows| - 1], rows[|rows| - 1];
      assert rows == front + [last];
      InsertSorted(front, r);
      LeqTotal(r, last);
      var p := Insert(front, r);
      forall i | 0 <= i < |p| ensures Leq(p[i], last) {
        assert p[i] in multiset(p);
        if p[i] != r { assert p[i] in multiset(front); }
      }
    }
  }

  lemma {:induction false} SortSorts(rows: seq<Reading>)
    ensures Sorted(Sort(rows)) && multiset(Sort(rows)) == multiset(rows)
  {
    if rows != [] {
      assert rows == rows[..|rows| - 1] + [rows[|rows| - 1]];
      SortSorts(rows[..|rows| - 1]);
      InsertSorted(Sort(rows[..|rows| - 1]), rows[|rows| - 1]);
    }
  }

  // ------------------------------------------------------------------- query

  /** What a request filters on besides its window: the approved devices and, maybe, one metric. */
  datatype Scope = Scope(devices: set<Id>, metric: Option<string>)

  predicate Selects(scope: Scope, start: int, end: int, r: Reading) {
    && r.device in scope.devices
    && (scope.metric.Some? ==> r.metric == scope.metric.value)
    && start <= r.time <= end
  }

  function Filter(table: seq<Reading>, scope: Scope, start: int, end: int): seq<Reading> {
    if table == [] then []
    else
      var r := table[|table| - 1];
      Filter(table[..|table| - 1], scope, start, end) + if Selects(scope, start, end, r) then [r] else []
  }

  function Query(table: seq<Reading>, scope: Scope, start: int, end: int): seq<Reading> {
    Sort(Filter(table, scope, start, end))
  }

  datatype Response = BadRequest | Page(rows: seq<Reading>, hasMore: bool)

  /** One request: fetch limit + 1 rows to see whether more exist, return at most limit. */
  function ReadingsView(table: seq<Reading>, scope: Scope, start: int, end: int, limit: int): Response
    requires limit >= 1
  {
    if !RangeOk(start, end) then BadRequest
    else
      var all := Query(table, scope, start, end);
      var rows := if |all| > limit + 1 then all[..limit + 1] else all;
      var hasMore := |rows| > limit;
      Page(if hasMore then rows[..limit] else rows, hasMore)
  }

  /** How often a row belongs into the answer: as often as the table holds it, when its device is in scope, its metric
      is the one asked for (if one was) and its time lies in the window, both ends included. */
  function Wanted(table: seq<Reading>, scope: Scope, start: int, end: int, r: Reading): nat {
    if r.device in scope.devices && (scope.metric == None || scope.metric == Some(r.metric)) &&
       start <= r.time && r.time <= end
    then multiset(table)[r] else 0
  }

  lemma {:induction false} FilterCounts(table: seq<Reading>, scope: Scope, start: int, end: int, r: Reading)
    ensures multiset(Filter(table, scope, start, end))[r] == Wanted(table, scope, start, end, r)
  {
    if table != [] {
      var front, last := table[..|table| - 1], table[|table| - 1];
      assert table == front + [last];
      FilterCounts(front, scope, start, end, r);
    }
  }

  /** The query holds exactly the rows asked for. */
  lemma {:induction false} QueryHolds(table: seq<Reading>, scope: Scope, start: int, end: int, r: Reading)
    ensures multiset(Query(table, scope, start, end))[r] == Wanted(table, scope, start, end, r)
  {
    hide Filter, Sort;
    FilterCounts(table, scope, start, end, r);
    SortSorts(Filter(table, scope, start, end));
  }

  /** `a` comes before `b` letter by letter, or is the same. */
  ghost predicate Alphabetic(a: string, b: string) {
    exists k :: 0 <= k <= |a| && k <= |b| && a[..k] == b[..k] && (k == |a| || (k < |b| && a[k] < b[k]))
  }

  lemma {:induction false} AlphabeticIs(a: string, b: string)
    requires StringLeq(a, b)
    ensures Alphabetic(a, b)
  {
    if a == "" {
      assert a[..0] == b[..0];
    } else if a[0] < b[0] {
      assert a[..0] == b[..0];
    } else {
      AlphabeticIs(a[1..], b[1..]);
      var k :| 0 <= k <= |a[1..]| && k <= |b[1..]| && a[1..][..k] == b[1..][..k] &&
               (k == |a[1..]| || (k < |b[1..]| && a[1..][k] < b[1..][k]));
      assert a[..k + 1] == [a[0]] + a[1..][..k] && b[..k + 1] == [b[0]] + b[1..][..k];
    }
  }

  /** Rows come by time, rows of one time by device, rows of one time and device by metric. */
  lemma {:induction false} QueryIsOrdered(table: seq<Reading>, scope: Scope, start: int, end: int, i: nat, j: nat)
    requires i < j < |Query(table, scope, start, end)|
    ensures var a, b := Query(table, scope, start, end)[i], Query(table, scope, start, end)[j];
            && a.time <= b.time
            && (a.time == b.time ==> Alphabetic(a.device, b.device))
            && (a.time == b.time && a.device == b.device ==> Alphabetic(a.metric, b.metric))
  {
    hide Filter, Sort, Alphabetic;
    SortSorts(Filter(table, scope, start, end));
    var a, b := Query(table, scope, start, end)[i], Query(table, scope, start, end)[j];
    if a.time == b.time {
      SameIsAlphabetic(a.device);
      if a.device == b.device { AlphabeticIs(a.metric, b.metric); } else { AlphabeticIs(a.device, b.device); }
    }
  }

  lemma SameIsAlphabetic(a: string)
    ensures Alphabetic(a, a)
  {
    assert a[..|a|] == a[..|a|];
  }

  /** A request is refused exactly when its window is empty or longer than 366 days. */
  lemma RefusedExactly(table: seq<Reading>, scope: Scope, start: int, end: int, limit: int)
    requires limit >= 1
    ensures ReadingsView(table, scope, start, end, limit).BadRequest? <==>
              start >= end || end - start > 366 * 24 * 3600 * 1_000_000
  {
    hide Query;
  }

  // -------------------------------------------------------- later windows are suffixes

  function From(rows: seq<Reading>, t: int): (n: nat)
    ensures n <= |rows|
    ensures forall i :: 0 <= i < n ==> rows[i].time < t
    ensures n < |rows| ==> rows[n].time >= t
  {
    if rows == [] || rows[0].time >= t then 0 else 1 + From(rows[1..], t)
  }

  function Keep(rows: seq<Reading>, t: int): seq<Reading> {
    if rows == [] then []
    else Keep(rows[..|rows| - 1], t) + if rows[|rows| - 1].time >= t then [rows[|rows| - 1]] else []
  }

  lemma Times(rows: seq<Reading>, i: int, j: int)
    requires Sorted(rows) && 0 <= i <= j < |rows|
    ensures rows[i].time <= rows[j].time
  {
  }

  lemma {:induction false} FromIs(rows: seq<Reading>, t: int, k: int)
    requires 0 <= k <= |rows| && (forall i :: 0 <= i < k ==> rows[i].time < t) && (k < |rows| ==> rows[k].time >= t)
    ensures From(rows, t) == k
  {
  }

  lemma {:induction false} KeepAppend(rows: seq<Reading>, r: Reading, t: int)
    ensures Keep(rows + [r], t) == Keep(rows, t) + if r.time >= t then [r] else []
  {
  }

  lemma {:induction false} KeepNone(t: int)
    ensures Keep([], t) == [] && Sort([]) == []
  {
  }

  lemma {:induction false} SortAppend(rows: seq<Reading>, r: Reading)
    ensures Sort(rows + [r]) == Insert(Sort(rows), r)
  {
  }

  lemma {:induction false} KeepSorted(rows: seq<Reading>, t: int)
    requires Sorted(rows)
    ensures Keep(rows, t) == rows[From(rows, t)..]
  {
    hide Keep, Leq;
    if rows == [] {
      KeepNone(t);
    } else {
      var front, last := rows[..|rows| - 1], rows[|rows| - 1];
      assert rows == front + [last];
      KeepSorted(front, t);
      KeepAppend(front, last, t);
      if last.time < t {
        forall i | 0 <= i < |rows| ensures rows[i].time < t { Times(rows, i, |rows| - 1); }
        FromIs(rows, t, |rows|);
        FromIs(front, t, |front|);
      } else {
        var f := From(front, t);
        assert f < |front| ==> rows[f] == front[f];
        FromIs(rows, t, f);
        assert rows[f..] == front[f..] + [last];
      }
    }
  }

  lemma {:induction false} KeepFilter(table: seq<Reading>, scope: Scope, start: int, later: int, end: int)
    requires start <= later
    ensures Keep(Filter(table, scope, start, end), later) == Filter(table, scope, later, end)
  {
    if table != [] {
      var front := table[..|table| - 1];
      KeepFilter(front, scope, start, later, end);
      var f, w := Filter(front, scope, start, end), Filter(table, scope, start, end);
      if |w| > |f| { assert w[..|w| - 1] == f; } else { assert w == f; }
    }
  }

  lemma {:induction false} InsertLast(front: seq<Reading>, last: Reading, r: Reading)
    ensures Insert([], r) == [r]
    ensures Insert(front + [last], r) ==
            if Leq(last, r) then front + [last] + [r] else Insert(front, r) + [last]
  {
  }

  lemma {:induction false} KeepInsert(rows: seq<Reading>, r: Reading, t: int)
    requires Sorted(rows)
    ensures Keep(Insert(rows, r), t) == if r.time >= t then Insert(Keep(rows, t), r) else Keep(rows, t)
  {
    hide Keep, Insert, StringLeq;
    KeepNone(t);
    if rows == [] {
      InsertLast([], r, r);
      KeepAppend([], r, t);
    } else {
      var front, last := rows[..|rows| - 1], rows[|rows| - 1];
      assert rows == front + [last];
      InsertLast(front, last, r);
      KeepAppend(front, last, t);
      KeepInsert(front, r, t);
      KeepAppend(rows, r, t);
      KeepAppend(Insert(front, r), last, t);
      InsertLast(Keep(front, t), last, r);
      assert Keep(front, t) + [] == Keep(front, t) && Keep(rows, t) + [] == Keep(rows, t);
      assert [] + [r] == [r];
      if last.time < t {
        forall i | 0 <= i < |rows| ensures rows[i].time < t { Times(rows, i, |rows| - 1); }
        KeepSorted(rows, t);
        FromIs(rows, t, |rows|);
        assert rows[|rows|..] == [];
      }
    }
  }

  lemma {:induction false} KeepSort(rows: seq<Reading>, t: int)
    ensures Keep(Sort(rows), t) == Sort(Keep(rows, t))
  {
    hide Insert, Leq, Keep;
    if rows != [] {
      var front, last := rows[..|rows| - 1], rows[|rows| - 1];
      assert rows == front + [last];
      KeepSort(front, t);
      SortSorts(front);
      KeepInsert(Sort(front), last, t);
      KeepAppend(front, last, t);
      SortAppend(front, last);
      SortAppend(Keep(front, t), last);
      assert Keep(front, t) + [] == Keep(front, t);
    } else {
      KeepNone(t);
    }
  }

  /** Asking again from a later start returns the rest of the same list. */
  lemma {:induction false} LaterQuery(table: seq<Reading>, scope: Scope, start: int, later: int, end: int)
    requires start <= later
    ensures Sorted(Query(table, scope, start, end))
    ensures Query(table, scope, later, end) ==
            Query(table, scope, start, end)[From(Query(table, scope, start, end), later)..]
  {
    SortSorts(Filter(table, scope, start, end));
    KeepFilter(table, scope, start, later, end);
    KeepSort(Filter(table, scope, start, end), later);
    KeepSorted(Query(table, scope, start, end), later);
  }

  // -------------------------------------------------------------- client loop

  datatype Outcome = Done(rows: seq<Reading>) | Refused(rows: seq<Reading>) | Unfinished(rows: seq<Reading>)
  {
    function After(page: seq<Reading>): Outcome { this.(rows := page + rows) }
  }

  /** At most `fuel` requests, each starting at the last returned timestamp while more rows exist. */
  function Follow(table: seq<Reading>, scope: Scope, start: int, end: int, limit: int, fuel: nat): Outcome
    requires limit >= 1
    decreases fuel
  {
    if fuel == 0 then Unfinished([])
    else
      match ReadingsView(table, scope, start, end, limit)
      case BadRequest => Refused([])
      case Page(rows, hasMore) =>
        if !hasMore then Done(rows)
        else Follow(table, scope, rows[|rows| - 1].time, end, limit, fuel - 1).After(rows)
  }

  /** Timestamp `t` carries a full page of rows or more, and more rows than a page exist from it on. */
  predicate Overfull(rows: seq<Reading>, limit: int, t: int) {
    From(rows, t + 1) - From(rows, t) >= limit && |rows| - From(rows, t) > limit
  }

  /** Following the cursor from row `f` of the sorted list runs into the end of the window: some page that is not the
      last ends on a row at the end. */
  predicate ReachesEnd(rows: seq<Reading>, limit: int, end: int, f: int)
    requires limit >= 1 && 0 <= f <= |rows|
    decreases |rows| - f
  {
    |rows| - f > limit &&
    (rows[f + limit - 1].time >= end ||
     (From(rows, rows[f + limit - 1].time) > f && ReachesEnd(rows, limit, end, From(rows, rows[f + limit - 1].time))))
  }

  /** A request from a later cursor returns the next rows of the first request's list. */
  lemma {:induction false} PageIs(table: seq<Reading>, scope: Scope, start: int, cursor: int, end: int, limit: int)
    requires RangeOk(start, end) && start <= cursor < end && limit >= 1
    ensures var all := Query(table, scope, start, end);
            var f := From(all, cursor);
            && Sorted(all)
            && ReadingsView(table, scope, cursor, end, limit) ==
               (if |all| - f > limit then Page(all[f..f + limit], true) else Page(all[f..], false))
  {
    hide Query, From, Sorted;
    LaterQuery(table, scope, start, cursor, end);
    var all := Query(table, scope, start, end);
    var f := From(all, cursor);
    if |all| - f > limit {
      assert all[f..][..limit] == all[f..f + limit] && all[f..][..limit + 1][..limit] == all[f..f + limit];
    }
  }

  lemma {:induction false} FromMonotone(rows: seq<Reading>, t: int, u: int)
    requires Sorted(rows) && t <= u
    ensures From(rows, t) <= From(rows, u)
  {
  }

  lemma {:induction false} FromBound(rows: seq<Reading>, t: int, i: int)
    requires Sorted(rows) && 0 <= i < |rows|
    ensures rows[i].time >= t ==> From(rows, t) <= i
    ensures rows[i].time < t ==> From(rows, t) > i
  {
  }

  /** Where the next request starts: past the current timestamp, and not past the page. */
  lemma NextCursor(rows: seq<Reading>, cursor: int, limit: int)
    requires Sorted(rows) && limit >= 1
    requires |rows| - From(rows, cursor) > limit
    ensures var f := From(rows, cursor);
            var next := rows[f + limit - 1].time;
            && cursor <= next
            && From(rows, next) <= f + limit - 1
            && From(rows, next + 1) >= f + limit
            && (!Overfull(rows, limit, rows[f].time) ==>
                  f < From(rows, rows[f].time + 1) <= From(rows, next))
  {
    hide Sorted, From;
    var f := From(rows, cursor);
    var now, next := rows[f].time, rows[f + limit - 1].time;
    FromBefore(rows, cursor, f);
    Times(rows, f, f + limit - 1);
    FromBound(rows, next, f + limit - 1);
    FromBound(rows, next + 1, f + limit - 1);
    FromIs(rows, now, f);
    FromBound(rows, now + 1, f);
    if now < next { FromMonotone(rows, now + 1, next); }
  }

  // ------------------------------------------------------------ completeness

  function Occurs(rows: seq<Reading>, from: int, to: int, r: Reading): nat
    requires 0 <= from <= to <= |rows|
  {
    multiset(rows[from..to])[r]
  }

  lemma OccursSplit(rows: seq<Reading>, a: int, b: int, c: int, r: Reading)
    requires 0 <= a <= b <= c <= |rows|
    ensures Occurs(rows, a, c, r) == Occurs(rows, a, b, r) + Occurs(rows, b, c, r)
  {
    assert rows[a..c] == rows[a..b] + rows[b..c];
  }

  /** From index `f` on every row is returned, the first timestamp's rows once and the others at most twice. */
  ghost predicate Covers(rows: seq<Reading>, f: int, out: seq<Reading>, r: Reading)
    requires 0 <= f <= |rows|
  {
    var e := if f < |rows| then Max(f, From(rows, rows[f].time + 1)) else f;
    && multiset(out)[r] >= Occurs(rows, f, |rows|, r)
    && multiset(out)[r] <= Occurs(rows, f, e, r) + 2 * Occurs(rows, e, |rows|, r)
  }

  lemma LastPageCovers(rows: seq<Reading>, f: int, r: Reading)
    requires 0 <= f <= |rows|
    ensures Covers(rows, f, rows[f..], r)
  {
    var e := if f < |rows| then Max(f, From(rows, rows[f].time + 1)) else f;
    assert rows[f..] == rows[f..|rows|];
    OccursSplit(rows, f, e, |rows|, r);
  }

  lemma {:induction false} PageCovers(rows: seq<Reading>, f: int, limit: int, next: int, out: seq<Reading>, r: Reading)
    requires 0 <= f && limit >= 1 && f + limit <= |rows| && Sorted(rows)
    requires var e := From(rows, rows[f].time + 1);
             f < e <= next <= f + limit - 1 && From(rows, rows[next].time + 1) >= f + limit
    requires Covers(rows, next, out, r)
    ensures Covers(rows, f, rows[f..f + limit] + out, r)
  {
    hide From, Sorted, Occurs;
    var n, e, e' := |rows|, From(rows, rows[f].time + 1), From(rows, rows[next].time + 1);
    OccursAppend(rows, f, f + limit, out, r);
    OccursSplit(rows, f, e, n, r);
    OccursSplit(rows, f, e, f + limit, r);
    OccursSplit(rows, f, f + limit, n, r);
    OccursSplit(rows, next, f + limit, n, r);
    OccursSplit(rows, e, f + limit, e', r);
    OccursSplit(rows, e, next, e', r);
    OccursSplit(rows, e, e', n, r);
    OccursSplit(rows, next, e', n, r);
  }

  lemma OccursAppend(rows: seq<Reading>, a: int, b: int, out: seq<Reading>, r: Reading)
    requires 0 <= a <= b <= |rows|
    ensures multiset(rows[a..b] + out)[r] == Occurs(rows, a, b, r) + multiset(out)[r]
  {
  }

  /** A page that is not the last, when nothing stands in the way: the next request starts later and before the end. */
  lemma FreeCursor(rows: seq<Reading>, cursor: int, end: int, limit: int)
    requires Sorted(rows) && limit >= 1 && |rows| - From(rows, cursor) > limit
    requires (forall t :: !Overfull(rows, limit, t)) && !ReachesEnd(rows, limit, end, From(rows, cursor))
    ensures var f := From(rows, cursor);
            var next := rows[f + limit - 1].time;
            && cursor <= next < end && !ReachesEnd(rows, limit, end, From(rows, next))
            && f < From(rows, rows[f].time + 1) <= From(rows, next) <= f + limit - 1
            && From(rows, next + 1) >= f + limit
  {
    hide Sorted, From, Overfull;
    assert !Overfull(rows, limit, rows[From(rows, cursor)].time);
    NextCursor(rows, cursor, limit);
  }

  /** Without an overfull timestamp, and unless it runs into the end of the window, the loop finishes within one
      request per remaining row and covers them all. */
  lemma {:induction false} FollowCompletes(table: seq<Reading>, scope: Scope, start: int, cursor: int, end: int,
                                           limit: int, fuel: nat, r: Reading)
    requires RangeOk(start, end) && start <= cursor < end && limit >= 1
    requires var all := Query(table, scope, start, end);
             && (forall t :: !Overfull(all, limit, t)) && !ReachesEnd(all, limit, end, From(all, cursor))
             && fuel > |all| - From(all, cursor)
    ensures var all := Query(table, scope, start, end);
            var outcome := Follow(table, scope, cursor, end, limit, fuel);
            outcome.Done? && Covers(all, From(all, cursor), outcome.rows, r)
    decreases fuel
  {
    hide Query, From, Sorted, ReadingsView, Covers, Overfull, ReachesEnd;
    var all := Query(table, scope, start, end);
    var f := From(all, cursor);
    PageIs(table, scope, start, cursor, end, limit);
    if |all| - f > limit {
      var next := all[f + limit - 1].time;
      FreeCursor(all, cursor, end, limit);
      FollowCompletes(table, scope, start, next, end, limit, fuel - 1, r);
      FromTime(all, next, f + limit - 1);
      PageCovers(all, f, limit, From(all, next), Follow(table, scope, next, end, limit, fuel - 1).rows, r);
    } else {
      LastPageCovers(all, f, r);
    }
  }

  lemma {:induction false} FromTime(rows: seq<Reading>, t: int, i: int)
    requires Sorted(rows) && 0 <= i < |rows| && rows[i].time == t
    ensures From(rows, t) < |rows| && rows[From(rows, t)].time == t
  {
  }

  /** An overfull timestamp is never passed: unless the loop runs into the end of the window, it asks for the same page
      for ever. */
  lemma NextIsFree(rows: seq<Reading>, cursor: int, end: int, limit: int)
    requires limit >= 1 && |rows| - From(rows, cursor) > limit && !ReachesEnd(rows, limit, end, From(rows, cursor))
    requires Sorted(rows) && cursor <= rows[From(rows, cursor) + limit - 1].time
    ensures var next := rows[From(rows, cursor) + limit - 1].time;
            next < end && !ReachesEnd(rows, limit, end, From(rows, next))
  {
    hide From, Sorted;
    FromMonotone(rows, cursor, rows[From(rows, cursor) + limit - 1].time);
  }

  lemma {:induction false} FollowStuck(table: seq<Reading>, scope: Scope, start: int, cursor: int, end: int,
                                       limit: int, fuel: nat, t: int)
    requires RangeOk(start, end) && start <= cursor <= t && limit >= 1
    requires Overfull(Query(table, scope, start, end), limit, t)
    ensures var all := Query(table, scope, start, end);
            var outcome := Follow(table, scope, cursor, end, limit, fuel);
            && !outcome.Done?
            && (cursor < end && !ReachesEnd(all, limit, end, From(all, cursor)) ==> outcome.Unfinished?)
    decreases fuel
  {
    hide Query, From, Sorted, ReadingsView, Overfull, ReachesEnd;
    if fuel > 0 {
      if cursor >= end {
        Beyond(table, scope, cursor, end, limit);
      } else {
        var all := Query(table, scope, start, end);
        var f := From(all, cursor);
        LaterQuery(table, scope, start, start, end);
        BeforeOverfull(all, cursor, limit, t);
        PageIs(table, scope, start, cursor, end, limit);
        var next := all[f + limit - 1].time;
        FollowStuck(table, scope, start, next, end, limit, fuel - 1, t);
        if !ReachesEnd(all, limit, end, f) { NextIsFree(all, cursor, end, limit); }
      }
    }
  }

  lemma ReachingCursor(rows: seq<Reading>, cursor: int, end: int, limit: int)
    requires Sorted(rows) && limit >= 1 && ReachesEnd(rows, limit, end, From(rows, cursor))
    ensures var f := From(rows, cursor);
            && |rows| - f > limit
            && var next := rows[f + limit - 1].time;
               && cursor <= next
               && (next < end ==> From(rows, next) > f && ReachesEnd(rows, limit, end, From(rows, next)))
  {
  }

  /** A loop that runs into the end of the window is refused there, within one request per remaining row. */
  lemma {:induction false} FollowRefused(table: seq<Reading>, scope: Scope, start: int, cursor: int, end: int,
                                         limit: int, fuel: nat)
    requires RangeOk(start, end) && start <= cursor < end && limit >= 1
    requires var all := Query(table, scope, start, end); ReachesEnd(all, limit, end, From(all, cursor))
    ensures var all := Query(table, scope, start, end);
            var outcome := Follow(table, scope, cursor, end, limit, fuel);
            !outcome.Done? && (fuel > |all| - From(all, cursor) ==> outcome.Refused?)
    decreases fuel
  {
    hide Query, From, Sorted, ReadingsView, ReachesEnd;
    if fuel > 0 {
      var all := Query(table, scope, start, end);
      var f := From(all, cursor);
      PageIs(table, scope, start, cursor, end, limit);
      ReachingCursor(all, cursor, end, limit);
      var next := all[f + limit - 1].time;
      if next >= end {
        Beyond(table, scope, next, end, limit);
      } else {
        FollowRefused(table, scope, start, next, end, limit, fuel - 1);
      }
    }
  }

  lemma Beyond(table: seq<Reading>, scope: Scope, cursor: int, end: int, limit: int)
    requires limit >= 1 && cursor >= end
    ensures ReadingsView(table, scope, cursor, end, limit) == BadRequest
  {
  }

  lemma {:induction false} BeforeOverfull(rows: seq<Reading>, cursor: int, limit: int, t: int)
    requires Sorted(rows) && limit >= 1 && cursor <= t && Overfull(rows, limit, t)
    ensures var f := From(rows, cursor);
            |rows| - f > limit && cursor <= rows[f + limit - 1].time <= t
  {
  }

  lemma {:induction false} FromBefore(rows: seq<Reading>, t: int, i: int)
    requires 0 <= i < |rows|
    ensures i < From(rows, t) ==> rows[i].time < t
    ensures i == From(rows, t) ==> rows[i].time >= t
  {
  }

  lemma {:induction false} FilterWindow(table: seq<Reading>, scope: Scope, start: int, end: int)
    ensures forall r :: r in Filter(table, scope, start, end) ==> Selects(scope, start, end, r)
  {
    if table != [] { FilterWindow(table[..|table| - 1], scope, start, end); }
  }

  lemma RowInWindow(table: seq<Reading>, scope: Scope, start: int, end: int, i: int)
    requires 0 <= i < |Query(table, scope, start, end)|
    ensures start <= Query(table, scope, start, end)[i].time <= end
  {
    hide Sort, Filter;
    var all := Query(table, scope, start, end);
    SortSorts(Filter(table, scope, start, end));
    FilterWindow(table, scope, start, end);
    assert all[i] in multiset(all);
    assert all[i] in Filter(table, scope, start, end);
  }

  lemma OverfullInWindow(table: seq<Reading>, scope: Scope, start: int, end: int, limit: int, t: int)
    requires limit >= 1 && Overfull(Query(table, scope, start, end), limit, t)
    ensures start <= t
  {
    hide Query, From;
    var all := Query(table, scope, start, end);
    var g := From(all, t);
    RowInWindow(table, scope, start, end, g);
    FromBefore(all, t + 1, g);
  }

  lemma {:induction false} WholeWindow(table: seq<Reading>, scope: Scope, start: int, end: int, out: seq<Reading>,
                                       r: Reading)
    requires var all := Query(table, scope, start, end); Covers(all, From(all, start), out, r)
    ensures multiset(Query(table, scope, start, end))[r] <= multiset(out)[r] <=
            2 * multiset(Query(table, scope, start, end))[r]
  {
    hide Query;
    var all := Query(table, scope, start, end);
    if all != [] { RowInWindow(table, scope, start, end, 0); }
    FromIs(all, start, 0);
    assert all[0..|all|] == all;
    var e := if 0 < |all| then Max(0, From(all, all[0].time + 1)) else 0;
    OccursSplit(all, 0, e, |all|, r);
  }

  /** Following the cursor terminates if and only if no timestamp is overfull and it does not run into the end of the
      window; every row asked for is then returned at least once and at most twice, and nothing else. It is refused
      exactly in the second case; otherwise it never ends. */
  lemma {:induction false} PagingCompletesExactly(table: seq<Reading>, scope: Scope, start: int, end: int, limit: int,
                                                  r: Reading)
    requires RangeOk(start, end) && limit >= 1
    ensures var all := Query(table, scope, start, end);
            var refused := ReachesEnd(all, limit, end, From(all, start));
            var completes := !refused && forall t :: !Overfull(all, limit, t);
            && ((exists fuel: nat :: Follow(table, scope, start, end, limit, fuel).Done?) <==> completes)
            && ((exists fuel: nat :: Follow(table, scope, start, end, limit, fuel).Refused?) <==> refused)
            && (completes ==>
                  var outcome := Follow(table, scope, start, end, limit, |all| + 1);
                  outcome.Done? && var n := Wanted(table, scope, start, end, r);
                  n <= multiset(outcome.rows)[r] <= 2 * n)
  {
    hide Query, From, Follow, Overfull, ReachesEnd, Wanted;
    QueryHolds(table, scope, start, end, r);
    var all := Query(table, scope, start, end);
    if ReachesEnd(all, limit, end, From(all, start)) {
      forall fuel: nat ensures !Follow(table, scope, start, end, limit, fuel).Done? {
        FollowRefused(table, scope, start, start, end, limit, fuel);
      }
      FollowRefused(table, scope, start, start, end, limit, |all| + 1);
    } else if forall t :: !Overfull(all, limit, t) {
      forall fuel: nat ensures !Follow(table, scope, start, end, limit, fuel).Refused? {
        NotRefused(table, scope, start, start, end, limit, fuel);
      }
      FollowCompletes(table, scope, start, start, end, limit, |all| + 1, r);
      WholeWindow(table, scope, start, end, Follow(table, scope, start, end, limit, |all| + 1).rows, r);
    } else {
      var t :| Overfull(all, limit, t);
      OverfullInWindow(table, scope, start, end, limit, t);
      forall fuel: nat ensures Follow(table, scope, start, end, limit, fuel).Unfinished? {
        FollowStuck(table, scope, start, start, end, limit, fuel, t);
      }
    }
  }

  lemma {:induction false} NotRefused(table: seq<Reading>, scope: Scope, start: int, cursor: int, end: int,
                                      limit: int, fuel: nat)
    requires RangeOk(start, end) && start <= cursor < end && limit >= 1
    requires var all := Query(table, scope, start, end);
             (forall t :: !Overfull(all, limit, t)) && !ReachesEnd(all, limit, end, From(all, cursor))
    ensures !Follow(table, scope, cursor, end, limit, fuel).Refused?
    decreases fuel
  {
    hide Query, From, Sorted, ReadingsView, Overfull, ReachesEnd;
    var all := Query(table, scope, start, end);
    var f := From(all, cursor);
    PageIs(table, scope, start, cursor, end, limit);
    if fuel > 0 && |all| - f > limit {
      FreeCursor(all, cursor, end, limit);
      NotRefused(table, scope, start, all[f + limit - 1].time, end, limit, fuel - 1);
    }
  }

  /** With at most one row at the exact end the loop never runs into it. */
  lemma {:induction false} OneAtEndIsFine(rows: seq<Reading>, limit: int, end: int, f: int)
    requires limit >= 1 && 0 <= f <= |rows| && |rows| - From(rows, end) <= 1
    ensures !ReachesEnd(rows, limit, end, f)
    decreases |rows| - f
  {
    hide From;
    if |rows| - f > limit {
      FromBefore(rows, end, f + limit - 1);
      var g := From(rows, rows[f + limit - 1].time);
      if g > f { OneAtEndIsFine(rows, limit, end, g); }
    }
  }

  /** A full page of rows at the exact end, behind any other row, makes the loop fail. */
  lemma {:induction false} RowsAtEndBlock(table: seq<Reading>, scope: Scope, start: int, end: int, limit: int,
                                          fuel: nat)
    requires RangeOk(start, end) && limit >= 1
    requires var all := Query(table, scope, start, end);
             |all| - From(all, end) >= limit && 0 < From(all, end)
    ensures !Follow(table, scope, start, end, limit, fuel).Done?
  {
    hide Query, From, Follow, Overfull, ReachesEnd;
    var all := Query(table, scope, start, end);
    if forall t :: !Overfull(all, limit, t) {
      FirstRow(table, scope, start, end);
      LaterQuery(table, scope, start, start, end);
      BlockReaches(all, limit, start, end);
    }
    PagingCompletesExactly(table, scope, start, end, limit, Reading(0, "", "", 0.0));
  }

  lemma {:induction false} FirstRow(table: seq<Reading>, scope: Scope, start: int, end: int)
    ensures From(Query(table, scope, start, end), start) == 0
  {
    hide Query;
    var all := Query(table, scope, start, end);
    if all != [] { RowInWindow(table, scope, start, end, 0); }
    FromIs(all, start, 0);
  }

  lemma {:induction false} BlockReaches(rows: seq<Reading>, limit: int, cursor: int, end: int)
    requires Sorted(rows) && limit >= 1 && (forall t :: !Overfull(rows, limit, t))
    requires |rows| - From(rows, end) >= limit && From(rows, cursor) < From(rows, end)
    ensures ReachesEnd(rows, limit, end, From(rows, cursor))
    decreases |rows| - From(rows, cursor)
  {
    hide From, Sorted, Overfull;
    var f := From(rows, cursor);
    var next := rows[f + limit - 1].time;
    assert !Overfull(rows, limit, rows[f].time);
    NextCursor(rows, cursor, limit);
    if next < end {
      FromTime(rows, next, f + limit - 1);
      FromBefore(rows, end, From(rows, next));
      FromBound(rows, end, From(rows, next));
      BlockReaches(rows, limit, next, end);
    }
  }

  // ----------------------------------------------------------- both failures occur

  lemma {:induction false} SelectsAll(table: seq<Reading>, scope: Scope, start: int, end: int)
    requires forall i :: 0 <= i < |table| ==> Selects(scope, start, end, table[i])
    ensures Filter(table, scope, start, end) == table
  {
    if table != [] { SelectsAll(table[..|table| - 1], scope, start, end); }
  }

  lemma {:induction false} SortedAlready(rows: seq<Reading>)
    requires Sorted(rows)
    ensures Sort(rows) == rows
  {
    if rows != [] { SortedAlready(rows[..|rows| - 1]); }
  }

  lemma GivenTable(table: seq<Reading>, scope: Scope, start: int, end: int)
    requires Sorted(table) && forall i :: 0 <= i < |table| ==> Selects(scope, start, end, table[i])
    ensures Query(table, scope, start, end) == table
  {
    SelectsAll(table, scope, start, end);
    SortedAlready(table);
  }

  /** Two readings of one instant and a later one, asked for two at a time: the same page comes back for ever. */
  lemma {:induction false} StuckTable(fuel: nat)
    ensures var table := [Reading(1, "a", "m", 0.0), Reading(1, "b", "m", 0.0), Reading(5, "a", "m", 0.0)];
            Follow(table, Scope({"a", "b"}, None), 0, 9, 2, fuel).Unfinished?
  {
    hide Follow, Query, From, Sorted;
    var table := [Reading(1, "a", "m", 0.0), Reading(1, "b", "m", 0.0), Reading(5, "a", "m", 0.0)];
    var scope := Scope({"a", "b"}, None);
    InTimeOrder(table, scope, 0, 9);
    GivenTable(table, scope, 0, 9);
    FromIs(table, 0, 0);
    FromIs(table, 1, 0);
    FromIs(table, 2, 2);
    FollowStuck(table, scope, 0, 0, 9, 2, fuel, 1);
  }

  lemma InTimeOrder(table: seq<Reading>, scope: Scope, start: int, end: int)
    requires forall i :: 0 <= i < |table| ==> Selects(Scope(scope.devices, None), start, end, table[i])
    requires scope.metric.None?
    requires forall i, j :: 0 <= i < j < |table| ==>
               table[i].time < table[j].time ||
               (table[i].time == table[j].time && table[i].device == "a" && table[j].device == "b")
    ensures Sorted(table) && forall i :: 0 <= i < |table| ==> Selects(scope, start, end, table[i])
  {
  }

  /** Two readings at the exact end behind two others, asked for three at a time: the second request is refused,
      although no timestamp is overfull. */
  lemma RefusedTable()
    ensures var table := [Reading(1, "a", "m", 0.0), Reading(2, "a", "m", 0.0),
                          Reading(9, "a", "m", 0.0), Reading(9, "b", "m", 0.0)];
            && Follow(table, Scope({"a", "b"}, None), 0, 9, 3, 5).Refused?
            && forall t :: !Overfull(table, 3, t)
  {
    hide Follow, Query, From, Sorted;
    var table := [Reading(1, "a", "m", 0.0), Reading(2, "a", "m", 0.0),
                  Reading(9, "a", "m", 0.0), Reading(9, "b", "m", 0.0)];
    var scope := Scope({"a", "b"}, None);
    InTimeOrder(table, scope, 0, 9);
    GivenTable(table, scope, 0, 9);
    FromIs(table, 0, 0);
    FollowRefused(table, scope, 0, 0, 9, 3, 5);
    forall t ensures !Overfull(table, 3, t) {
      if t <= 1 { FromIs(table, t, 0); FromIs(table, t + 1, if t < 1 then 0 else 1); }
    }
  }

  // ---------------------------------------------------------------- client loop

  /** One request of the loop: the last page, or a page whose last timestamp lies later in the list. */
  lemma OneRequest(table: seq<Reading>, scope: Scope, start: int, cursor: int, end: int, limit: int, fuel: nat)
    requires RangeOk(start, end) && start <= cursor < end && limit >= 1 && fuel > 0
    requires var all := Query(table, scope, start, end);
             ReachesEnd(all, limit, end, From(all, cursor)) || forall t :: !Overfull(all, limit, t)
    ensures var all := Query(table, scope, start, end);
            var page := ReadingsView(table, scope, cursor, end, limit);
            var reaches := ReachesEnd(all, limit, end, From(all, cursor));
            && page.Page?
            && (!page.hasMore ==> !reaches && Follow(table, scope, cursor, end, limit, fuel) == Done(page.rows))
            && (page.hasMore ==>
                  && page.rows != [] && |all| - From(all, cursor) > limit
                  && var next := page.rows[|page.rows| - 1].time;
                     && start <= next
                     && (next >= end ==> reaches)
                     && (next < end ==> From(all, next) > From(all, cursor) &&
                                        (ReachesEnd(all, limit, end, From(all, next)) <==> reaches))
                     && Follow(table, scope, cursor, end, limit, fuel) ==
                        Follow(table, scope, next, end, limit, fuel - 1).After(page.rows))
  {
    hide Query, From, Sorted, ReadingsView, Overfull, ReachesEnd;
    var all := Query(table, scope, start, end);
    PageIs(table, scope, start, cursor, end, limit);
    if ReachesEnd(all, limit, end, From(all, cursor)) {
      ReachingCursor(all, cursor, end, limit);
    } else if |all| - From(all, cursor) > limit {
      FreeCursor(all, cursor, end, limit);
    }
  }

  /** Every row asked for is in `out` at least once and at most twice, and nothing else is. */
  ghost predicate AllOnceOrTwice(table: seq<Reading>, scope: Scope, start: int, end: int, out: seq<Reading>) {
    forall r :: var n := Wanted(table, scope, start, end, r); n <= multiset(out)[r] <= 2 * n
  }

  lemma {:induction false} AllFetched(table: seq<Reading>, scope: Scope, start: int, end: int, limit: int)
    requires RangeOk(start, end) && limit >= 1
    requires var all := Query(table, scope, start, end);
             (forall t :: !Overfull(all, limit, t)) && !ReachesEnd(all, limit, end, From(all, start))
    ensures var all := Query(table, scope, start, end);
            AllOnceOrTwice(table, scope, start, end, Follow(table, scope, start, end, limit, |all| + 1).rows)
  {
    hide Query, From, Follow, Overfull, ReachesEnd, Wanted;
    var all := Query(table, scope, start, end);
    forall r ensures var n := Wanted(table, scope, start, end, r);
                     n <= multiset(Follow(table, scope, start, end, limit, |all| + 1).rows)[r] <= 2 * n
    {
      PagingCompletesExactly(table, scope, start, end, limit, r);
    }
  }

  lemma AfterTwice(o: Outcome, page: seq<Reading>, out: seq<Reading>)
    ensures o.After(page).After(out) == o.After(out + page)
  {
  }

  /** The documented client loop, wherever it ends at all: each request starts later in the list. It reports whether it
      was refused; when it was not, it returns every row. */
  method FetchAll(table: seq<Reading>, scope: Scope, start: int, end: int, limit: int)
    returns (out: seq<Reading>, refused: bool)
    requires RangeOk(start, end) && limit >= 1
    requires var all := Query(table, scope, start, end);
             ReachesEnd(all, limit, end, From(all, start)) || forall t :: !Overfull(all, limit, t)
    ensures var all := Query(table, scope, start, end);
            && refused == ReachesEnd(all, limit, end, From(all, start))
            && (!refused ==> AllOnceOrTwice(table, scope, start, end, out))
  {
    hide Query, From, Follow, ReadingsView, Overfull, ReachesEnd, AllOnceOrTwice;
    ghost var all := Query(table, scope, start, end);
    ghost var reaches := ReachesEnd(all, limit, end, From(all, start));
    ghost var goal := Follow(table, scope, start, end, limit, |all| + 1);
    ghost var fuel: nat := |all| + 1;
    var cursor := start;
    out, refused := [], false;
    AfterTwice(goal, [], []);
    assert [] + goal.rows == goal.rows;
    while true
      invariant start <= cursor && fuel > 0
      invariant cursor < end ==> fuel > |all| - From(all, cursor)
      invariant if cursor < end then ReachesEnd(all, limit, end, From(all, cursor)) == reaches else reaches
      invariant goal == Follow(table, scope, cursor, end, limit, fuel).After(out)
      decreases if cursor < end then |all| - From(all, cursor) + 1 else 0
    {
      var page := ReadingsView(table, scope, cursor, end, limit);
      if cursor < end {
        OneRequest(table, scope, start, cursor, end, limit, fuel);
      } else {
        Beyond(table, scope, cursor, end, limit);
      }
      if page.BadRequest? {
        refused := true;
        break;
      }
      out := out + page.rows;
      if !page.hasMore { break; }
      ghost var rest := Follow(table, scope, page.rows[|page.rows| - 1].time, end, limit, fuel - 1);
      AfterTwice(rest, page.rows, out[..|out| - |page.rows|]);
      assert out[..|out| - |page.rows|] + page.rows == out;
      cursor := page.rows[|page.rows| - 1].time;
      fuel := fuel - 1;
    }
    if !refused {
      assert goal == Done(out);
      AllFetched(table, scope, start, end, limit);
    }
  }
}
