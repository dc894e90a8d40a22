/**
 * The run-history table (api/db.py). The SQLite table `runs`, keyed by its primary key `id`,
 * is a map from id to row; `save_run` is an upsert, the readers are queries over that map.
 */
module Db {
  import opened Wrappers

  /** A run's configuration dict; stored in serialised form, which is left abstract. */
  type ConfigDict = map<string, string>

  /** One row of `runs`; every column except `id` and `status` may be NULL. */
  datatype RunRow = RunRow(
    id: string,
    status: string,
    config: Option<ConfigDict>,
    startedAt: Option<string>,
    completedAt: Option<string>,
    durationMs: Option<int>,
    artifactReport: Option<string>,
    artifactPlot: Option<string>,
    error: Option<string>)

  /** The arguments of `save_run` after `run_id`. */
  datatype SaveArgs = SaveArgs(
    status: string,
    config: Option<ConfigDict>,
    startedAt: Option<string>,
    completedAt: Option<string>,
    durationMs: Option<int>,
    artifactReport: Option<string>,
    artifactPlot: Option<string>,
    error: Option<string>)

  type Table = map<string, RunRow>

  /** Every row is stored under its own id. */
  ghost predicate WellKeyed(rows: Table) {
    forall k :: k in rows ==> rows[k].id == k
  }

  /** `json.dumps(config) if config else None`: `None` and the empty dict store NULL. */
  function StoredConfig(config: Option<ConfigDict>): (c: Option<ConfigDict>)
    ensures c.Some? <==> config.Some? && config.value != map[]
    ensures c.Some? ==> c.value == config.value
  {
    if config.Some? && |config.value| > 0 then config else None
  }

  /**
   * The `INSERT ... ON CONFLICT(id) DO UPDATE` of `save_run`: a new id gets a row with
   * every given field; an existing row keeps its config and start time and takes every
   * other field from the arguments, NULLs included. Other rows are untouched.
   */
  function Upsert(rows: Table, id: string, a: SaveArgs): (r: Table)
    ensures id in r && r.Keys == rows.Keys + {id}
    ensures forall k :: k in rows && k != id ==> r[k] == rows[k]
    ensures id !in rows ==>
      && |r| == |rows| + 1
      && r[id].id == id && r[id].status == a.status && r[id].config == StoredConfig(a.config)
      && r[id].startedAt == a.startedAt && r[id].completedAt == a.completedAt
      && r[id].durationMs == a.durationMs && r[id].artifactReport == a.artifactReport
      && r[id].artifactPlot == a.artifactPlot && r[id].error == a.error
    ensures id in rows ==>
      && |r| == |rows|
      && r[id].id == rows[id].id && r[id].config == rows[id].config && r[id].startedAt == rows[id].startedAt
      && r[id].status == a.status && r[id].completedAt == a.completedAt
      && r[id].durationMs == a.durationMs && r[id].artifactReport == a.artifactReport
      && r[id].artifactPlot == a.artifactPlot && r[id].error == a.error
  {
    if id in rows then
      rows[id := rows[id].(status := a.status, completedAt := a.completedAt, durationMs := a.durationMs,
                           artifactReport := a.artifactReport, artifactPlot := a.artifactPlot, error := a.error)]
    else
      rows[id := RunRow(id, a.status, StoredConfig(a.config), a.startedAt, a.completedAt, a.durationMs,
                        a.artifactReport, a.artifactPlot, a.error)]
  }

  /** Saving the same arguments twice leaves the table as saving them once. */
  lemma UpsertIdempotent(rows: Table, id: string, a: SaveArgs)
    ensures Upsert(Upsert(rows, id, a), id, a) == Upsert(rows, id, a)
  {
  }

  // ---------------------------------------------------------------------------------------
  // ORDER BY started_at DESC

  /** SQLite's BINARY collation on text: lexicographic by character. */
  predicate TextLe(a: string, b: string) {
    a == [] || (b != [] && (a[0] < b[0] || (a[0] == b[0] && TextLe(a[1..], b[1..]))))
  }

  lemma {:induction false} TextLeTotal(a: string, b: string)
    ensures TextLe(a, b) || TextLe(b, a)
  {
    if a != [] && b != [] && a[0] == b[0] {
      TextLeTotal(a[1..], b[1..]);
    }
  }

  lemma {:induction false} TextLeTransitive(a: string, b: string, c: string)
    requires TextLe(a, b) && TextLe(b, c)
    ensures TextLe(a, c)
  {
    if a != [] && b != [] && c != [] && a[0] == b[0] == c[0] {
      TextLeTransitive(a[1..], b[1..], c[1..]);
    }
  }

  /** Comparison of nullable text columns: NULL is smaller than every value. */
  predicate SqlLe(a: Option<string>, b: Option<string>) {
    a.None? || (b.Some? && TextLe(a.value, b.value))
  }

  /** Row `x` may follow row `y` in `ORDER BY started_at DESC`. */
  predicate StartedNoLater(x: RunRow, y: RunRow) {
    SqlLe(x.startedAt, y.startedAt)
  }

  lemma StartedNoLaterTotal(x: RunRow, y: RunRow)
    ensures StartedNoLater(x, y) || StartedNoLater(y, x)
  {
    if x.startedAt.Some? && y.startedAt.Some? {
      TextLeTotal(x.startedAt.value, y.startedAt.value);
    }
  }

  lemma StartedNoLaterTransitive(x: RunRow, y: RunRow, z: RunRow)
    requires StartedNoLater(x, y) && StartedNoLater(y, z)
    ensures StartedNoLater(x, z)
  {
    if x.startedAt.Some? {
      TextLeTransitive(x.startedAt.value, y.startedAt.value, z.startedAt.value);
    }
  }

  /** Latest start first, NULL start times last; ties in any order. */
  ghost predicate Descending(s: seq<RunRow>) {
    forall i, j :: 0 <= i < j < |s| ==> StartedNoLater(s[j], s[i])
  }

  /** Insert a row into a descending sequence, before the first row that started no later. */
  function Insert(s: seq<RunRow>, x: RunRow): seq<RunRow> {
    if s == [] then [x]
    else if StartedNoLater(s[0], x) then [x] + s
    else [s[0]] + Insert(s[1..], x)
  }

  lemma {:induction false} InsertKeepsOrder(s: seq<RunRow>, x: RunRow)
    requires Descending(s)
    ensures Descending(Insert(s, x))
    ensures multiset(Insert(s, x)) == multiset(s) + multiset{x}
    ensures |Insert(s, x)| == |s| + 1
  {
    if s == [] {
    } else if StartedNoLater(s[0], x) {
      forall j | 0 <= j < |s| ensures StartedNoLater(s[j], x) {
        if j > 0 { StartedNoLaterTransitive(s[j], s[0], x); }
      }
    } else {
      StartedNoLaterTotal(s[0], x);
      var t := s[1..];
      InsertKeepsOrder(t, x);
      var u := Insert(t, x);
      assert s == [s[0]] + t;
      forall j | 0 <= j < |u| ensures StartedNoLater(u[j], s[0]) {
        assert u[j] in multiset(u);
        assert u[j] in t || u[j] == x;
      }
    }
  }

  /** `order` lists exactly the rows of the table, in descending start order. */
  ghost predicate IsOrderOf(rows: Table, order: seq<RunRow>) {
    && Descending(order)
    && |order| == |rows|
    && (forall i :: 0 <= i < |order| ==> order[i].id in rows && rows[order[i].id] == order[i])
    && (forall id :: id in rows ==> rows[id] in order)
  }

  /** Halfway through sorting: the rows whose ids have left `pending` are in `sorted`, in order. */
  ghost predicate SortedPart(rows: Table, pending: set<string>, sorted: seq<RunRow>) {
    && pending <= rows.Keys
    && Descending(sorted)
    && |sorted| + |pending| == |rows|
    && (forall i :: 0 <= i < |sorted| ==>
          sorted[i].id in rows && sorted[i].id !in pending && rows[sorted[i].id] == sorted[i])
    && (forall id :: id in rows && id !in pending ==> rows[id] in sorted)
  }

  /** Moving one pending row into the sorted part keeps it sorted and complete. */
  lemma InsertPending(rows: Table, pending: set<string>, sorted: seq<RunRow>, k: string)
    requires WellKeyed(rows) && SortedPart(rows, pending, sorted) && k in pending
    ensures SortedPart(rows, pending - {k}, Insert(sorted, rows[k]))
  {
    InsertKeepsOrder(sorted, rows[k]);
    var next := Insert(sorted, rows[k]);
    forall i | 0 <= i < |next|
      ensures next[i].id in rows && next[i].id !in pending - {k} && rows[next[i].id] == next[i]
    {
      assert next[i] in multiset(next);
      assert next[i] in sorted || next[i] == rows[k];
    }
    forall id | id in rows && id !in pending - {k} ensures rows[id] in next {
      assert rows[id] in multiset(next);
    }
  }

  // ---------------------------------------------------------------------------------------
  // LIMIT / OFFSET

  /** SQLite's `LIMIT limit OFFSET offset`: a negative limit means no limit, a negative offset none. */
  function Window<T>(s: seq<T>, limit: int, offset: int): (r: seq<T>)
    ensures limit >= 0 && offset >= 0 ==>
      |r| == (if offset >= |s| then 0 else if limit < |s| - offset then limit else |s| - offset)
    ensures offset >= 0 && offset <= |s| ==> offset + |r| <= |s| && r == s[offset..offset + |r|]
    ensures limit < 0 && offset <= 0 ==> r == s
  {
    var lo := if offset < 0 then 0 else if offset > |s| then |s| else offset;
    var hi := if limit < 0 || lo + limit > |s| then |s| else lo + limit;
    s[lo..hi]
  }

  /** Two consecutive pages of size `limit` together form one page of size `2 * limit`. */
  lemma {:induction false} ConsecutivePages<T>(s: seq<T>, limit: nat, offset: nat)
    ensures Window(s, limit, offset) + Window(s, limit, offset + limit) == Window(s, 2 * limit, offset)
  {
    if offset + limit <= |s| {
      assert s[offset..offset + limit] + s[offset + limit..] == s[offset..];
      var w2 := Window(s, limit, offset + limit);
      assert s[offset..offset + limit] + w2 == s[offset..offset + limit + |w2|];
    }
  }

  /** What `get_run_history(limit, offset)` may return for this table. */
  ghost predicate IsHistoryPage(rows: Table, limit: int, offset: int, page: seq<RunRow>) {
    exists order :: IsOrderOf(rows, order) && page == Window(order, limit, offset)
  }

  // ---------------------------------------------------------------------------------------
  // Aggregates

  /** The dict `get_metrics` returns, without `avg_duration_ms`. */
  datatype Metrics = Metrics(totalRuns: nat, successful: nat, failed: nat, successRate: real)

  function RunsWithStatus(rows: Table, status: string): set<string> {
    set k | k in rows && rows[k].status == status
  }

  lemma {:induction false} SubsetCardinality(a: set<string>, b: set<string>)
    requires a <= b
    ensures |a| <= |b|
    decreases |b|
  {
    if a != {} {
      var x :| x in a;
      SubsetCardinality(a - {x}, b - {x});
    }
  }

  lemma StatusCountsBounded(rows: Table)
    ensures |RunsWithStatus(rows, "completed")| + |RunsWithStatus(rows, "failed")| <= |rows|
  {
    var c, f := RunsWithStatus(rows, "completed"), RunsWithStatus(rows, "failed");
    assert c !! f;
    assert |c + f| == |c| + |f|;
    SubsetCardinality(c + f, rows.Keys);
  }

  class RunStore {
    var rows: Table

    ghost predicate Valid()
      reads this
    {
      WellKeyed(rows)
    }

    /** `init_db()` on a fresh database: an empty `runs` table. */
    constructor ()
      ensures Valid() && rows == map[]
    {
      rows := map[];
    }

    /** `save_run(run_id, ...)`. */
    method SaveRun(runId: string, args: SaveArgs)
      requires Valid()
      modifies this
      ensures Valid()
      ensures rows == Upsert(old(rows), runId, args)
    {
      rows := Upsert(rows, runId, args);
    }

    /** `get_run_by_id(run_id)`: the row stored under the id, or `None`. */
    function GetRunById(runId: string): (r: Option<RunRow>)
      reads this
      requires Valid()
      ensures r.Some? <==> runId in rows
      ensures r.Some? ==> r.value == rows[runId] && r.value.id == runId
    {
      if runId in rows then Some(rows[runId]) else None
    }

    /** `get_run_history(limit, offset)`: a page of the table sorted by start time, latest first. */
    method GetRunHistory(limit: int, offset: int) returns (page: seq<RunRow>)
      requires Valid()
      ensures IsHistoryPage(rows, limit, offset, page)
      ensures limit >= 0 && offset >= 0 ==>
        |page| == (if offset >= |rows| then 0 else if limit < |rows| - offset then limit else |rows| - offset)
    {
      var pending := rows.Keys;
      var sorted: seq<RunRow> := [];
      while pending != {}
        invariant SortedPart(rows, pending, sorted)
        decreases |pending|
      {
        var k :| k in pending;
        InsertPending(rows, pending, sorted, k);
        sorted := Insert(sorted, rows[k]);
        pending := pending - {k};
      }
      assert IsOrderOf(rows, sorted);
      page := Window(sorted, limit, offset);
    }

    /** `get_metrics()`: row counts by status; the success rate is a percentage, 0 on an empty table. */
    function GetMetrics(): (m: Metrics)
      reads this
      ensures m.totalRuns == |rows|
      ensures m.successful == |RunsWithStatus(rows, "completed")|
      ensures m.failed == |RunsWithStatus(rows, "failed")|
      ensures m.successful + m.failed <= m.totalRuns
      ensures m.totalRuns == 0 ==> m.successful == 0 && m.failed == 0 && m.successRate == 0.0
      ensures m.totalRuns > 0 ==> m.successRate == (m.successful as real) / (m.totalRuns as real) * 100.0
    {
      StatusCountsBounded(rows);
      var total := |rows|;
      var successful := |RunsWithStatus(rows, "completed")|;
      Metrics(total, successful, |RunsWithStatus(rows, "failed")|,
              if total > 0 then (successful as real) / (total as real) * 100.0 else 0.0)
    }
  }
}
