/** The per-service collection status the migrator shows while it collects:
    a status entry per service, its duration as `[MM:SS]`, and the progress
    table sorted with the services still processing first.  The clock is a
    parameter: `now` is the reading `datetime.now()` would return.
 */
module CollectionStatus {
  import opened Py
  import opened TimeFormat

  /** `CollectionStatus`; the tracker replaces an entry instead of updating
      the object it holds, which nothing else refers to. */
  datatype Status = Status(service: string, status: string, startTime: real, endTime: Option<real>)

  /** `duration`: from the start to the end, or to now while unfinished. */
  function Duration(c: Status, now: real): (r: string)
    ensures Elapsed(c, now) >= 0 ==> ParseClock(r) == Some(Elapsed(c, now))
    ensures 0 <= Elapsed(c, now) < 6000 ==> |r| == 7
  {
    var e := Elapsed(c, now);
    if e >= 0 then
      ClockRoundTrip(e);
      if e < 6000 then ClockWidth(e); Clock(e) else Clock(e)
    else Clock(e)
  }

  /** The whole seconds from the start to the end, or to now, truncated. */
  function Elapsed(c: Status, now: real): int {
    var until := if c.endTime.Some? then c.endTime.value else now;
    Trunc(until - c.startTime)
  }

  /** One row of `get_progress_data`. */
  datatype Row = Row(service: string, status: string, time: string)

  function RowOf(c: Status, now: real): Row {
    Row(c.service, c.status, Duration(c, now))
  }

  // ------------------------------------------------------------ ordering

  /** Python's `<` on strings: by code points, a proper prefix first. */
  predicate StrLess(a: string, b: string)
    decreases |a|
  {
    if a == [] then b != []
    else if b == [] then false
    else if a[0] != b[0] then a[0] < b[0]
    else StrLess(a[1..], b[1..])
  }

  /** The sort key `(status != "Processing", service)`. */
  predicate Before(x: Row, y: Row) {
    var px := x.status == "Processing";
    var py := y.status == "Processing";
    (px && !py) || (px == py && StrLess(x.service, y.service))
  }

  predicate Sorted(rows: seq<Row>) {
    forall i, j :: 0 <= i < j < |rows| ==> Before(rows[i], rows[j])
  }

  function Services(rows: seq<Row>): set<string> {
    set i | 0 <= i < |rows| :: rows[i].service
  }

  predicate DistinctServices(rows: seq<Row>) {
    forall i, j :: 0 <= i < j < |rows| ==> rows[i].service != rows[j].service
  }

  lemma {:induction false} StrLessIrreflexive(a: string)
    ensures !StrLess(a, a)
    decreases |a|
  {
    if a != [] {
      StrLessIrreflexive(a[1..]);
    }
  }

  lemma {:induction false} StrLessTransitive(a: string, b: string, c: string)
    requires StrLess(a, b) && StrLess(b, c)
    ensures StrLess(a, c)
    decreases |a|
  {
    if a != [] && b != [] && c != [] && a[0] == b[0] && b[0] == c[0] {
      StrLessTransitive(a[1..], b[1..], c[1..]);
    }
  }

  lemma {:induction false} StrLessTotal(a: string, b: string)
    requires a != b
    ensures StrLess(a, b) || StrLess(b, a)
    decreases |a|
  {
    if a != [] && b != [] && a[0] == b[0] {
      assert a == [a[0]] + a[1..] && b == [b[0]] + b[1..];
      StrLessTotal(a[1..], b[1..]);
    }
  }

  lemma {:induction false} StrLessAsymmetric(a: string, b: string)
    requires StrLess(a, b)
    ensures !StrLess(b, a)
    decreases |a|
  {
    if a != [] && b != [] && a[0] == b[0] {
      StrLessAsymmetric(a[1..], b[1..]);
    }
  }

  lemma BeforeTransitive(x: Row, y: Row, z: Row)
    requires Before(x, y) && Before(y, z)
    ensures Before(x, z)
  {
    if x.status == "Processing" <==> z.status == "Processing" {
      StrLessTransitive(x.service, y.service, z.service);
    }
  }

  lemma BeforeTotal(x: Row, y: Row)
    requires x.service != y.service
    ensures Before(x, y) || Before(y, x)
  {
    StrLessTotal(x.service, y.service);
  }

  lemma BeforeAsymmetric(x: Row, y: Row)
    requires Before(x, y)
    ensures !Before(y, x)
  {
    if (x.status == "Processing") == (y.status == "Processing") {
      StrLessAsymmetric(x.service, y.service);
    }
  }

  /** One step of the sort: `r` goes in front of the first row it comes before. */
  function Insert(rows: seq<Row>, r: Row): seq<Row>
    decreases |rows|
  {
    if rows == [] then [r]
    else if Before(r, rows[0]) then [r] + rows
    else [rows[0]] + Insert(rows[1..], r)
  }

  /** Inserting a row for a new service into a sorted table keeps it sorted,
      and adds exactly that row. */
  lemma {:induction false} InsertSorted(rows: seq<Row>, r: Row)
    requires Sorted(rows) && DistinctServices(rows) && r.service !in Services(rows)
    ensures Sorted(Insert(rows, r)) && DistinctServices(Insert(rows, r))
    ensures |Insert(rows, r)| == |rows| + 1
    ensures forall x :: x in Insert(rows, r) <==> x in rows || x == r
    ensures Services(Insert(rows, r)) == Services(rows) + {r.service}
    decreases |rows|
  {
    if rows == [] {
      ServicesCons(r, []);
      assert [r] + [] == [r];
    } else if Before(r, rows[0]) {
      forall j | 0 <= j < |rows| ensures Before(r, rows[j]) && r.service != rows[j].service {
        if j > 0 {
          BeforeTransitive(r, rows[0], rows[j]);
        }
        assert rows[j].service in Services(rows);
      }
      ConsSorted(r, rows);
      ServicesCons(r, rows);
    } else {
      BeforeTotal(r, rows[0]) by {
        assert rows[0].service in Services(rows);
      }
      var tail := rows[1..];
      assert Sorted(tail) && DistinctServices(tail);
      forall k | 0 <= k < |tail| ensures tail[k].service != r.service {
        assert rows[k + 1].service in Services(rows);
      }
      InsertSorted(tail, r);
      var ins := Insert(tail, r);
      forall j | 0 <= j < |ins| ensures Before(rows[0], ins[j]) && rows[0].service != ins[j].service {
        assert ins[j] in ins;
        if ins[j] != r {
          var k :| 0 <= k < |tail| && tail[k] == ins[j];
          assert rows[k + 1] == ins[j];
        } else {
          assert rows[0].service in Services(rows);
        }
      }
      ConsSorted(rows[0], ins);
      ServicesCons(rows[0], ins);
      ServicesCons(rows[0], tail);
      assert [rows[0]] + tail == rows;
    }
  }

  /** A row before every row of a sorted table, and for another service,
      heads a sorted table. */
  lemma ConsSorted(h: Row, rows: seq<Row>)
    requires Sorted(rows) && DistinctServices(rows)
    requires forall j :: 0 <= j < |rows| ==> Before(h, rows[j]) && h.service != rows[j].service
    ensures Sorted([h] + rows) && DistinctServices([h] + rows)
  {
    var out := [h] + rows;
    forall i, j | 0 <= i < j < |out| ensures Before(out[i], out[j]) && out[i].service != out[j].service {
      assert out[j] == rows[j - 1];
      if i > 0 {
        assert out[i] == rows[i - 1];
      }
    }
  }

  lemma ServicesCons(r: Row, rows: seq<Row>)
    ensures Services([r] + rows) == {r.service} + Services(rows)
  {
    var out := [r] + rows;
    assert out[0].service == r.service;
    forall s | s in Services(out) ensures s in {r.service} + Services(rows) {
      var i :| 0 <= i < |out| && out[i].service == s;
      if i > 0 { assert rows[i - 1].service == s; }
    }
    forall s | s in Services(rows) ensures s in Services(out) {
      var i :| 0 <= i < |rows| && rows[i].service == s;
      assert out[i + 1].service == s;
    }
  }

  /** Two sorted tables with the same rows are the same table: the order of
      the progress data does not depend on the order services were started in. */
  lemma {:induction false} SortedUnique(a: seq<Row>, b: seq<Row>)
    requires Sorted(a) && Sorted(b)
    requires forall x :: x in a <==> x in b
    ensures a == b
    decreases |a|
  {
    if a != [] { assert a[0] in a; }
    if b != [] { assert b[0] in b; }
    if a == [] || b == [] {
    } else {
      SortedHead(a, b);
      SortedHead(b, a);
      if a[0] != b[0] {
        BeforeAsymmetric(a[0], b[0]);
      }
      forall x ensures x in a[1..] <==> x in b[1..] {
        if x in a[1..] {
          var i :| 0 <= i < |a[1..]| && a[1..][i] == x;
          BeforeIrreflexiveAt(a, 0, i + 1);
          assert x in b;
          var j :| 0 <= j < |b| && b[j] == x;
          assert j != 0;
          assert b[1..][j - 1] == x;
        }
        if x in b[1..] {
          var i :| 0 <= i < |b[1..]| && b[1..][i] == x;
          BeforeIrreflexiveAt(b, 0, i + 1);
          assert x in a;
          var j :| 0 <= j < |a| && a[j] == x;
          assert j != 0;
          assert a[1..][j - 1] == x;
        }
      }
      SortedUnique(a[1..], b[1..]);
      assert a == [a[0]] + a[1..] && b == [b[0]] + b[1..];
    }
  }

  /** In a sorted table no row comes before itself, so rows are distinct. */
  lemma BeforeIrreflexiveAt(rows: seq<Row>, i: nat, j: nat)
    requires Sorted(rows) && i < j < |rows|
    ensures rows[i] != rows[j]
  {
    StrLessIrreflexive(rows[i].service);
  }

  /** The first row of a sorted table comes before every other row of any
      table with the same rows. */
  lemma SortedHead(a: seq<Row>, b: seq<Row>)
    requires Sorted(a) && Sorted(b) && a != [] && b != []
    requires forall x :: x in a <==> x in b
    ensures a[0] == b[0] || Before(a[0], b[0])
  {
    assert b[0] in b;
    var k :| 0 <= k < |a| && a[k] == b[0];
  }

  // ------------------------------------------------------------ tracker

  /** `StatusTracker` */
  class StatusTracker {
    var statuses: map<string, Status>

    /** Each entry is filed under its own service. */
    ghost predicate Valid()
      reads this
    {
      forall s :: s in statuses ==> statuses[s].service == s
    }

    constructor ()
      ensures statuses == map[] && Valid()
    {
      statuses := map[];
    }

    /** `start_collection`: creates or replaces the entry, processing and unfinished. */
    method StartCollection(service: string, now: real)
      requires Valid()
      modifies this
      ensures Valid()
      ensures statuses == old(statuses)[service := Status(service, "Processing", now, None)]
    {
      statuses := statuses[service := Status(service, "Processing", now, None)];
    }

    /** `complete_collection`: does nothing for an untracked service. */
    method CompleteCollection(service: string, success: bool, now: real)
      requires Valid()
      modifies this
      ensures Valid()
      ensures service !in old(statuses) ==> statuses == old(statuses)
      ensures service in old(statuses) ==> statuses == old(statuses)[service :=
        old(statuses)[service].(status := if success then "Completed" else "Failed", endTime := Some(now))]
    {
      if service in statuses {
        var status := statuses[service];
        statuses := statuses[service := status.(status := if success then "Completed" else "Failed", endTime := Some(now))];
      }
    }

    /** `get_progress_data`: one row per tracked service, processing ones
        first, then by service name. */
    method GetProgressData(now: real) returns (rows: seq<Row>)
      requires Valid()
      ensures Sorted(rows) && DistinctServices(rows)
      ensures |rows| == |statuses|
      ensures forall x :: x in rows <==> exists s :: s in statuses && x == RowOf(statuses[s], now)
    {
      rows := ProgressRows(statuses, now);
      TableComplete(rows, statuses, statuses.Keys, now);
    }
  }

  /** The rows of `get_progress_data` for the tracked entries `m`, inserted
      one service at a time. */
  method ProgressRows(m: map<string, Status>, now: real) returns (rows: seq<Row>)
    requires forall s :: s in m ==> m[s].service == s
    ensures Table(rows, m, m.Keys, now)
  {
    rows := [];
    var remaining := m.Keys;
    ghost var done: set<string> := {};
    TableEmpty(m, now);
    while remaining != {}
      invariant done + remaining == m.Keys && done !! remaining
      invariant Table(rows, m, done, now)
      decreases remaining
    {
      var s :| s in remaining;
      rows := AddService(rows, m, done, now, s);
      remaining := remaining - {s};
      done := done + {s};
    }
  }

  /** One step of `get_progress_data`: the row of one more service, inserted
      in order. */
  method AddService(rows: seq<Row>, statuses: map<string, Status>, ghost done: set<string>, now: real, s: string)
    returns (table: seq<Row>)
    requires Table(rows, statuses, done, now)
    requires s in statuses && s !in done && statuses[s].service == s
    ensures Table(table, statuses, done + {s}, now)
  {
    var r := RowOf(statuses[s], now);
    AddRow(rows, statuses, done, now, s);
    table := Insert(rows, r);
  }

  // ------------------------------------------------------------ lemmas

  /** `rows` is the sorted table of the services in `done`. */
  ghost predicate Table(rows: seq<Row>, statuses: map<string, Status>, done: set<string>, now: real) {
    done <= statuses.Keys && Sorted(rows) && DistinctServices(rows) && Services(rows) == done && |rows| == |done|
    && forall x :: x in rows <==> exists s :: s in done && x == RowOf(statuses[s], now)
  }

  /** No service, no row. */
  lemma TableEmpty(statuses: map<string, Status>, now: real)
    ensures Table([], statuses, {}, now)
  {
    assert Services([]) == {};
  }

  /** The table of every service has one row per tracked service. */
  lemma TableComplete(rows: seq<Row>, statuses: map<string, Status>, done: set<string>, now: real)
    requires Table(rows, statuses, done, now) && done == statuses.Keys
    ensures Sorted(rows) && DistinctServices(rows) && |rows| == |statuses|
    ensures forall x :: x in rows <==> exists s :: s in statuses && x == RowOf(statuses[s], now)
  {
    assert |statuses| == |statuses.Keys|;
  }

  /** One step of `get_progress_data`: inserting the row of one more service. */
  lemma AddRow(rows: seq<Row>, statuses: map<string, Status>, done: set<string>, now: real, s: string)
    requires Table(rows, statuses, done, now)
    requires s in statuses && s !in done && statuses[s].service == s
    ensures Table(Insert(rows, RowOf(statuses[s], now)), statuses, done + {s}, now)
  {
    InsertSorted(rows, RowOf(statuses[s], now));
  }

  /** The duration of a finished entry no longer depends on the clock, and
      reads back as the whole seconds between start and end. */
  lemma FinishedDuration(c: Status, now1: real, now2: real)
    requires c.endTime.Some? && c.endTime.value >= c.startTime
    ensures Duration(c, now1) == Duration(c, now2)
    ensures ParseClock(Duration(c, now1)) == Some((c.endTime.value - c.startTime).Floor)
  {
    var e := Elapsed(c, now1);
    assert e == Elapsed(c, now2) == (c.endTime.value - c.startTime).Floor;
    ClockRoundTrip(e);
  }

  /** Starting a service and then completing it leaves a finished entry with
      the outcome; other services are untouched. */
  lemma StartThenComplete(m: map<string, Status>, service: string, t0: real, t1: real, success: bool)
    ensures var started := m[service := Status(service, "Processing", t0, None)];
      var done := started[service := started[service].(status := if success then "Completed" else "Failed", endTime := Some(t1))];
      done[service] == Status(service, if success then "Completed" else "Failed", t0, Some(t1))
      && forall s :: s in m && s != service ==> s in done && done[s] == m[s]
  {
  }

  /** A processing row comes before every finished row, whatever the names. */
  lemma ProcessingFirst(x: Row, y: Row)
    requires x.status == "Processing" && y.status != "Processing"
    ensures Before(x, y) && !Before(y, x)
  {
  }
}
