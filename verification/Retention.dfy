/** internal/analytics/retention.go: the cohort query over daily_active_users and the loop that groups its rows. Dates
    are day numbers: `utcToday` is the process's date, from which the window starts, and `today` the database session's
    CURRENT_DATE, at which it ends; the two agree when the session is in UTC. */
module Retention {
  import opened Sets
  import opened Numbers
  import opened Events

  datatype Query = Query(project: string, cohorts: nat, utcToday: int, today: int) {
    function Start(): int {
      utcToday - (cohorts - 1)
    }
  }

  // ----- the three table expressions

  function DatesOf(dau: set<Active>, q: Query, user: string): set<int> {
    set a | a in dau && a.project == q.project && a.user == user && a.day >= q.Start() :: a.day
  }

  function SeenUsers(dau: set<Active>, q: Query): set<string> {
    set a | a in dau && a.project == q.project && a.day >= q.Start() :: a.user
  }

  /** first_seen: each user's first date on or after the start. */
  function FirstSeen(dau: set<Active>, q: Query): map<string, int> {
    map u | u in SeenUsers(dau, q) && DatesOf(dau, q, u) != {} :: Least(DatesOf(dau, q, u))
  }

  /** The users of one cohort; cohort_sizes counts them. */
  function Cohort(dau: set<Active>, q: Query, date: int): set<string> {
    set u | u in FirstSeen(dau, q) && FirstSeen(dau, q)[u] == date
  }

  /** The joined rows that retention_counts puts into one group. */
  function Group(dau: set<Active>, q: Query, date: int, offset: int): set<Active> {
    set a | a in dau && a.project == q.project && a.user in Cohort(dau, q, date) && a.day == date + offset
            && date <= a.day <= q.today
  }

  datatype ResultRow = ResultRow(date: int, size: nat, offset: int, retained: nat)

  // ----- the result, ordered by date descending and offset ascending

  function RowOf(dau: set<Active>, q: Query, date: int, offset: int): ResultRow {
    ResultRow(date, |Cohort(dau, q, date)|, offset, |Group(dau, q, date, offset)|)
  }

  predicate Before(a: ResultRow, b: ResultRow) {
    a.date > b.date || (a.date == b.date && a.offset < b.offset)
  }

  predicate Ordered(rows: seq<ResultRow>) {
    forall i, j :: 0 <= i < j < |rows| ==> Before(rows[i], rows[j])
  }

  /** GROUP BY yields the nonempty groups, each once. */
  ghost predicate IsResult(rows: seq<ResultRow>, dau: set<Active>, q: Query) {
    && Ordered(rows)
    && (forall r :: r in rows ==> r == RowOf(dau, q, r.date, r.offset) && Group(dau, q, r.date, r.offset) != {})
    && (forall d, o :: Group(dau, q, d, o) != {} ==> RowOf(dau, q, d, o) in rows)
  }

  /** The rows of one cohort from an offset on. */
  function CohortRows(dau: set<Active>, q: Query, date: int, offset: nat): seq<ResultRow>
    decreases q.today - date - offset + 1
  {
    if date + offset > q.today then []
    else
      (if Group(dau, q, date, offset) != {} then [RowOf(dau, q, date, offset)] else [])
      + CohortRows(dau, q, date, offset + 1)
  }

  /** The rows of all cohorts from a date down to the start. */
  function RowsDownFrom(dau: set<Active>, q: Query, date: int): seq<ResultRow>
    decreases date - q.Start() + 1
  {
    if date < q.Start() then [] else CohortRows(dau, q, date, 0) + RowsDownFrom(dau, q, date - 1)
  }

  function QueryRows(dau: set<Active>, q: Query): seq<ResultRow> {
    RowsDownFrom(dau, q, q.today)
  }

  lemma FirstSeenMeans(dau: set<Active>, q: Query, a: Active)
    requires a in dau && a.project == q.project && a.day >= q.Start()
    ensures a.user in FirstSeen(dau, q) && FirstSeen(dau, q)[a.user] <= a.day
  {
    assert a.day in DatesOf(dau, q, a.user);
  }

  lemma CohortDates(dau: set<Active>, q: Query, user: string, date: int)
    requires user in Cohort(dau, q, date)
    ensures Active(q.project, date, user) in dau && date >= q.Start()
  {
  }

  lemma GroupDates(dau: set<Active>, q: Query, date: int, offset: int)
    requires Group(dau, q, date, offset) != {}
    ensures q.Start() <= date && 0 <= offset && date + offset <= q.today
  {
  }

  lemma {:induction false} CohortRowsExact(dau: set<Active>, q: Query, date: int, offset: nat)
    ensures Ordered(CohortRows(dau, q, date, offset))
    ensures forall r :: r in CohortRows(dau, q, date, offset) ==>
              && r == RowOf(dau, q, date, r.offset) && Group(dau, q, date, r.offset) != {}
              && r.offset >= offset
    ensures forall o :: o >= offset && Group(dau, q, date, o) != {} ==>
              RowOf(dau, q, date, o) in CohortRows(dau, q, date, offset)
    decreases q.today - date - offset + 1
  {
    hide Group, Cohort;
    if date + offset <= q.today {
      CohortRowsExact(dau, q, date, offset + 1);
    }
    forall o | o >= offset && Group(dau, q, date, o) != {}
      ensures RowOf(dau, q, date, o) in CohortRows(dau, q, date, offset)
    {
      GroupDates(dau, q, date, o);
    }
  }

  lemma {:induction false} RowsDownExact(dau: set<Active>, q: Query, date: int)
    ensures Ordered(RowsDownFrom(dau, q, date))
    ensures forall r :: r in RowsDownFrom(dau, q, date) ==>
              && r == RowOf(dau, q, r.date, r.offset) && Group(dau, q, r.date, r.offset) != {} && r.date <= date
    ensures forall d, o :: d <= date && Group(dau, q, d, o) != {} ==> RowOf(dau, q, d, o) in RowsDownFrom(dau, q, date)
    decreases date - q.Start() + 1
  {
    hide Group;
    if date >= q.Start() {
      CohortRowsExact(dau, q, date, 0);
      RowsDownExact(dau, q, date - 1);
    }
    forall d, o | d <= date && Group(dau, q, d, o) != {}
      ensures RowOf(dau, q, d, o) in RowsDownFrom(dau, q, date)
    {
      GroupDates(dau, q, d, o);
    }
  }

  /** The computed rows are the query's result. */
  lemma QueryRowsExact(dau: set<Active>, q: Query)
    ensures IsResult(QueryRows(dau, q), dau, q)
  {
    hide Group;
    RowsDownExact(dau, q, q.today);
    forall d, o | Group(dau, q, d, o) != {}
      ensures RowOf(dau, q, d, o) in QueryRows(dau, q)
    {
      GroupDates(dau, q, d, o);
    }
  }

  // ----- conservation

  /** The project's rows dated within the observation window. */
  function Observed(dau: set<Active>, q: Query): set<Active> {
    set a | a in dau && a.project == q.project && q.Start() <= a.day <= q.today
  }

  function RetainedTotal(rows: seq<ResultRow>): nat
    decreases |rows|
  {
    if rows == [] then 0 else RetainedTotal(rows[..|rows| - 1]) + rows[|rows| - 1].retained
  }

  function GroupsOf(rows: seq<ResultRow>, dau: set<Active>, q: Query): set<Active> {
    set a, i | 0 <= i < |rows| && a in Group(dau, q, rows[i].date, rows[i].offset) :: a
  }

  /** Different groups share no row: a row's user fixes the cohort and its date the offset. */
  lemma GroupsDisjoint(dau: set<Active>, q: Query, a: ResultRow, b: ResultRow)
    requires Before(a, b)
    ensures Group(dau, q, a.date, a.offset) !! Group(dau, q, b.date, b.offset)
  {
  }

  lemma {:induction false} TotalIsUnion(rows: seq<ResultRow>, dau: set<Active>, q: Query)
    requires Ordered(rows) && forall r :: r in rows ==> r == RowOf(dau, q, r.date, r.offset)
    ensures RetainedTotal(rows) == |GroupsOf(rows, dau, q)|
    decreases |rows|
  {
    hide Group, Cohort;
    if rows == [] {
      assert GroupsOf(rows, dau, q) == {};
    } else {
      var n := |rows| - 1;
      var rest, last := rows[..n], rows[n];
      TotalIsUnion(rest, dau, q);
      var before, group := GroupsOf(rest, dau, q), Group(dau, q, last.date, last.offset);
      LastGroupIsNew(rows, dau, q);
      UnionGrows(rest, last, dau, q);
      assert rest + [last] == rows && last in rows;
    }
  }

  lemma LastGroupIsNew(rows: seq<ResultRow>, dau: set<Active>, q: Query)
    requires Ordered(rows) && rows != []
    ensures var last := rows[|rows| - 1];
            GroupsOf(rows[..|rows| - 1], dau, q) !! Group(dau, q, last.date, last.offset)
  {
    hide Group;
    var n := |rows| - 1;
    forall a | a in GroupsOf(rows[..n], dau, q)
      ensures a !in Group(dau, q, rows[n].date, rows[n].offset)
    {
      var i :| 0 <= i < n && a in Group(dau, q, rows[..n][i].date, rows[..n][i].offset);
      GroupsDisjoint(dau, q, rows[i], rows[n]);
    }
  }

  lemma UnionGrows(rest: seq<ResultRow>, last: ResultRow, dau: set<Active>, q: Query)
    ensures GroupsOf(rest + [last], dau, q) == GroupsOf(rest, dau, q) + Group(dau, q, last.date, last.offset)
  {
    hide Group;
    var rows := rest + [last];
    forall a
      ensures a in GroupsOf(rows, dau, q) <==> a in GroupsOf(rest, dau, q) || a in Group(dau, q, last.date, last.offset)
    {
      if a in GroupsOf(rest, dau, q) {
        var i :| 0 <= i < |rest| && a in Group(dau, q, rest[i].date, rest[i].offset);
        assert rows[i] == rest[i];
      }
      if a in Group(dau, q, last.date, last.offset) {
        assert rows[|rest|] == last;
      }
    }
  }

  /** Every observed row is counted in exactly one bucket. */
  lemma Conservation(rows: seq<ResultRow>, dau: set<Active>, q: Query)
    requires IsResult(rows, dau, q)
    ensures RetainedTotal(rows) == |Observed(dau, q)|
  {
    TotalIsUnion(rows, dau, q);
    forall a
      ensures a in GroupsOf(rows, dau, q) <==> a in Observed(dau, q)
    {
      if a in Observed(dau, q) {
        Counted(rows, dau, q, a);
      }
      if a in GroupsOf(rows, dau, q) {
        var i :| 0 <= i < |rows| && a in Group(dau, q, rows[i].date, rows[i].offset);
        GroupDates(dau, q, rows[i].date, rows[i].offset);
      }
    }
    assert GroupsOf(rows, dau, q) == Observed(dau, q);
  }

  lemma Counted(rows: seq<ResultRow>, dau: set<Active>, q: Query, a: Active)
    requires IsResult(rows, dau, q) && a in Observed(dau, q)
    ensures a in GroupsOf(rows, dau, q)
  {
    FirstSeenMeans(dau, q, a);
    var d := FirstSeen(dau, q)[a.user];
    assert a in Group(dau, q, d, a.day - d);
    var i :| 0 <= i < |rows| && rows[i] == RowOf(dau, q, d, a.day - d);
    assert a in Group(dau, q, rows[i].date, rows[i].offset);
  }

  /** A bucket holds at most its cohort, each user once, and the first bucket holds all of it. */
  lemma BucketSize(dau: set<Active>, q: Query, date: int, offset: int)
    ensures |Group(dau, q, date, offset)| <= |Cohort(dau, q, date)|
    ensures date <= q.today ==> |Group(dau, q, date, 0)| == |Cohort(dau, q, date)|
  {
    InjectionSize(Group(dau, q, date, offset), Cohort(dau, q, date), (a: Active) => a.user);
    if date <= q.today {
      InjectionSize(Group(dau, q, date, 0), Cohort(dau, q, date), (a: Active) => a.user);
      var row := (u: string) => Active(q.project, date, u);
      forall u | u in Cohort(dau, q, date)
        ensures row(u) in Group(dau, q, date, 0)
      {
        CohortDates(dau, q, u, date);
      }
      InjectionSize(Cohort(dau, q, date), Group(dau, q, date, 0), row);
    }
  }

  // ----- grouping

  datatype Bucket = Bucket(offset: int, count: nat, rate: real)

  datatype RetentionRow = RetentionRow(cohortDate: int, cohortSize: nat, buckets: seq<Bucket>)

  function BucketOf(r: ResultRow): Bucket {
    Bucket(r.offset, r.retained, Rate(r.retained, r.size))
  }

  /** The query rows that a returned row stands for. */
  function Spread(row: RetentionRow): seq<ResultRow> {
    seq(|row.buckets|, i requires 0 <= i < |row.buckets| =>
      ResultRow(row.cohortDate, row.cohortSize, row.buckets[i].offset, row.buckets[i].count))
  }

  function SpreadAll(rows: seq<RetentionRow>): seq<ResultRow>
    decreases |rows|
  {
    if rows == [] then [] else SpreadAll(rows[..|rows| - 1]) + Spread(rows[|rows| - 1])
  }

  /** A returned row keeps its cohort's buckets, never none, with their rates. */
  predicate Faithful(row: RetentionRow) {
    && row.buckets != []
    && forall b :: b in row.buckets ==> b.rate == Rate(b.count, row.cohortSize)
  }

  /** What the grouping loop owes: nothing lost, nothing reordered, one row per cohort, latest cohort first. */
  predicate Groups(result: seq<RetentionRow>, rows: seq<ResultRow>) {
    && SpreadAll(result) == rows
    && (forall r :: r in result ==> Faithful(r))
    && (forall i, j :: 0 <= i < j < |result| ==> result[i].cohortDate > result[j].cohortDate)
  }

  /** All rows of a date agree on the cohort's size. */
  predicate Consistent(rows: seq<ResultRow>) {
    forall i, j | 0 <= i < |rows| && 0 <= j < |rows| && rows[i].date == rows[j].date :: rows[i].size == rows[j].size
  }

  lemma SpreadGrows(row: RetentionRow, r: ResultRow)
    requires row.cohortDate == r.date && row.cohortSize == r.size
    ensures Spread(row.(buckets := row.buckets + [BucketOf(r)])) == Spread(row) + [r]
  {
  }

  lemma SpreadAllLast(rows: seq<RetentionRow>, row: RetentionRow)
    ensures SpreadAll(rows + [row]) == SpreadAll(rows) + Spread(row)
  {
  }

  /** Where the query rows of a returned row lie. */
  lemma {:induction false} SpreadPlace(result: seq<RetentionRow>, i: nat) returns (at: nat)
    requires i < |result|
    ensures at + |result[i].buckets| <= |SpreadAll(result)|
    ensures forall k :: 0 <= k < |result[i].buckets| ==> SpreadAll(result)[at + k] == Spread(result[i])[k]
    decreases |result|
  {
    var n := |result| - 1;
    if i < n {
      at := SpreadPlace(result[..n], i);
    } else {
      at := |SpreadAll(result[..n])|;
    }
  }

  lemma {:induction false} SpreadSource(result: seq<RetentionRow>, r: ResultRow) returns (i: nat, k: nat)
    requires r in SpreadAll(result)
    ensures i < |result| && k < |result[i].buckets| && Spread(result[i])[k] == r
    decreases |result|
  {
    var n := |result| - 1;
    if r in SpreadAll(result[..n]) {
      i, k := SpreadSource(result[..n], r);
    } else {
      i := n;
      k :| 0 <= k < |Spread(result[n])| && Spread(result[n])[k] == r;
    }
  }

  // ----- the matrix

  function BucketTotal(buckets: seq<Bucket>): nat
    decreases |buckets|
  {
    if buckets == [] then 0 else BucketTotal(buckets[..|buckets| - 1]) + buckets[|buckets| - 1].count
  }

  function MatrixTotal(result: seq<RetentionRow>): nat
    decreases |result|
  {
    if result == [] then 0
    else MatrixTotal(result[..|result| - 1]) + BucketTotal(result[|result| - 1].buckets)
  }

  lemma {:induction false} RetainedConcat(a: seq<ResultRow>, b: seq<ResultRow>)
    ensures RetainedTotal(a + b) == RetainedTotal(a) + RetainedTotal(b)
    decreases |b|
  {
    if b == [] {
      assert a + b == a;
    } else {
      var n := |b| - 1;
      RetainedConcat(a, b[..n]);
      assert (a + b)[..|a + b| - 1] == a + b[..n];
    }
  }

  lemma {:induction false} RowTotal(row: RetentionRow)
    ensures RetainedTotal(Spread(row)) == BucketTotal(row.buckets)
    decreases |row.buckets|
  {
    if row.buckets != [] {
      var n := |row.buckets| - 1;
      RowTotal(row.(buckets := row.buckets[..n]));
      assert Spread(row)[..n] == Spread(row.(buckets := row.buckets[..n]));
    }
  }

  lemma {:induction false} MatrixIsSpread(result: seq<RetentionRow>)
    ensures MatrixTotal(result) == RetainedTotal(SpreadAll(result))
    decreases |result|
  {
    if result != [] {
      var n := |result| - 1;
      MatrixIsSpread(result[..n]);
      RowTotal(result[n]);
      RetainedConcat(SpreadAll(result[..n]), Spread(result[n]));
    }
  }

  /** All bucket counts together are the project's active-user rows of the window: `cohorts` days up to the process's
      date, cut off at the session's. */
  lemma MatrixConserves(result: seq<RetentionRow>, dau: set<Active>, q: Query)
    requires Groups(result, QueryRows(dau, q))
    ensures MatrixTotal(result) ==
            |set a | a in dau && a.project == q.project && q.utcToday - (q.cohorts - 1) <= a.day <= q.today|
  {
    QueryRowsExact(dau, q);
    MatrixIsSpread(result);
    Conservation(QueryRows(dau, q), dau, q);
    assert Observed(dau, q) ==
           set a | a in dau && a.project == q.project && q.utcToday - (q.cohorts - 1) <= a.day <= q.today;
  }

  // ----- the matrix from the table

  /** The user's earliest date in the last `cohorts` days is this one. */
  predicate Joined(dau: set<Active>, q: Query, user: string, date: int) {
    && Active(q.project, date, user) in dau && q.utcToday - (q.cohorts - 1) <= date
    && forall a :: a in dau && a.project == q.project && a.user == user && q.utcToday - (q.cohorts - 1) <= a.day ==>
         date <= a.day
  }

  lemma CohortMeans(dau: set<Active>, q: Query, user: string, date: int)
    ensures user in Cohort(dau, q, date) <==> Joined(dau, q, user, date)
  {
    if user in Cohort(dau, q, date) {
      forall a | a in dau && a.project == q.project && a.user == user && q.utcToday - (q.cohorts - 1) <= a.day
        ensures date <= a.day
      {
        FirstSeenMeans(dau, q, a);
      }
    }
    if Joined(dau, q, user, date) {
      FirstSeenMeans(dau, q, Active(q.project, date, user));
    }
  }

  /** A returned row is the cohort of its date: its size is the number of users who joined then, and each bucket counts
      the rows of those users that many days later, as a share of the cohort. */
  ghost predicate IsCohort(row: RetentionRow, dau: set<Active>, q: Query) {
    && row.cohortSize == |set a | a in dau && a.project == q.project && a.day == row.cohortDate
                                    && Joined(dau, q, a.user, row.cohortDate)|
    && forall k :: 0 <= k < |row.buckets| ==> IsBucket(row.buckets[k], row, dau, q)
  }

  ghost predicate IsBucket(b: Bucket, row: RetentionRow, dau: set<Active>, q: Query) {
    && 0 <= b.offset <= q.today - row.cohortDate
    && b.count == |set a | a in dau && a.project == q.project && a.day == row.cohortDate + b.offset
                             && Joined(dau, q, a.user, row.cohortDate)|
    && b.count >= 1 && b.rate * row.cohortSize as real == b.count as real
  }

  /** Bucket k of row i is where an active-user row counts: in its user's cohort, at its own distance. */
  predicate CountsAt(result: seq<RetentionRow>, dau: set<Active>, q: Query, a: Active, i: int, k: int) {
    && 0 <= i < |result| && 0 <= k < |result[i].buckets|
    && Joined(dau, q, a.user, result[i].cohortDate) && a.day == result[i].cohortDate + result[i].buckets[k].offset
  }

  lemma CohortSize(dau: set<Active>, q: Query, date: int)
    ensures |Cohort(dau, q, date)| ==
            |set a | a in dau && a.project == q.project && a.day == date && Joined(dau, q, a.user, date)|
  {
    var rows := set a | a in dau && a.project == q.project && a.day == date && Joined(dau, q, a.user, date);
    forall u
      ensures u in Cohort(dau, q, date) <==> Joined(dau, q, u, date)
    {
      CohortMeans(dau, q, u, date);
    }
    hide Cohort;
    InjectionSize(rows, Cohort(dau, q, date), (a: Active) => a.user);
    InjectionSize(Cohort(dau, q, date), rows, (u: string) => Active(q.project, date, u));
  }

  lemma GroupMeans(dau: set<Active>, q: Query, date: int, offset: int)
    requires 0 <= offset <= q.today - date
    ensures Group(dau, q, date, offset) ==
            set a | a in dau && a.project == q.project && a.day == date + offset && Joined(dau, q, a.user, date)
  {
    forall a: Active
      ensures a.user in Cohort(dau, q, date) <==> Joined(dau, q, a.user, date)
    {
      CohortMeans(dau, q, a.user, date);
    }
  }

  lemma RowsFromTable(result: seq<RetentionRow>, dau: set<Active>, q: Query, i: nat)
    requires Groups(result, QueryRows(dau, q)) && i < |result|
    ensures IsCohort(result[i], dau, q)
  {
    var row := result[i];
    assert row in result && Faithful(row);
    hide Group, Cohort, QueryRows, Joined, Groups, IsBucket;
    BucketMeans(result, dau, q, i, 0);
    CohortSize(dau, q, row.cohortDate);
    forall k | 0 <= k < |row.buckets|
      ensures IsBucket(row.buckets[k], row, dau, q)
    {
      BucketFromTable(result, dau, q, i, k);
    }
  }

  lemma BucketFromTable(result: seq<RetentionRow>, dau: set<Active>, q: Query, i: nat, k: nat)
    requires Groups(result, QueryRows(dau, q)) && i < |result| && k < |result[i].buckets|
    ensures IsBucket(result[i].buckets[k], result[i], dau, q)
  {
    var row, b := result[i], result[i].buckets[k];
    assert row in result && Faithful(row) && b in row.buckets;
    hide Group, Cohort, QueryRows, Joined, Groups;
    BucketMeans(result, dau, q, i, k);
    GroupMeans(dau, q, row.cohortDate, b.offset);
    RateMeans(b.count, row.cohortSize);
  }

  lemma CohortOf(dau: set<Active>, q: Query, a: Active) returns (d: int)
    requires a in dau && a.project == q.project && q.utcToday - (q.cohorts - 1) <= a.day <= q.today
    ensures d <= a.day && Joined(dau, q, a.user, d) && a in Group(dau, q, d, a.day - d)
  {
    FirstSeenMeans(dau, q, a);
    d := FirstSeen(dau, q)[a.user];
    CohortMeans(dau, q, a.user, d);
  }

  /** Every row of the window counts in one bucket, and only there. */
  lemma CountedOnce(result: seq<RetentionRow>, dau: set<Active>, q: Query, a: Active) returns (i: nat, k: nat)
    requires Groups(result, QueryRows(dau, q))
    requires a in dau && a.project == q.project && q.utcToday - (q.cohorts - 1) <= a.day <= q.today
    ensures CountsAt(result, dau, q, a, i, k)
    ensures forall j, l :: CountsAt(result, dau, q, a, j, l) ==> j == i && l == k
  {
    var d := CohortOf(dau, q, a);
    QueryRowsExact(dau, q);
    hide Group, Cohort, QueryRows;
    i, k := SpreadSource(result, RowOf(dau, q, d, a.day - d));
    forall j, l | CountsAt(result, dau, q, a, j, l)
      ensures j == i && l == k
    {
      assert result[j].cohortDate == d;
      assert i == j;
      if l != k {
        OffsetsGrow(result, dau, q, i, if l < k then l else k, if l < k then k else l);
      }
    }
  }

  /** A cohort's row starts with the whole cohort at offset 0 and rate 1; later offsets grow strictly up to
      cohorts - 1 (when the session is in UTC), and no bucket exceeds the cohort. */
  ghost predicate CohortShape(row: RetentionRow, q: Query) {
    && row.buckets != [] && row.buckets[0] == Bucket(0, row.cohortSize, 1.0)
    && (forall k :: 0 <= k < |row.buckets| ==> row.buckets[k].count <= row.cohortSize)
    && (forall k :: 0 <= k < |row.buckets| ==> row.buckets[k].offset <= q.cohorts - 1 + (q.today - q.utcToday))
    && (forall k, l :: 0 <= k < l < |row.buckets| ==> row.buckets[k].offset < row.buckets[l].offset)
  }

  lemma BucketMeans(result: seq<RetentionRow>, dau: set<Active>, q: Query, i: nat, k: nat)
    requires Groups(result, QueryRows(dau, q)) && i < |result| && k < |result[i].buckets|
    ensures var row, b := result[i], result[i].buckets[k];
            && row.cohortSize == |Cohort(dau, q, row.cohortDate)|
            && b.count == |Group(dau, q, row.cohortDate, b.offset)| && b.count > 0
            && 0 <= b.offset && q.Start() <= row.cohortDate && row.cohortDate + b.offset <= q.today
            && b.count <= row.cohortSize
  {
    hide Group, Cohort, QueryRows, Faithful;
    var row, b := result[i], result[i].buckets[k];
    QueryRowsExact(dau, q);
    var at := SpreadPlace(result, i);
    var r := SpreadAll(result)[at + k];
    assert r == Spread(row)[k] && r in QueryRows(dau, q);
    GroupDates(dau, q, row.cohortDate, b.offset);
    BucketSize(dau, q, row.cohortDate, b.offset);
  }

  lemma OffsetsGrow(result: seq<RetentionRow>, dau: set<Active>, q: Query, i: nat, k: nat, l: nat)
    requires Groups(result, QueryRows(dau, q)) && i < |result| && k < l < |result[i].buckets|
    ensures result[i].buckets[k].offset < result[i].buckets[l].offset
  {
    hide Group, Cohort, QueryRows, Faithful;
    QueryRowsExact(dau, q);
    var at := SpreadPlace(result, i);
    var rows := SpreadAll(result);
    assert rows[at + k] == Spread(result[i])[k] && rows[at + l] == Spread(result[i])[l];
    assert Before(rows[at + k], rows[at + l]);
  }

  /** Every returned row has the shape of a cohort. */
  lemma RowsAreCohorts(result: seq<RetentionRow>, dau: set<Active>, q: Query, i: nat)
    requires Groups(result, QueryRows(dau, q)) && i < |result|
    ensures CohortShape(result[i], q)
  {
    hide Group, Cohort, QueryRows;
    var row := result[i];
    assert Faithful(row);
    forall k | 0 <= k < |row.buckets|
      ensures row.buckets[k].count <= row.cohortSize && row.buckets[k].offset <= q.cohorts - 1 + (q.today - q.utcToday)
    {
      BucketMeans(result, dau, q, i, k);
    }
    forall k, l | 0 <= k < l < |row.buckets|
      ensures row.buckets[k].offset < row.buckets[l].offset
    {
      OffsetsGrow(result, dau, q, i, k, l);
    }
    FirstBucket(result, dau, q, i);
  }

  lemma FirstBucket(result: seq<RetentionRow>, dau: set<Active>, q: Query, i: nat)
    requires Groups(result, QueryRows(dau, q)) && i < |result| && Faithful(result[i])
    ensures result[i].buckets[0] == Bucket(0, result[i].cohortSize, 1.0)
  {
    hide Group, Cohort, QueryRows;
    var row := result[i];
    var d := row.cohortDate;
    BucketMeans(result, dau, q, i, 0);
    BucketSize(dau, q, d, 0);
    QueryRowsExact(dau, q);
    assert Group(dau, q, d, 0) != {};
    var j, k := SpreadSource(result, RowOf(dau, q, d, 0));
    assert result[j].cohortDate == d;
    assert i == j;
    if k > 0 {
      OffsetsGrow(result, dau, q, i, 0, k);
    }
    assert row.buckets[0] in row.buckets;
    WholeRate(row.cohortSize);
  }

  lemma WholeRate(size: nat)
    ensures size > 0 ==> Rate(size, size) == 1.0
  {
  }

  // ----- the code

  function Listed(order: seq<int>, rowMap: map<int, RetentionRow>): seq<RetentionRow>
    requires forall i :: 0 <= i < |order| ==> order[i] in rowMap
  {
    seq(|order|, i requires 0 <= i < |order| => rowMap[order[i]])
  }

  /** What the grouping loop keeps: `rows` is what has been read. */
  ghost predicate Grouped(rows: seq<ResultRow>, order: seq<int>, rowMap: map<int, RetentionRow>) {
    && (forall i :: 0 <= i < |order| ==> order[i] in rowMap)
    && (forall i, j :: 0 <= i < j < |order| ==> order[i] > order[j])
    && (forall d :: d in rowMap ==> rowMap[d].cohortDate == d && Faithful(rowMap[d]))
    && (order == [] <==> rows == []) && (order == [] ==> rowMap == map[])
    && (order != [] ==> IsLatest(rows[|rows| - 1], order[|order| - 1], rowMap))
    && SpreadAll(Listed(order, rowMap)) == rows
  }

  predicate IsLatest(r: ResultRow, date: int, rowMap: map<int, RetentionRow>) {
    && r.date == date && date in rowMap && rowMap[date].cohortSize == r.size
    && forall d :: d in rowMap ==> d >= date
  }

  lemma NewCohort(rows: seq<ResultRow>, r: ResultRow, order: seq<int>, rowMap: map<int, RetentionRow>)
    requires Grouped(rows, order, rowMap) && (rows != [] ==> Before(rows[|rows| - 1], r)) && r.date !in rowMap
    ensures Grouped(rows + [r], order + [r.date], rowMap[r.date := RetentionRow(r.date, r.size, [BucketOf(r)])])
  {
    var row := RetentionRow(r.date, r.size, [BucketOf(r)]);
    SpreadGrows(RetentionRow(r.date, r.size, []), r);
    SpreadAllLast(Listed(order, rowMap), row);
    assert Spread(row) == [r];
    assert Listed(order + [r.date], rowMap[r.date := row]) == Listed(order, rowMap) + [row];
    if rows == [] {
      assert rowMap[r.date := row] == map[r.date := row];
    }
  }

  lemma SameCohort(rows: seq<ResultRow>, r: ResultRow, order: seq<int>, rowMap: map<int, RetentionRow>)
    requires Grouped(rows, order, rowMap) && Consistent(rows + [r])
    requires rows != [] && Before(rows[|rows| - 1], r) && r.date in rowMap
    ensures var row := rowMap[r.date];
            Grouped(rows + [r], order, rowMap[r.date := row.(buckets := row.buckets + [BucketOf(r)])])
  {
    hide SpreadAll, Listed, Spread, BucketOf;
    var row := rowMap[r.date];
    SameCohortRow(rows, r, order, rowMap);
    SameCohortSpread(rows, r, order, rowMap);
  }

  /** The row that grows is that of the last date. */
  lemma SameCohortRow(rows: seq<ResultRow>, r: ResultRow, order: seq<int>, rowMap: map<int, RetentionRow>)
    requires Grouped(rows, order, rowMap) && Consistent(rows + [r])
    requires rows != [] && Before(rows[|rows| - 1], r) && r.date in rowMap
    ensures var row := rowMap[r.date];
            order[|order| - 1] == r.date && row.cohortSize == r.size
            && Faithful(row.(buckets := row.buckets + [BucketOf(r)]))
  {
    hide SpreadAll, Listed;
    assert (rows + [r])[|rows|] == r && (rows + [r])[|rows| - 1] == rows[|rows| - 1];
    assert order[|order| - 1] == r.date;
  }

  lemma SameCohortSpread(rows: seq<ResultRow>, r: ResultRow, order: seq<int>, rowMap: map<int, RetentionRow>)
    requires Grouped(rows, order, rowMap) && order != [] && order[|order| - 1] == r.date
    requires rowMap[r.date].cohortSize == r.size
    ensures var row := rowMap[r.date];
            SpreadAll(Listed(order, rowMap[r.date := row.(buckets := row.buckets + [BucketOf(r)])])) == rows + [r]
  {
    hide SpreadAll, Faithful, BucketOf;
    var last, row := |order| - 1, rowMap[r.date];
    var row' := row.(buckets := row.buckets + [BucketOf(r)]);
    SpreadGrows(row, r);
    var before := Listed(order, rowMap)[..last];
    SpreadAllLast(before, row);
    SpreadAllLast(before, row');
    assert before + [row] == Listed(order, rowMap);
    assert Listed(order, rowMap[r.date := row']) == before + [row'];
  }

  lemma GroupStep(rows: seq<ResultRow>, n: nat, order: seq<int>, rowMap: map<int, RetentionRow>)
    requires Ordered(rows) && Consistent(rows) && n < |rows| && Grouped(rows[..n], order, rowMap)
    ensures var r := rows[n];
            if r.date in rowMap then
              var row := rowMap[r.date];
              Grouped(rows[..n + 1], order, rowMap[r.date := row.(buckets := row.buckets + [BucketOf(r)])])
            else
              Grouped(rows[..n + 1], order + [r.date], rowMap[r.date := RetentionRow(r.date, r.size, [BucketOf(r)])])
  {
    hide SpreadAll, Listed, Faithful, BucketOf;
    var r := rows[n];
    assert rows[..n + 1] == rows[..n] + [r];
    if n > 0 {
      assert rows[..n][n - 1] == rows[n - 1] && Before(rows[n - 1], r);
    }
    if r.date in rowMap {
      SameCohort(rows[..n], r, order, rowMap);
    } else {
      NewCohort(rows[..n], r, order, rowMap);
    }
  }

  lemma GroupedResult(rows: seq<ResultRow>, order: seq<int>, rowMap: map<int, RetentionRow>)
    requires Grouped(rows, order, rowMap)
    ensures forall i :: 0 <= i < |order| ==> order[i] in rowMap
    ensures Groups(Listed(order, rowMap), rows)
  {
  }

  method GroupRows(rows: seq<ResultRow>) returns (result: seq<RetentionRow>)
    requires Ordered(rows) && Consistent(rows)
    ensures Groups(result, rows)
  {
    var rowMap: map<int, RetentionRow> := map[];
    var order: seq<int> := [];
    assert Grouped(rows[..0], order, rowMap);
    hide Grouped, Groups, Ordered, Consistent;
    for n := 0 to |rows|
      invariant Grouped(rows[..n], order, rowMap)
    {
      var r := rows[n];
      ghost var was := rowMap;
      GroupStep(rows, n, order, rowMap);
      if r.date !in rowMap {
        rowMap := rowMap[r.date := RetentionRow(r.date, r.size, [])];
        order := order + [r.date];
      }
      var rate := 0.0;
      if r.size > 0 {
        rate := r.retained as real / r.size as real;
      }
      var row := rowMap[r.date];
      var bucket := Bucket(r.offset, r.retained, rate);
      assert bucket == BucketOf(r);
      rowMap := rowMap[r.date := row.(buckets := row.buckets + [bucket])];
      if r.date !in was {
        assert [] + [bucket] == [bucket];
        assert rowMap == was[r.date := RetentionRow(r.date, r.size, [bucket])];
      }
    }
    assert rows[..|rows|] == rows;
    GroupedResult(rows, order, rowMap);
    result := [];
    for k := 0 to |order|
      invariant result == Listed(order, rowMap)[..k]
    {
      result := result + [rowMap[order[k]]];
    }
    assert result == Listed(order, rowMap);
  }

  /** The returned rows are cohorts of users, latest first; their buckets count every active-user row of the window
      once, by its user's earliest date there and the days since. */
  method Retention(dau: set<Active>, q: Query) returns (result: seq<RetentionRow>)
    ensures Groups(result, QueryRows(dau, q))
    ensures forall i :: 0 <= i < |result| ==> IsCohort(result[i], dau, q) && CohortShape(result[i], q)
    ensures MatrixTotal(result) ==
            |set a | a in dau && a.project == q.project && q.utcToday - (q.cohorts - 1) <= a.day <= q.today|
    ensures forall a :: a in dau && a.project == q.project && q.utcToday - (q.cohorts - 1) <= a.day <= q.today ==>
              exists i, k :: CountsAt(result, dau, q, a, i, k)
  {
    QueryRowsExact(dau, q);
    var rows := QueryRows(dau, q);
    result := GroupRows(rows);
    ResultMeans(result, dau, q);
  }

  lemma ResultMeans(result: seq<RetentionRow>, dau: set<Active>, q: Query)
    requires Groups(result, QueryRows(dau, q))
    ensures forall i :: 0 <= i < |result| ==> IsCohort(result[i], dau, q) && CohortShape(result[i], q)
    ensures MatrixTotal(result) ==
            |set a | a in dau && a.project == q.project && q.utcToday - (q.cohorts - 1) <= a.day <= q.today|
    ensures forall a :: a in dau && a.project == q.project && q.utcToday - (q.cohorts - 1) <= a.day <= q.today ==>
              exists i, k :: CountsAt(result, dau, q, a, i, k)
  {
    hide Groups, QueryRows, IsCohort, CohortShape, CountsAt;
    MatrixConserves(result, dau, q);
    forall i | 0 <= i < |result|
      ensures IsCohort(result[i], dau, q) && CohortShape(result[i], q)
    {
      RowsFromTable(result, dau, q, i);
      RowsAreCohorts(result, dau, q, i);
    }
    forall a | a in dau && a.project == q.project && q.utcToday - (q.cohorts - 1) <= a.day <= q.today
      ensures exists i, k :: CountsAt(result, dau, q, a, i, k)
    {
      var i, k := CountedOnce(result, dau, q, a);
    }
  }
}
