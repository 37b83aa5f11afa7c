/** internal/analytics/funnel.go: a chain of one table expression per step, and the counts read from it. */
module Funnel {
  import opened Options
  import opened Sets
  import opened Numbers
  import opened Events

  /** `window` is in the unit of the timestamps. */
  datatype Query = Query(project: string, steps: seq<string>, window: int)

  /** A table expression grouped by user: one timestamp per user. */
  type Cte = map<string, int>

  /** The timestamps of the user's events for step i. */
  function Hits(rows: Rows, q: Query, i: nat, user: string): set<int>
    requires i < |q.steps|
  {
    set r | r in rows && rows[r].project == q.project && rows[r].name == q.steps[i] && rows[r].user == Some(user)
      :: rows[r].timestamp
  }

  function Users(rows: Rows): set<string> {
    set r | r in rows && rows[r].user.Some? :: rows[r].user.value
  }

  function Within(times: set<int>, after: int, window: int): set<int> {
    set t | t in times && after < t <= after + window
  }

  function EntryCte(rows: Rows, q: Query): Cte
    requires |q.steps| >= 1
  {
    map u | u in Users(rows) && Hits(rows, q, 0, u) != {} :: Least(Hits(rows, q, 0, u))
  }

  function NextCte(rows: Rows, q: Query, i: nat, prev: Cte): Cte
    requires i < |q.steps|
  {
    map u | u in prev && Within(Hits(rows, q, i, u), prev[u], q.window) != {} ::
      Least(Within(Hits(rows, q, i, u), prev[u], q.window))
  }

  function Step(rows: Rows, q: Query, i: nat): Cte
    requires i < |q.steps|
  {
    if i == 0 then EntryCte(rows, q) else NextCte(rows, q, i, Step(rows, q, i - 1))
  }

  lemma NextStep(rows: Rows, q: Query, i: nat, user: string)
    requires 1 <= i < |q.steps|
    ensures var prev, next := Step(rows, q, i - 1), Step(rows, q, i);
            && (user in next ==> user in prev)
            && (user in prev ==> var near := Within(Hits(rows, q, i, user), prev[user], q.window);
                  (user in next <==> near != {}) && (near != {} ==> next[user] == Least(near)))
  {
  }

  lemma EntryStep(rows: Rows, q: Query, user: string)
    requires |q.steps| >= 1
    ensures user in Step(rows, q, 0) <==> Hits(rows, q, 0, user) != {}
    ensures user in Step(rows, q, 0) ==> Step(rows, q, 0)[user] == Least(Hits(rows, q, 0, user))
  {
  }

  // ----- the meaning of a step

  /** c starts at the user's first entry and each next time is the earliest later event of its step; the window plays
      no part. */
  ghost predicate Greedy(rows: Rows, q: Query, user: string, c: seq<int>) {
    && 1 <= |c| <= |q.steps|
    && IsEntry(rows, q, user, c[0])
    && (forall j :: 1 <= j < |c| ==> EarliestLink(rows, q, user, c, j))
  }

  ghost predicate IsEntry(rows: Rows, q: Query, user: string, first: int)
    requires |q.steps| >= 1
  {
    first in Hits(rows, q, 0, user) && forall t :: t in Hits(rows, q, 0, user) ==> first <= t
  }

  ghost predicate EarliestLink(rows: Rows, q: Query, user: string, c: seq<int>, j: nat)
    requires 1 <= j < |c| <= |q.steps|
  {
    && c[j] in Hits(rows, q, j, user) && c[j - 1] < c[j]
    && (forall t :: t in Hits(rows, q, j, user) && c[j - 1] < t ==> c[j] <= t)
  }

  predicate GapsWithin(c: seq<int>, window: int) {
    forall j :: 1 <= j < |c| ==> c[j] - c[j - 1] <= window
  }

  /** Any choice of one event per step in strictly increasing order. */
  ghost predicate Chain(rows: Rows, q: Query, user: string, d: seq<int>) {
    && 1 <= |d| <= |q.steps|
    && (forall j :: 0 <= j < |d| ==> d[j] in Hits(rows, q, j, user))
    && (forall j :: 1 <= j < |d| ==> d[j - 1] < d[j])
  }

  lemma GreedyGrows(rows: Rows, q: Query, user: string, c: seq<int>, t: int)
    requires Greedy(rows, q, user, c) && |c| < |q.steps|
    requires EarliestLink(rows, q, user, c + [t], |c|)
    ensures Greedy(rows, q, user, c + [t])
  {
    hide Hits;
    forall j | 1 <= j < |c|
      ensures EarliestLink(rows, q, user, c + [t], j)
    {
      assert EarliestLink(rows, q, user, c, j);
    }
  }

  lemma GreedyPrefix(rows: Rows, q: Query, user: string, c: seq<int>, k: nat)
    requires Greedy(rows, q, user, c) && 1 <= k <= |c|
    ensures Greedy(rows, q, user, c[..k])
  {
    hide Hits;
    forall j | 1 <= j < k
      ensures EarliestLink(rows, q, user, c[..k], j)
    {
      assert EarliestLink(rows, q, user, c, j);
    }
  }

  /** The earliest event inside the window is the earliest later event, if that one is inside. */
  lemma EarliestInWindow(times: set<int>, after: int, window: int, t: int)
    ensures var near := Within(times, after, window);
            near != {} && t == Least(near) <==>
            t in times && after < t <= after + window && forall x :: x in times && after < x ==> t <= x
  {
    var near := Within(times, after, window);
    if near != {} && t == Least(near) {
      forall x | x in times && after < x
        ensures t <= x
      {
        if x <= after + window {
          assert x in near;
        }
      }
    }
    if t in times && after < t <= after + window && forall x :: x in times && after < x ==> t <= x {
      assert t in near;
    }
  }

  /** A counted user has a greedy chain with every gap inside the window, ending at the step's timestamp. */
  lemma {:induction false} CountedHasChain(rows: Rows, q: Query, i: nat, user: string) returns (c: seq<int>)
    requires i < |q.steps| && user in Step(rows, q, i)
    ensures |c| == i + 1 && Greedy(rows, q, user, c) && GapsWithin(c, q.window) && c[i] == Step(rows, q, i)[user]
  {
    hide Step, Hits, Within, Least;
    var t := Step(rows, q, i)[user];
    if i == 0 {
      EntryStep(rows, q, user);
      c := [t];
    } else {
      NextStep(rows, q, i, user);
      var before := CountedHasChain(rows, q, i - 1, user);
      c := before + [t];
      ExtendsInWindow(rows, q, user, before, t);
    }
  }

  lemma ExtendsInWindow(rows: Rows, q: Query, user: string, c: seq<int>, t: int)
    requires Greedy(rows, q, user, c) && GapsWithin(c, q.window) && |c| < |q.steps|
    requires var near := Within(Hits(rows, q, |c|, user), c[|c| - 1], q.window); near != {} && t == Least(near)
    ensures Greedy(rows, q, user, c + [t]) && GapsWithin(c + [t], q.window)
  {
    hide Step, Hits, Within, Least;
    EarliestInWindow(Hits(rows, q, |c|, user), c[|c| - 1], q.window, t);
    var k := |c|;
    assert (c + [t])[k] == t && (c + [t])[k - 1] == c[k - 1];
    assert EarliestLink(rows, q, user, c + [t], k);
    GreedyGrows(rows, q, user, c, t);
  }

  /** A greedy chain inside the window is counted, at its own timestamp. */
  lemma {:induction false} ChainIsCounted(rows: Rows, q: Query, user: string, c: seq<int>)
    requires Greedy(rows, q, user, c) && GapsWithin(c, q.window)
    ensures user in Step(rows, q, |c| - 1) && Step(rows, q, |c| - 1)[user] == c[|c| - 1]
    decreases |c|
  {
    hide Step, Hits, Within, Least;
    var i := |c| - 1;
    if i == 0 {
      EntryStep(rows, q, user);
    } else {
      NextStep(rows, q, i, user);
      GreedyPrefix(rows, q, user, c, i);
      ChainIsCounted(rows, q, user, c[..i]);
      assert EarliestLink(rows, q, user, c, i);
      assert c[i] - c[i - 1] <= q.window;
      EarliestInWindow(Hits(rows, q, i, user), c[i - 1], q.window, c[i]);
    }
  }

  /** A user is counted at step i exactly when their greedy chain reaches it with every gap inside the window. */
  lemma CountedMeans(rows: Rows, q: Query, i: nat, user: string)
    requires i < |q.steps|
    ensures user in Step(rows, q, i) <==>
            exists c :: |c| == i + 1 && Greedy(rows, q, user, c) && GapsWithin(c, q.window)
  {
    if user in Step(rows, q, i) {
      var c := CountedHasChain(rows, q, i, user);
    }
    if c :| |c| == i + 1 && Greedy(rows, q, user, c) && GapsWithin(c, q.window) {
      ChainIsCounted(rows, q, user, c);
    }
  }

  // ----- the meaning of a step in rows

  /** A stored event of the user for step i. */
  predicate IsHit(rows: Rows, q: Query, i: nat, user: string, id: string)
    requires i < |q.steps|
  {
    id in rows && rows[id].project == q.project && rows[id].name == q.steps[i] && rows[id].user == Some(user)
  }

  /** One stored event per step: the first of the entry step, then each time the first one later than the one before,
      by no more than the window. */
  predicate EarliestRows(rows: Rows, q: Query, user: string, ids: seq<string>) {
    && 1 <= |ids| <= |q.steps|
    && (forall j :: 0 <= j < |ids| ==> IsHit(rows, q, j, user, ids[j]))
    && (forall x :: x in rows && IsHit(rows, q, 0, user, x) ==> rows[ids[0]].timestamp <= rows[x].timestamp)
    && (forall j :: 1 <= j < |ids| ==> NextRow(rows, q, user, ids[j - 1], ids[j], j))
  }

  predicate NextRow(rows: Rows, q: Query, user: string, a: string, b: string, j: nat)
    requires a in rows && b in rows && j < |q.steps|
  {
    && rows[a].timestamp < rows[b].timestamp <= rows[a].timestamp + q.window
    && forall x :: x in rows && IsHit(rows, q, j, user, x) && rows[a].timestamp < rows[x].timestamp ==>
         rows[b].timestamp <= rows[x].timestamp
  }

  lemma HitRow(rows: Rows, q: Query, i: nat, user: string, t: int) returns (id: string)
    requires i < |q.steps| && t in Hits(rows, q, i, user)
    ensures IsHit(rows, q, i, user, id) && rows[id].timestamp == t
  {
    id :| id in rows && IsHit(rows, q, i, user, id) && rows[id].timestamp == t;
  }

  /** A user is counted at step i exactly when the table holds such events up to it. */
  lemma CountedByRows(rows: Rows, q: Query, i: nat, user: string)
    requires i < |q.steps|
    ensures user in Step(rows, q, i) <==> exists ids :: |ids| == i + 1 && EarliestRows(rows, q, user, ids)
  {
    hide Step, EarliestRows;
    if user in Step(rows, q, i) {
      var c := CountedHasChain(rows, q, i, user);
      var ids := RowsOfChain(rows, q, user, c);
    }
    if ids :| |ids| == i + 1 && EarliestRows(rows, q, user, ids) {
      var c := ChainOfRows(rows, q, user, ids);
      ChainIsCounted(rows, q, user, c);
    }
  }

  lemma {:induction false} RowsOfChain(rows: Rows, q: Query, user: string, c: seq<int>) returns (ids: seq<string>)
    requires Greedy(rows, q, user, c) && GapsWithin(c, q.window)
    ensures |ids| == |c| && EarliestRows(rows, q, user, ids)
    ensures forall j :: 0 <= j < |c| ==> ids[j] in rows && rows[ids[j]].timestamp == c[j]
    decreases |c|
  {
    hide Hits, IsHit, NextRow;
    var n := |c| - 1;
    if n == 0 {
      var id := HitRow(rows, q, 0, user, c[0]);
      ids := [id];
      forall x | x in rows && IsHit(rows, q, 0, user, x)
        ensures rows[id].timestamp <= rows[x].timestamp
      {
        HitTime(rows, q, 0, user, x);
      }
    } else {
      GreedyPrefix(rows, q, user, c, n);
      var before := RowsOfChain(rows, q, user, c[..n]);
      assert EarliestLink(rows, q, user, c, n);
      var id := HitRow(rows, q, n, user, c[n]);
      ids := before + [id];
      assert c[n] - c[n - 1] <= q.window;
      LinkedRows(rows, q, user, c, before[n - 1], id);
      assert forall j :: 1 <= j < n ==> NextRow(rows, q, user, before[j - 1], before[j], j);
    }
  }

  lemma LinkedRows(rows: Rows, q: Query, user: string, c: seq<int>, a: string, b: string)
    requires 2 <= |c| <= |q.steps| && EarliestLink(rows, q, user, c, |c| - 1)
    requires c[|c| - 1] - c[|c| - 2] <= q.window
    requires a in rows && rows[a].timestamp == c[|c| - 2] && b in rows && rows[b].timestamp == c[|c| - 1]
    ensures NextRow(rows, q, user, a, b, |c| - 1)
  {
    hide Hits, IsHit;
    forall x | x in rows && IsHit(rows, q, |c| - 1, user, x) && rows[a].timestamp < rows[x].timestamp
      ensures rows[b].timestamp <= rows[x].timestamp
    {
      HitTime(rows, q, |c| - 1, user, x);
    }
  }

  lemma HitTime(rows: Rows, q: Query, i: nat, user: string, id: string)
    requires i < |q.steps| && IsHit(rows, q, i, user, id)
    ensures rows[id].timestamp in Hits(rows, q, i, user)
  {
  }

  lemma ChainOfRows(rows: Rows, q: Query, user: string, ids: seq<string>) returns (c: seq<int>)
    requires EarliestRows(rows, q, user, ids)
    ensures |c| == |ids| && Greedy(rows, q, user, c) && GapsWithin(c, q.window)
  {
    c := seq(|ids|, j requires 0 <= j < |ids| => rows[ids[j]].timestamp);
    forall j | 1 <= j < |c|
      ensures EarliestLink(rows, q, user, c, j)
    {
      assert NextRow(rows, q, user, ids[j - 1], ids[j], j) && IsHit(rows, q, j, user, ids[j]);
    }
    assert IsHit(rows, q, 0, user, ids[0]);
    forall j | 1 <= j < |c|
      ensures c[j] - c[j - 1] <= q.window
    {
      assert NextRow(rows, q, user, ids[j - 1], ids[j], j);
    }
  }

  // ----- other windows and other chains

  /** A longer window loses nobody and moves no timestamp. */
  lemma WindowMonotone(rows: Rows, q: Query, wider: int, i: nat)
    requires i < |q.steps| && q.window <= wider
    ensures var q' := q.(window := wider);
            && (forall u :: u in Step(rows, q, i) ==>
                  u in Step(rows, q', i) && Step(rows, q', i)[u] == Step(rows, q, i)[u])
            && |Step(rows, q, i)| <= |Step(rows, q', i)|
  {
    var q' := q.(window := wider);
    var narrow, wide := Step(rows, q, i), Step(rows, q', i);
    forall u | u in narrow
      ensures u in wide && wide[u] == narrow[u]
    {
      var c := CountedHasChain(rows, q, i, u);
      SameGreedy(rows, q, q', u, c);
      ChainIsCounted(rows, q', u, c);
    }
    SubsetSize(narrow.Keys, wide.Keys);
  }

  /** Greedy chains depend on the steps they use, not on the window or on later steps. */
  lemma SameGreedy(rows: Rows, q: Query, q': Query, user: string, c: seq<int>)
    requires Greedy(rows, q, user, c) && q'.project == q.project
    requires |c| <= |q'.steps| && q'.steps[..|c|] == q.steps[..|c|]
    ensures Greedy(rows, q', user, c)
  {
    forall j | 0 <= j < |c|
      ensures Hits(rows, q', j, user) == Hits(rows, q, j, user)
    {
      assert q'.steps[j] == q'.steps[..|c|][j] == q.steps[..|c|][j] == q.steps[j];
    }
    forall j | 1 <= j < |c|
      ensures EarliestLink(rows, q', user, c, j)
    {
      assert EarliestLink(rows, q, user, c, j);
    }
  }

  /** Each timestamp of a greedy chain is at or before the same place of every chain of the user. */
  lemma {:induction false} GreedyIsEarliest(rows: Rows, q: Query, user: string, c: seq<int>, d: seq<int>, j: nat)
    requires Greedy(rows, q, user, c) && Chain(rows, q, user, d) && j < |c| && j < |d|
    ensures c[j] <= d[j]
  {
    if j > 0 {
      GreedyIsEarliest(rows, q, user, c, d, j - 1);
      assert EarliestLink(rows, q, user, c, j);
      assert d[j - 1] < d[j];
    }
  }

  // ----- one more event

  predicate OfUser(r: Row, q: Query, user: string) {
    r.user == Some(user) && r.project == q.project
  }

  /** An event of the user that comes before the chain's entry as another one, or strictly between two of its links as
      an earlier match of the next step. */
  predicate Disturbs(r: Row, q: Query, user: string, c: seq<int>)
    requires 1 <= |c| <= |q.steps|
  {
    && OfUser(r, q, user)
    && ((r.name == q.steps[0] && r.timestamp < c[0])
        || exists j :: 1 <= j < |c| && Overtakes(r, q, c, j))
  }

  predicate Overtakes(r: Row, q: Query, c: seq<int>, j: nat)
    requires 1 <= j < |c| <= |q.steps|
  {
    r.name == q.steps[j] && c[j - 1] < r.timestamp < c[j]
  }

  lemma HitsMore(rows: Rows, q: Query, id: string, r: Row, i: nat, user: string)
    requires i < |q.steps| && id !in rows
    ensures Hits(rows[id := r], q, i, user) == Hits(rows, q, i, user)
            + if r.user == Some(user) && r.project == q.project && r.name == q.steps[i] then {r.timestamp} else {}
  {
    var rows' := rows[id := r];
    forall t | t in Hits(rows, q, i, user)
      ensures t in Hits(rows', q, i, user)
    {
      var x :| x in rows && rows[x].project == q.project && rows[x].name == q.steps[i]
               && rows[x].user == Some(user) && rows[x].timestamp == t;
      assert x in rows' && rows'[x] == rows[x];
    }
    assert rows'[id] == r;
  }

  lemma LinkDisturbed(rows: Rows, q: Query, user: string, c: seq<int>, id: string, r: Row, j: nat)
    requires 1 <= j < |c| <= |q.steps| && EarliestLink(rows, q, user, c, j) && id !in rows
    ensures EarliestLink(rows[id := r], q, user, c, j) <==> !(OfUser(r, q, user) && Overtakes(r, q, c, j))
  {
    hide Hits;
    HitsMore(rows, q, id, r, j, user);
    if OfUser(r, q, user) && Overtakes(r, q, c, j) {
      assert r.timestamp in Hits(rows[id := r], q, j, user);
    }
  }

  lemma EntryDisturbed(rows: Rows, q: Query, user: string, first: int, id: string, r: Row)
    requires |q.steps| >= 1 && id !in rows && IsEntry(rows, q, user, first)
    ensures IsEntry(rows[id := r], q, user, first) <==>
            !(OfUser(r, q, user) && r.name == q.steps[0] && r.timestamp < first)
  {
    hide Hits;
    HitsMore(rows, q, id, r, 0, user);
    if OfUser(r, q, user) && r.name == q.steps[0] && r.timestamp < first {
      assert r.timestamp in Hits(rows[id := r], q, 0, user);
    }
  }

  /** An added event leaves a user's greedy chain as it is if and only if it does not disturb it. */
  lemma AddedEventDisturbs(rows: Rows, q: Query, user: string, c: seq<int>, id: string, r: Row)
    requires Greedy(rows, q, user, c) && id !in rows
    ensures Greedy(rows[id := r], q, user, c) <==> !Disturbs(r, q, user, c)
  {
    hide IsEntry, EarliestLink, Overtakes;
    var rows' := rows[id := r];
    EntryDisturbed(rows, q, user, c[0], id, r);
    forall j | 1 <= j < |c|
      ensures EarliestLink(rows', q, user, c, j) <==> !(OfUser(r, q, user) && Overtakes(r, q, c, j))
    {
      LinkDisturbed(rows, q, user, c, id, r, j);
    }
  }

  /** So a counted user stays counted, at the same timestamp, unless the added event disturbs the user's chain. */
  lemma UndisturbedStaysCounted(rows: Rows, q: Query, user: string, i: nat, id: string, r: Row) returns (c: seq<int>)
    requires i < |q.steps| && user in Step(rows, q, i) && id !in rows
    ensures |c| == i + 1 && Greedy(rows, q, user, c) && GapsWithin(c, q.window)
    ensures !Disturbs(r, q, user, c) ==>
              user in Step(rows[id := r], q, i) && Step(rows[id := r], q, i)[user] == Step(rows, q, i)[user]
  {
    c := CountedHasChain(rows, q, i, user);
    hide Step, Greedy, Disturbs;
    AddedEventDisturbs(rows, q, user, c, id, r);
    if !Disturbs(r, q, user, c) {
      ChainIsCounted(rows[id := r], q, user, c);
    }
  }

  /** A chain inside the window need not be counted, and an added event can uncount a user: the greedy chain starts at
      the first entry even when a later one is close enough. */
  lemma ChainNeedNotCount()
    ensures var early := Row("0", "p", "enter", Some("u"), None, None, 0, 0);
            var late := Row("1", "p", "enter", Some("u"), None, None, 95, 95);
            var done := Row("2", "p", "finish", Some("u"), None, None, 100, 100);
            var q := Query("p", ["enter", "finish"], 10);
            && "u" in Step(map["1" := late, "2" := done], q, 1)
            && "u" !in Step(map["0" := early, "1" := late, "2" := done], q, 1)
            && Chain(map["0" := early, "1" := late, "2" := done], q, "u", [95, 100]) && GapsWithin([95, 100], 10)
  {
    var early := Row("0", "p", "enter", Some("u"), None, None, 0, 0);
    var late := Row("1", "p", "enter", Some("u"), None, None, 95, 95);
    var done := Row("2", "p", "finish", Some("u"), None, None, 100, 100);
    var q := Query("p", ["enter", "finish"], 10);
    var few, all := map["1" := late, "2" := done], map["0" := early, "1" := late, "2" := done];
    hide Step, Users, Least;
    HitTime(few, q, 0, "u", "1");
    HitTime(few, q, 1, "u", "2");
    HitTime(all, q, 0, "u", "0");
    HitTime(all, q, 0, "u", "1");
    HitTime(all, q, 1, "u", "2");
    SecondStep(few, q, "u", 95);
    SecondStep(all, q, "u", 0);
  }

  /** Who reaches the second step, from the time of their first entry. */
  lemma SecondStep(rows: Rows, q: Query, user: string, first: int)
    requires |q.steps| >= 2
    requires first in Hits(rows, q, 0, user) && forall t :: t in Hits(rows, q, 0, user) ==> first <= t
    ensures user in Step(rows, q, 1) <==> exists t :: t in Hits(rows, q, 1, user) && first < t <= first + q.window
  {
    EntryStep(rows, q, user);
    NextStep(rows, q, 1, user);
    hide Step, Hits;
    var near := Within(Hits(rows, q, 1, user), first, q.window);
    if near != {} {
      assert Least(near) in near;
    }
    if t :| t in Hits(rows, q, 1, user) && first < t <= first + q.window {
      assert t in near;
    }
  }

  // ----- accounting

  datatype FunnelStep = FunnelStep(event: string, entered: nat, converted: nat, dropped: int, conversionRate: real)

  datatype FunnelResult = FunnelResult(steps: seq<FunnelStep>, window: int, overallConversionRate: real)

  /** Each step keeps a subset of the users of the step before. */
  lemma StepShrinks(rows: Rows, q: Query, i: nat)
    requires i + 1 < |q.steps|
    ensures Step(rows, q, i + 1).Keys <= Step(rows, q, i).Keys
    ensures |Step(rows, q, i + 1)| <= |Step(rows, q, i)|
    ensures |Step(rows, q, i)| - |Step(rows, q, i + 1)| == |Step(rows, q, i).Keys - Step(rows, q, i + 1).Keys|
  {
    hide Step;
    forall u | u in Step(rows, q, i + 1)
      ensures u in Step(rows, q, i)
    {
      NextStep(rows, q, i + 1, u);
    }
    SubsetSize(Step(rows, q, i + 1).Keys, Step(rows, q, i).Keys);
    var lost := Step(rows, q, i).Keys - Step(rows, q, i + 1).Keys;
    assert lost + Step(rows, q, i + 1).Keys == Step(rows, q, i).Keys;
  }

  lemma {:induction false} StepInEntry(rows: Rows, q: Query, i: nat)
    requires i < |q.steps|
    ensures Step(rows, q, i).Keys <= Step(rows, q, 0).Keys
  {
    hide Step;
    if i > 0 {
      StepInEntry(rows, q, i - 1);
      StepShrinks(rows, q, i - 1);
    }
  }

  /** The result a funnel query owes: every step's users, those lost on the way to the next, and the rates. */
  predicate Accounts(r: FunnelResult, rows: Rows, q: Query) {
    && |r.steps| == |q.steps| >= 1
    && (forall i :: 0 <= i < |q.steps| ==> StepAccounts(r.steps[i], rows, q, i))
    && r.overallConversionRate == Rate(|Step(rows, q, |q.steps| - 1)|, |Step(rows, q, 0)|)
  }

  predicate StepAccounts(s: FunnelStep, rows: Rows, q: Query, i: nat)
    requires i < |q.steps|
  {
    && s.event == q.steps[i] && s.entered == |Step(rows, q, i)|
    && if i + 1 < |q.steps| then
         && s.converted == |Step(rows, q, i + 1)|
         && s.dropped == |Step(rows, q, i).Keys - Step(rows, q, i + 1).Keys|
         && s.conversionRate == Rate(s.converted, s.entered)
       else s.converted == 0 && s.dropped == 0 && s.conversionRate == 0.0
  }

  function DroppedTotal(steps: seq<FunnelStep>): int
    decreases |steps|
  {
    if steps == [] then 0 else DroppedTotal(steps[..|steps| - 1]) + steps[|steps| - 1].dropped
  }

  /** The product of the conversion rates of all steps but the last. */
  function RateProduct(steps: seq<FunnelStep>): real
    decreases |steps|
  {
    if |steps| <= 1 then 1.0 else Product(RateProduct(steps[..|steps| - 1]), steps[|steps| - 2].conversionRate)
  }

  function Product(x: real, y: real): real {
    x * y
  }

  /** Everyone who entered either is dropped at some step or reaches the last. */
  lemma DroppedAndLast(r: FunnelResult, rows: Rows, q: Query)
    requires Accounts(r, rows, q)
    ensures DroppedTotal(r.steps) + r.steps[|r.steps| - 1].entered == r.steps[0].entered
    ensures forall i :: 0 <= i < |r.steps| - 1 ==> r.steps[i + 1].entered == r.steps[i].converted <= r.steps[i].entered
  {
    hide Step;
    var n := |r.steps|;
    DroppedUpTo(r, rows, q, n - 1);
    assert StepAccounts(r.steps[n - 1], rows, q, n - 1);
    assert r.steps[..n] == r.steps && r.steps[..n][..n - 1] == r.steps[..n - 1];
    forall i | 0 <= i < n - 1
      ensures r.steps[i + 1].entered == r.steps[i].converted <= r.steps[i].entered
    {
      assert StepAccounts(r.steps[i], rows, q, i) && StepAccounts(r.steps[i + 1], rows, q, i + 1);
      StepShrinks(rows, q, i);
    }
  }

  lemma {:induction false} DroppedUpTo(r: FunnelResult, rows: Rows, q: Query, k: nat)
    requires Accounts(r, rows, q) && k < |r.steps|
    ensures DroppedTotal(r.steps[..k]) + r.steps[k].entered == r.steps[0].entered
  {
    hide Step;
    if k > 0 {
      DroppedUpTo(r, rows, q, k - 1);
      assert r.steps[..k][..k - 1] == r.steps[..k - 1];
      assert StepAccounts(r.steps[k - 1], rows, q, k - 1) && StepAccounts(r.steps[k], rows, q, k);
      StepShrinks(rows, q, k - 1);
    }
  }

  /** When somebody reaches every step, the overall rate is the product of the step rates. */
  lemma OverallIsProduct(r: FunnelResult, rows: Rows, q: Query)
    requires Accounts(r, rows, q) && forall i :: 0 <= i < |r.steps| ==> r.steps[i].entered > 0
    ensures r.overallConversionRate == RateProduct(r.steps)
  {
    hide Step;
    var n := |r.steps|;
    ProductUpTo(r, rows, q, n - 1);
    assert r.steps[..n] == r.steps;
    assert StepAccounts(r.steps[n - 1], rows, q, n - 1) && StepAccounts(r.steps[0], rows, q, 0);
  }

  lemma {:induction false} ProductUpTo(r: FunnelResult, rows: Rows, q: Query, k: nat)
    requires Accounts(r, rows, q) && k < |r.steps| && forall i :: 0 <= i < |r.steps| ==> r.steps[i].entered > 0
    ensures RateProduct(r.steps[..k + 1]) == r.steps[k].entered as real / r.steps[0].entered as real
  {
    hide Step, StepAccounts, RateProduct;
    if k == 0 {
      assert RateProduct(r.steps[..1]) == 1.0 by {
        NoProduct(r.steps[..1]);
      }
    } else {
      ProductUpTo(r, rows, q, k - 1);
      ProductStep(r, rows, q, k);
      Telescope(r.steps[0].entered as real, r.steps[k - 1].entered as real, r.steps[k].entered as real);
    }
  }

  lemma NoProduct(steps: seq<FunnelStep>)
    requires |steps| == 1
    ensures RateProduct(steps) == 1.0
  {
  }

  lemma ProductStep(r: FunnelResult, rows: Rows, q: Query, k: nat)
    requires Accounts(r, rows, q) && 1 <= k < |r.steps| && r.steps[k - 1].entered > 0
    ensures RateProduct(r.steps[..k + 1]) ==
            RateProduct(r.steps[..k]) * (r.steps[k].entered as real / r.steps[k - 1].entered as real)
  {
    hide Step, RateProduct, Rate;
    assert r.steps[..k + 1][..k] == r.steps[..k];
    ProductUnfolds(r.steps[..k + 1]);
    assert StepAccounts(r.steps[k], rows, q, k);
    StepRate(r.steps[k - 1], rows, q, k - 1);
  }

  lemma ProductUnfolds(steps: seq<FunnelStep>)
    requires |steps| >= 2
    ensures RateProduct(steps) == Product(RateProduct(steps[..|steps| - 1]), steps[|steps| - 2].conversionRate)
  {
    hide Product;
  }

  lemma StepRate(s: FunnelStep, rows: Rows, q: Query, i: nat)
    requires i + 1 < |q.steps| && StepAccounts(s, rows, q, i) && s.entered > 0
    ensures s.conversionRate == |Step(rows, q, i + 1)| as real / s.entered as real
  {
    hide Step;
  }

  lemma Telescope(a: real, b: real, c: real)
    requires a > 0.0 && b > 0.0
    ensures (b / a) * (c / b) == c / a
  {
  }

  /** The first k counts are those of the funnel of the first k steps. */
  lemma {:induction false} PrefixFunnel(rows: Rows, q: Query, k: nat, i: nat)
    requires i < k <= |q.steps|
    ensures Step(rows, q.(steps := q.steps[..k]), i) == Step(rows, q, i)
  {
    hide EntryCte, NextCte;
    if i == 0 {
      PrefixEntry(rows, q, k);
    } else {
      PrefixFunnel(rows, q, k, i - 1);
      PrefixNext(rows, q, k, i, Step(rows, q, i - 1));
    }
  }

  lemma PrefixEntry(rows: Rows, q: Query, k: nat)
    requires 1 <= k <= |q.steps|
    ensures EntryCte(rows, q.(steps := q.steps[..k])) == EntryCte(rows, q)
  {
    forall u
      ensures Hits(rows, q.(steps := q.steps[..k]), 0, u) == Hits(rows, q, 0, u)
    {
      PrefixHits(rows, q, k, 0, u);
    }
    hide Hits, Users, Least;
  }

  lemma PrefixNext(rows: Rows, q: Query, k: nat, i: nat, prev: Cte)
    requires i < k <= |q.steps|
    ensures NextCte(rows, q.(steps := q.steps[..k]), i, prev) == NextCte(rows, q, i, prev)
  {
    forall u
      ensures Hits(rows, q.(steps := q.steps[..k]), i, u) == Hits(rows, q, i, u)
    {
      PrefixHits(rows, q, k, i, u);
    }
    hide Hits, Within, Least;
  }

  lemma PrefixHits(rows: Rows, q: Query, k: nat, i: nat, user: string)
    requires i < k <= |q.steps|
    ensures Hits(rows, q.(steps := q.steps[..k]), i, user) == Hits(rows, q, i, user)
  {
  }

  // ----- the code

  /** The query: the table expressions in order, then one count per step over the left joins onto the entry step. */
  method RunQuery(rows: Rows, q: Query) returns (counts: seq<nat>)
    requires |q.steps| >= 1
    ensures |counts| == |q.steps|
    ensures forall i :: 0 <= i < |counts| ==> counts[i] == |Step(rows, q, i)|
  {
    hide EntryCte, NextCte;
    var entry := EntryCte(rows, q);
    var ctes := [entry];
    for i := 1 to |q.steps|
      invariant |ctes| == i
      invariant forall j :: 0 <= j < i ==> ctes[j] == Step(rows, q, j)
    {
      ctes := ctes + [NextCte(rows, q, i, ctes[i - 1])];
    }
    counts := [];
    for i := 0 to |q.steps|
      invariant |counts| == i
      invariant forall j :: 0 <= j < i ==> counts[j] == |Step(rows, q, j)|
    {
      var joined := set u | u in entry && u in ctes[i];
      JoinedUsers(rows, q, i, joined);
      counts := counts + [|joined|];
    }
  }

  lemma JoinedUsers(rows: Rows, q: Query, i: nat, joined: set<string>)
    requires i < |q.steps| && joined == set u | u in Step(rows, q, 0) && u in Step(rows, q, i)
    ensures |joined| == |Step(rows, q, i)|
  {
    StepInEntry(rows, q, i);
    hide Step;
    assert joined == Step(rows, q, i).Keys;
  }

  method Funnel(rows: Rows, q: Query) returns (r: FunnelResult)
    requires |q.steps| >= 1
    ensures Accounts(r, rows, q) && r.window == q.window
  {
    hide Step, StepAccounts;
    var counts := RunQuery(rows, q);
    var n := |q.steps|;
    var steps := [];
    for i := 0 to n
      invariant |steps| == i
      invariant forall j :: 0 <= j < i ==> StepAccounts(steps[j], rows, q, j)
    {
      var fs := FunnelStep(q.steps[i], counts[i], 0, 0, 0.0);
      if i < n - 1 {
        var converted := counts[i + 1];
        StepShrinks(rows, q, i);
        fs := fs.(converted := converted, dropped := counts[i] - converted);
        if counts[i] > 0 {
          fs := fs.(conversionRate := converted as real / counts[i] as real);
        }
      }
      StepFits(fs, rows, q, i);
      steps := steps + [fs];
    }
    var overall := 0.0;
    if counts[0] > 0 {
      overall := counts[n - 1] as real / counts[0] as real;
    }
    r := FunnelResult(steps, q.window, overall);
  }

  lemma StepFits(s: FunnelStep, rows: Rows, q: Query, i: nat)
    requires i < |q.steps| && s.event == q.steps[i] && s.entered == |Step(rows, q, i)|
    requires i + 1 < |q.steps| ==>
             && s.converted == |Step(rows, q, i + 1)|
             && s.dropped == s.entered - s.converted && s.conversionRate == Rate(s.converted, s.entered)
    requires i + 1 == |q.steps| ==> s.converted == 0 && s.dropped == 0 && s.conversionRate == 0.0
    ensures StepAccounts(s, rows, q, i)
  {
  }
}
