/** The Lua script of internal/ratelimit/ratelimit.go on one sorted set, against the full history of requests. Scores
    are milliseconds; a member is the nanosecond clock reading the caller sends. The history is the sequence of requests
    itself: two requests with one member are two admissions, though they share one entry of the set. */
module SlidingWindow {
  import opened Options
  import opened Sets

  /** The window is in milliseconds. */
  datatype Limits = Limits(window: int, limit: int)

  /** The key's sorted set, as member to score, and the time Redis may drop it. */
  datatype Window = Window(entries: map<string, int>, expireAt: Option<int>)

  const EMPTY := Window(map[], None)

  /** The caller's clock reading, the time at which Redis runs the script, the member, and whether Redis has removed
      the key, which it may do once the key's expiry has come. */
  datatype Request = Request(now: int, at: int, member: string, dropped: bool)

  datatype Reply = Admitted | Rejected(oldest: int)

  // ----- the script

  /** ZREMRANGEBYSCORE key -inf now-window */
  function Trim(entries: map<string, int>, now: int, window: int): map<string, int> {
    map m | m in entries && entries[m] > now - window :: entries[m]
  }

  function Entries(w: Window, r: Request, c: Limits): map<string, int> {
    var kept := if r.dropped && w.expireAt.Some? && w.expireAt.value <= r.at then map[] else w.entries;
    Trim(kept, r.now, c.window)
  }

  /** ZRANGE key 0 0 WITHSCORES, zero for an empty set. */
  ghost function Oldest(entries: map<string, int>): (score: int)
    ensures entries != map[] ==> exists m :: m in entries && entries[m] == score
    ensures forall m :: m in entries ==> score <= entries[m]
  {
    if entries == map[] then 0 else LeastValue(entries)
  }

  ghost function Script(w: Window, r: Request, c: Limits): (Window, Reply) {
    var entries := Entries(w, r, c);
    if |entries| >= c.limit then (w.(entries := entries), Rejected(Oldest(entries)))
    else (Window(entries[r.member := r.now], Some(r.at + c.window)), Reply.Admitted)
  }

  // ----- runs of the script on one key

  /** The set after the first n requests. */
  ghost function Run(reqs: seq<Request>, n: nat, c: Limits): Window
    requires n <= |reqs|
  {
    if n == 0 then EMPTY else Script(Run(reqs, n - 1, c), reqs[n - 1], c).0
  }

  /** A run depends only on the requests it has seen. */
  lemma {:induction false} RunPrefix(reqs: seq<Request>, more: seq<Request>, n: nat, c: Limits)
    requires n <= |reqs| && reqs <= more
    ensures Run(reqs, n, c) == Run(more, n, c)
  {
    hide Script;
    if n > 0 {
      RunPrefix(reqs, more, n - 1, c);
    }
  }

  ghost function Answer(reqs: seq<Request>, i: nat, c: Limits): Reply
    requires i < |reqs|
  {
    Script(Run(reqs, i, c), reqs[i], c).1
  }

  /** The set that request i finds once it has trimmed. */
  ghost function Found(reqs: seq<Request>, i: nat, c: Limits): map<string, int>
    requires i < |reqs|
  {
    Entries(Run(reqs, i, c), reqs[i], c)
  }

  ghost predicate Admits(reqs: seq<Request>, i: nat, c: Limits) {
    i < |reqs| && Answer(reqs, i, c).Admitted?
  }

  predicate InWindow(time: int, t: int, window: int) {
    t - window < time <= t
  }

  /** Those of the first n requests that were admitted with a reading in (t - length, t]. */
  ghost function Span(reqs: seq<Request>, n: nat, t: int, length: int, c: Limits): set<nat>
    requires n <= |reqs|
  {
    set i: nat | i < n && Admits(reqs, i, c) && InWindow(reqs[i].now, t, length)
  }

  /** Those admitted in (t - window, t]. */
  ghost function Live(reqs: seq<Request>, n: nat, t: int, c: Limits): set<nat>
    requires n <= |reqs|
  {
    Span(reqs, n, t, c.window, c)
  }

  function MembersOf(reqs: seq<Request>, ids: set<nat>): set<string> {
    set i | i in ids && i < |reqs| :: reqs[i].member
  }

  /** Scripts run when their clock is read, and the clock never runs backwards. */
  ghost predicate Ordered(reqs: seq<Request>) {
    && (forall i, j :: 0 <= i < j < |reqs| ==> reqs[i].now <= reqs[j].now)
    && (forall i :: 0 <= i < |reqs| ==> reqs[i].at == reqs[i].now)
  }

  /** What the set knows of the requests before it, whatever their members. */
  ghost predicate Tracks(reqs: seq<Request>, n: nat, c: Limits)
    requires n <= |reqs|
  {
    var w := Run(reqs, n, c);
    && (forall m :: m in w.entries ==> HasSource(reqs, n, m, w.entries[m], c))
    && (forall i | 0 <= i < n && Admits(reqs, i, c) :: Kept(reqs, n, i, c))
  }

  /** The entry of m is the time of an admitted request with that member. */
  ghost predicate HasSource(reqs: seq<Request>, n: nat, m: string, score: int, c: Limits)
    requires n <= |reqs|
  {
    exists i :: 0 <= i < n && Admits(reqs, i, c) && reqs[i].member == m && reqs[i].now == score
  }

  /** Request i still has an entry, at its time or later, unless it has left the window of the last request; and the
      key does not expire before it leaves. */
  ghost predicate Kept(reqs: seq<Request>, n: nat, i: nat, c: Limits)
    requires i < n <= |reqs|
  {
    var w := Run(reqs, n, c);
    && (reqs[i].now + c.window > reqs[n - 1].now ==>
          reqs[i].member in w.entries && w.entries[reqs[i].member] >= reqs[i].now)
    && w.expireAt.Some? && reqs[i].now + c.window <= w.expireAt.value
  }

  lemma {:induction false} AlwaysTracks(reqs: seq<Request>, n: nat, c: Limits)
    requires Ordered(reqs) && n <= |reqs| && c.window >= 1
    ensures Tracks(reqs, n, c)
  {
    hide Tracks;
    if n == 0 {
      TracksNone(reqs, c);
    } else {
      AlwaysTracks(reqs, n - 1, c);
      NextTracks(reqs, n - 1, c);
    }
  }

  lemma TracksNone(reqs: seq<Request>, c: Limits)
    ensures Tracks(reqs, 0, c)
  {
  }

  /** What one request does to the set. */
  lemma NextSet(reqs: seq<Request>, n: nat, c: Limits)
    requires n < |reqs|
    ensures var w, w', found, r := Run(reqs, n, c), Run(reqs, n + 1, c), Found(reqs, n, c), reqs[n];
            && (Admits(reqs, n, c) <==> |found.Keys| < c.limit)
            && w'.entries == (if Admits(reqs, n, c) then found[r.member := r.now] else found)
            && w'.expireAt == (if Admits(reqs, n, c) then Some(r.at + c.window) else w.expireAt)
  {
    hide Oldest, Entries;
    assert |Found(reqs, n, c)| == |Found(reqs, n, c).Keys|;
  }

  /** What a request finds of an entry. */
  lemma FoundEntry(reqs: seq<Request>, n: nat, c: Limits, m: string)
    requires n < |reqs|
    ensures var w, found, now := Run(reqs, n, c), Found(reqs, n, c), reqs[n].now;
            && (m in found ==> m in w.entries && found[m] == w.entries[m] > now - c.window)
            && (m in w.entries && w.entries[m] > now - c.window && w.expireAt.Some? && w.expireAt.value > reqs[n].at ==>
                  m in found && found[m] == w.entries[m])
  {
    hide Run;
  }

  lemma NextTracks(reqs: seq<Request>, n: nat, c: Limits)
    requires Ordered(reqs) && n < |reqs| && c.window >= 1 && Tracks(reqs, n, c)
    ensures Tracks(reqs, n + 1, c)
  {
    hide Run, Admits, Found, HasSource, Kept;
    var w' := Run(reqs, n + 1, c);
    forall m | m in w'.entries
      ensures HasSource(reqs, n + 1, m, w'.entries[m], c)
    {
      NextSource(reqs, n, c, m);
    }
    forall i | 0 <= i < n + 1 && Admits(reqs, i, c)
      ensures Kept(reqs, n + 1, i, c)
    {
      NextKept(reqs, n, c, i);
    }
  }

  lemma NextSource(reqs: seq<Request>, n: nat, c: Limits, m: string)
    requires n < |reqs| && Tracks(reqs, n, c) && m in Run(reqs, n + 1, c).entries
    ensures HasSource(reqs, n + 1, m, Run(reqs, n + 1, c).entries[m], c)
  {
    hide Run, Admits, Found;
    NextSet(reqs, n, c);
    FoundEntry(reqs, n, c, m);
    if m == reqs[n].member && Admits(reqs, n, c) {
      assert Run(reqs, n + 1, c).entries[m] == reqs[n].now;
    } else {
      assert HasSource(reqs, n, m, Run(reqs, n, c).entries[m], c);
    }
  }

  lemma NextKept(reqs: seq<Request>, n: nat, c: Limits, i: nat)
    requires Ordered(reqs) && n < |reqs| && c.window >= 1 && Tracks(reqs, n, c) && i <= n && Admits(reqs, i, c)
    ensures Kept(reqs, n + 1, i, c)
  {
    hide Run, Admits, Found, HasSource;
    NextSet(reqs, n, c);
    FoundEntry(reqs, n, c, reqs[i].member);
    if i < n {
      assert Kept(reqs, n, i, c);
      assert reqs[i].now <= reqs[n - 1].now <= reqs[n].now;
    }
  }

  lemma AlwaysKept(reqs: seq<Request>, n: nat, c: Limits, i: nat)
    requires Ordered(reqs) && i < n <= |reqs| && c.window >= 1 && Admits(reqs, i, c)
    ensures Kept(reqs, n, i, c)
  {
    hide Run, Admits, Kept, HasSource;
    AlwaysTracks(reqs, n, c);
  }

  lemma AlwaysSourced(reqs: seq<Request>, n: nat, c: Limits, m: string)
    requires Ordered(reqs) && n <= |reqs| && c.window >= 1 && m in Run(reqs, n, c).entries
    ensures HasSource(reqs, n, m, Run(reqs, n, c).entries[m], c)
  {
    hide Run, Admits, Kept, HasSource;
    AlwaysTracks(reqs, n, c);
  }

  /** Neither trimming nor expiry removes an entry that would still count. */
  lemma LiveIsFound(reqs: seq<Request>, k: nat, c: Limits, i: nat)
    requires Ordered(reqs) && k < |reqs| && c.window >= 1 && i in Live(reqs, k, reqs[k].now, c)
    ensures var found := Found(reqs, k, c); reqs[i].member in found && reqs[i].now <= found[reqs[i].member]
  {
    hide Run, Admits, Found, Tracks;
    FoundEntry(reqs, k, c, reqs[i].member);
    AlwaysKept(reqs, k, c, i);
    assert reqs[i].now <= reqs[k - 1].now <= reqs[k].now;
  }

  /** And what is found is the time of an admitted request in the window. */
  lemma FoundIsLive(reqs: seq<Request>, k: nat, c: Limits, m: string) returns (i: nat)
    requires Ordered(reqs) && k < |reqs| && c.window >= 1 && m in Found(reqs, k, c)
    ensures i in Live(reqs, k, reqs[k].now, c) && reqs[i].member == m && reqs[i].now == Found(reqs, k, c)[m]
  {
    hide Run, Admits, Found, Tracks;
    FoundEntry(reqs, k, c, m);
    AlwaysSourced(reqs, k, c, m);
    i :| 0 <= i < k && Admits(reqs, i, c) && reqs[i].member == m && reqs[i].now == Run(reqs, k, c).entries[m];
  }

  /** The entries a request finds are the members of the requests admitted in its window. */
  lemma FoundAreLive(reqs: seq<Request>, k: nat, c: Limits)
    requires Ordered(reqs) && k < |reqs| && c.window >= 1
    ensures Found(reqs, k, c).Keys == MembersOf(reqs, Live(reqs, k, reqs[k].now, c))
  {
    hide Run, Admits, Found;
    var found, live := Found(reqs, k, c), Live(reqs, k, reqs[k].now, c);
    forall m | m in found.Keys
      ensures m in MembersOf(reqs, live)
    {
      var i := FoundIsLive(reqs, k, c, m);
    }
    forall i | i in live
      ensures reqs[i].member in found
    {
      LiveIsFound(reqs, k, c, i);
    }
  }

  /** The set a request leaves holds the members of all requests admitted in its window, its own included. */
  lemma LeftAreLive(reqs: seq<Request>, k: nat, c: Limits)
    requires Ordered(reqs) && k < |reqs| && c.window >= 1
    ensures Run(reqs, k + 1, c).entries.Keys == MembersOf(reqs, Live(reqs, k + 1, reqs[k].now, c))
    ensures Live(reqs, k + 1, reqs[k].now, c)
         == Live(reqs, k, reqs[k].now, c) + if Admits(reqs, k, c) then {k} else {}
  {
    FoundAreLive(reqs, k, c);
    NextSet(reqs, k, c);
    LiveMore(reqs, k, reqs[k].now, c);
    hide Run, Admits, Found;
    var before, after := Live(reqs, k, reqs[k].now, c), Live(reqs, k + 1, reqs[k].now, c);
    forall m
      ensures m in MembersOf(reqs, after) <==>
              m in MembersOf(reqs, before) || (Admits(reqs, k, c) && m == reqs[k].member)
    {
    }
  }

  // ----- when the set counts right

  predicate DistinctOn(reqs: seq<Request>, ids: set<nat>) {
    forall i, j | i in ids && j in ids && i < |reqs| && j < |reqs| && reqs[i].member == reqs[j].member :: i == j
  }

  /** Requests have at most as many members as there are requests, and as many only if the members are distinct. */
  lemma {:induction false} MembersCount(reqs: seq<Request>, ids: set<nat>)
    requires forall i :: i in ids ==> i < |reqs|
    ensures |MembersOf(reqs, ids)| <= |ids|
    ensures |MembersOf(reqs, ids)| == |ids| <==> DistinctOn(reqs, ids)
  {
    if ids != {} {
      var i := Pick(ids);
      var rest, m := ids - {i}, reqs[i].member;
      MembersCount(reqs, rest);
      assert MembersOf(reqs, ids) == MembersOf(reqs, rest) + {m};
      if m in MembersOf(reqs, rest) {
        var j :| j in rest && reqs[j].member == m;
        assert MembersOf(reqs, ids) == MembersOf(reqs, rest);
        assert !DistinctOn(reqs, ids);
      } else {
        assert DistinctOn(reqs, ids) <==> DistinctOn(reqs, rest);
      }
    }
  }

  /** The set counts the admitted requests of the window, both as request k finds it and as it leaves it. */
  ghost predicate CountsAt(reqs: seq<Request>, k: nat, c: Limits)
    requires k < |reqs|
  {
    && |Found(reqs, k, c)| == |Live(reqs, k, reqs[k].now, c)|
    && |Run(reqs, k + 1, c).entries| == |Live(reqs, k + 1, reqs[k].now, c)|
  }

  /** No request is admitted while an admitted request with the same member is in its window. */
  ghost predicate NoOverlap(reqs: seq<Request>, c: Limits) {
    forall i, k | 0 <= i < k < |reqs| && Admits(reqs, i, c) && Admits(reqs, k, c) :: Apart(reqs, i, k, c)
  }

  predicate Apart(reqs: seq<Request>, i: nat, k: nat, c: Limits)
    requires i < |reqs| && k < |reqs|
  {
    reqs[i].member == reqs[k].member ==> reqs[i].now + c.window <= reqs[k].now
  }

  lemma LiveDistinct(reqs: seq<Request>, n: nat, t: int, c: Limits)
    requires Ordered(reqs) && n <= |reqs| && NoOverlap(reqs, c)
    ensures DistinctOn(reqs, Live(reqs, n, t, c))
  {
    hide Admits;
    var live := Live(reqs, n, t, c);
    forall i, j | i in live && j in live && i < j
      ensures reqs[i].member != reqs[j].member
    {
      assert Apart(reqs, i, j, c);
    }
  }

  /** The script counts every request it admitted if and only if no request is admitted while an admitted request with
      the same member is still in the window. */
  lemma CountsExactlyWithoutOverlap(reqs: seq<Request>, c: Limits)
    requires Ordered(reqs) && c.window >= 1
    ensures (forall k | 0 <= k < |reqs| :: CountsAt(reqs, k, c)) <==> NoOverlap(reqs, c)
  {
    hide Admits, Run, Found;
    if NoOverlap(reqs, c) {
      forall k | 0 <= k < |reqs|
        ensures CountsAt(reqs, k, c)
      {
        CountsWhenDistinct(reqs, k, c);
      }
    }
    if forall k | 0 <= k < |reqs| :: CountsAt(reqs, k, c) {
      forall i, k | 0 <= i < k < |reqs| && Admits(reqs, i, c) && Admits(reqs, k, c)
        ensures Apart(reqs, i, k, c)
      {
        assert CountsAt(reqs, k, c);
        LeftAreLive(reqs, k, c);
        var live := Live(reqs, k + 1, reqs[k].now, c);
        MembersCount(reqs, live);
        assert k in live;
        assert reqs[i].now + c.window > reqs[k].now ==> i in live;
      }
    }
  }

  lemma CountsWhenDistinct(reqs: seq<Request>, k: nat, c: Limits)
    requires Ordered(reqs) && c.window >= 1 && NoOverlap(reqs, c) && k < |reqs|
    ensures CountsAt(reqs, k, c)
  {
    hide Admits, Run, Found, NoOverlap;
    FoundAreLive(reqs, k, c);
    LeftAreLive(reqs, k, c);
    LiveDistinct(reqs, k, reqs[k].now, c);
    LiveDistinct(reqs, k + 1, reqs[k].now, c);
    MembersCount(reqs, Live(reqs, k, reqs[k].now, c));
    MembersCount(reqs, Live(reqs, k + 1, reqs[k].now, c));
  }

  /** New members are enough. */
  lemma DistinctMembersSuffice(reqs: seq<Request>, c: Limits)
    requires forall i, j :: 0 <= i < j < |reqs| ==> reqs[i].member != reqs[j].member
    ensures NoOverlap(reqs, c)
  {
  }

  /** Three requests with one member pass a limit of two. */
  lemma EqualMembersSlipThrough()
    ensures var r := Request(0, 0, "7", false);
            var reqs := [r, r, r];
            |Live(reqs, 3, 0, Limits(1000, 2))| == 3
  {
    var r := Request(0, 0, "7", false);
    var reqs, c := [r, r, r], Limits(1000, 2);
    assert Trim(map["7" := 0], 0, 1000) == map["7" := 0];
    assert Run(reqs, 1, c) == Window(map["7" := 0], Some(1000));
    assert Run(reqs, 2, c) == Window(map["7" := 0], Some(1000));
    assert Admits(reqs, 0, c) && Admits(reqs, 1, c) && Admits(reqs, 2, c);
    assert Live(reqs, 3, 0, c) == {0, 1, 2};
  }

  // ----- the history decides

  /** The limiter that keeps the whole history: request n - 1 is admitted if and only if fewer than limit requests were
      admitted in the window before it. */
  function SpecLive(reqs: seq<Request>, n: nat, t: int, c: Limits): set<nat>
    requires n <= |reqs|
    decreases n, 0
  {
    if n == 0 then {}
    else SpecLive(reqs, n - 1, t, c)
         + if InWindow(reqs[n - 1].now, t, c.window) && SpecAdmits(reqs, n - 1, c) then {n - 1} else {}
  }

  predicate SpecAdmits(reqs: seq<Request>, i: nat, c: Limits)
    requires i < |reqs|
    decreases i, 1
  {
    |SpecLive(reqs, i, reqs[i].now, c)| < c.limit
  }

  /** The trimming, expiring script admits the same requests as the full history. */
  lemma {:induction false} ScriptMatchesHistory(reqs: seq<Request>, n: nat, t: int, c: Limits)
    requires Ordered(reqs) && c.window >= 1 && NoOverlap(reqs, c) && n <= |reqs|
    ensures Live(reqs, n, t, c) == SpecLive(reqs, n, t, c)
    ensures n < |reqs| ==> (Admits(reqs, n, c) <==> SpecAdmits(reqs, n, c))
    decreases n, if n < |reqs| && t != reqs[n].now then 1 else 0
  {
    hide Admits, Live, NoOverlap;
    if n > 0 {
      ScriptMatchesHistory(reqs, n - 1, t, c);
      LiveMore(reqs, n - 1, t, c);
    } else {
      assert Live(reqs, 0, t, c) == {} by {
        LiveNone(reqs, t, c);
      }
    }
    if n < |reqs| {
      if t != reqs[n].now {
        ScriptMatchesHistory(reqs, n, reqs[n].now, c);
      } else {
        CountsWhenDistinct(reqs, n, c);
        NextSet(reqs, n, c);
      }
    }
  }

  lemma LiveNone(reqs: seq<Request>, t: int, c: Limits)
    ensures Live(reqs, 0, t, c) == {}
  {
  }

  lemma LiveMore(reqs: seq<Request>, n: nat, t: int, c: Limits)
    requires n < |reqs|
    ensures Live(reqs, n + 1, t, c)
         == Live(reqs, n, t, c) + if Admits(reqs, n, c) && InWindow(reqs[n].now, t, c.window) then {n} else {}
  {
  }

  /** No interval of the window's length holds admitted requests with more than limit members; without overlap, none
      holds more than limit admitted requests. */
  lemma {:induction false} WindowBound(reqs: seq<Request>, n: nat, t: int, c: Limits)
    requires Ordered(reqs) && c.window >= 1 && c.limit >= 0 && n <= |reqs|
    ensures |MembersOf(reqs, Live(reqs, n, t, c))| <= c.limit
    ensures NoOverlap(reqs, c) ==> |Live(reqs, n, t, c)| <= c.limit
  {
    hide Run, NoOverlap, Found, Admits;
    if n > 0 {
      var k := n - 1;
      LiveMore(reqs, k, t, c);
      WindowBound(reqs, k, t, c);
      if k in Live(reqs, n, t, c) {
        var near := Live(reqs, k, reqs[k].now, c);
        assert Live(reqs, k, t, c) <= near;
        FoundAreLive(reqs, k, c);
        NextSet(reqs, k, c);
        assert MembersOf(reqs, Live(reqs, n, t, c)) <= MembersOf(reqs, near) + {reqs[k].member};
        SubsetSize(MembersOf(reqs, Live(reqs, n, t, c)), MembersOf(reqs, near) + {reqs[k].member});
      } else {
        assert Live(reqs, n, t, c) == Live(reqs, k, t, c);
      }
    } else {
      assert MembersOf(reqs, Live(reqs, n, t, c)) == {};
    }
    if NoOverlap(reqs, c) {
      LiveDistinct(reqs, n, t, c);
      MembersCount(reqs, Live(reqs, n, t, c));
    }
  }

  // ----- scripts that run later than their clock was read

  /** Scripts run in the given order, each at most d after its caller read the clock. */
  ghost predicate Delayed(reqs: seq<Request>, d: int) {
    && (forall i, j :: 0 <= i < j < |reqs| ==> reqs[i].at <= reqs[j].at)
    && (forall i :: 0 <= i < |reqs| ==> reqs[i].now <= reqs[i].at <= reqs[i].now + d)
  }

  /** Equal members are equal readings, and no two admitted requests share one. */
  ghost predicate Stamped(reqs: seq<Request>, c: Limits) {
    && (forall i, j | 0 <= i < |reqs| && 0 <= j < |reqs| && reqs[i].member == reqs[j].member ::
          reqs[i].now == reqs[j].now)
    && (forall i, j | 0 <= i < j < |reqs| && Admits(reqs, i, c) && Admits(reqs, j, c) ::
          reqs[i].member != reqs[j].member)
  }

  /** Request i has its entry until a script runs a window after its reading, and the key lives as long. */
  ghost predicate KeptLate(reqs: seq<Request>, n: nat, i: nat, c: Limits)
    requires i < n <= |reqs|
  {
    var w := Run(reqs, n, c);
    && (reqs[n - 1].at < reqs[i].now + c.window ==>
          reqs[i].member in w.entries && w.entries[reqs[i].member] == reqs[i].now)
    && w.expireAt.Some? && reqs[i].at + c.window <= w.expireAt.value
  }

  lemma {:induction false} AlwaysKeptLate(reqs: seq<Request>, n: nat, i: nat, d: int, c: Limits)
    requires Delayed(reqs, d) && Stamped(reqs, c) && c.window >= 1 && i < n <= |reqs| && Admits(reqs, i, c)
    ensures KeptLate(reqs, n, i, c)
  {
    hide Run, Admits, Found;
    var k := n - 1;
    NextSet(reqs, k, c);
    if i < k {
      AlwaysKeptLate(reqs, k, i, d, c);
      FoundEntry(reqs, k, c, reqs[i].member);
      assert reqs[k - 1].at <= reqs[k].at && reqs[i].at <= reqs[k].at;
    }
  }

  /** An entry is found while the script runs less than a window after its reading. */
  lemma FoundLate(reqs: seq<Request>, k: nat, i: nat, d: int, c: Limits)
    requires Delayed(reqs, d) && Stamped(reqs, c) && c.window >= 1 && i < k < |reqs| && Admits(reqs, i, c)
    requires reqs[k].at < reqs[i].now + c.window
    ensures reqs[i].member in Found(reqs, k, c)
  {
    hide Run, Admits, Found;
    AlwaysKeptLate(reqs, k, i, d, c);
    FoundEntry(reqs, k, c, reqs[i].member);
    assert reqs[k - 1].at <= reqs[k].at;
  }

  lemma SpanMore(reqs: seq<Request>, n: nat, t: int, length: int, c: Limits)
    requires n < |reqs|
    ensures Span(reqs, n + 1, t, length, c)
         == Span(reqs, n, t, length, c)
            + if Admits(reqs, n, c) && InWindow(reqs[n].now, t, length) then {n} else {}
  {
  }

  /** Among requests delayed by at most d, no interval of readings as long as the window less d holds more than limit
      admissions. */
  lemma {:induction false} DelayedBound(reqs: seq<Request>, n: nat, t: int, d: int, c: Limits)
    requires Delayed(reqs, d) && Stamped(reqs, c) && c.window >= 1 && c.limit >= 0 && n <= |reqs|
    ensures |Span(reqs, n, t, c.window - d, c)| <= c.limit
  {
    hide Run, Found, Admits, Span;
    if n > 0 {
      var k := n - 1;
      SpanMore(reqs, k, t, c.window - d, c);
      DelayedBound(reqs, k, t, d, c);
      if Admits(reqs, k, c) && InWindow(reqs[k].now, t, c.window - d) {
        SpanIsFound(reqs, k, t, d, c);
      } else {
        assert Span(reqs, n, t, c.window - d, c) == Span(reqs, k, t, c.window - d, c);
      }
    } else {
      assert Span(reqs, 0, t, c.window - d, c) == {} by {
        SpanNone(reqs, t, c.window - d, c);
      }
    }
  }

  lemma SpanNone(reqs: seq<Request>, t: int, length: int, c: Limits)
    ensures Span(reqs, 0, t, length, c) == {}
  {
  }

  /** An admitted request of the interval found the earlier ones there. */
  lemma SpanIsFound(reqs: seq<Request>, k: nat, t: int, d: int, c: Limits)
    requires Delayed(reqs, d) && Stamped(reqs, c) && c.window >= 1 && k < |reqs| && Admits(reqs, k, c)
    requires InWindow(reqs[k].now, t, c.window - d)
    ensures |Span(reqs, k, t, c.window - d, c)| < c.limit
  {
    hide Run, Found, Admits;
    var near := Span(reqs, k, t, c.window - d, c);
    forall i | i in near
      ensures reqs[i].member in Found(reqs, k, c).Keys
    {
      FoundLate(reqs, k, i, d, c);
    }
    SpanDistinct(reqs, k, t, c.window - d, c);
    MembersCount(reqs, near);
    SubsetSize(MembersOf(reqs, near), Found(reqs, k, c).Keys);
    NextSet(reqs, k, c);
  }

  lemma SpanDistinct(reqs: seq<Request>, n: nat, t: int, length: int, c: Limits)
    requires Stamped(reqs, c) && n <= |reqs|
    ensures DistinctOn(reqs, Span(reqs, n, t, length, c))
  {
    hide Admits;
    var span := Span(reqs, n, t, length, c);
    forall i, j | i in span && j in span && i < j
      ensures reqs[i].member != reqs[j].member
    {
    }
  }

  // ----- and no longer interval

  function Name(i: nat): string {
    seq(i, _ => 'a')
  }

  /** Requests that read zero and run at once. */
  function Zeros(n: nat): seq<Request> {
    seq(n, i requires 0 <= i => Request(0, 0, Name(i), false))
  }

  /** The set after k of them. */
  ghost predicate HoldsZeros(w: Window, k: nat, c: Limits) {
    && |w.entries| == k && (forall m :: m in w.entries ==> |m| < k && w.entries[m] == 0)
    && (k > 0 ==> w.expireAt == Some(c.window))
  }

  lemma ZeroStep(w: Window, k: nat, c: Limits)
    requires HoldsZeros(w, k, c) && k < c.limit && c.window >= 1
    ensures var (w', reply) := Script(w, Request(0, 0, Name(k), false), c); HoldsZeros(w', k + 1, c) && reply.Admitted?
  {
    assert Trim(w.entries, 0, c.window) == w.entries;
    assert |Name(k)| == k && Name(k) !in w.entries;
    assert |w.entries[Name(k) := 0]| == k + 1;
  }

  lemma {:induction false} ZerosRun(reqs: seq<Request>, n: nat, c: Limits)
    requires n <= |reqs| && n <= c.limit && c.window >= 1
    requires forall i :: 0 <= i < n ==> reqs[i] == Request(0, 0, Name(i), false)
    ensures HoldsZeros(Run(reqs, n, c), n, c)
    ensures forall i :: 0 <= i < n ==> Admits(reqs, i, c)
  {
    hide HoldsZeros, Script, Admits, Run;
    if n == 0 {
      NoZeros(reqs, c);
    } else {
      var k := n - 1;
      ZerosRun(reqs, k, c);
      NextRun(reqs, k, c);
      ZeroStep(Run(reqs, k, c), k, c);
    }
  }

  lemma NoZeros(reqs: seq<Request>, c: Limits)
    ensures HoldsZeros(Run(reqs, 0, c), 0, c)
  {
  }

  lemma NextRun(reqs: seq<Request>, n: nat, c: Limits)
    requires n < |reqs|
    ensures Run(reqs, n + 1, c) == Script(Run(reqs, n, c), reqs[n], c).0
    ensures Admits(reqs, n, c) == Script(Run(reqs, n, c), reqs[n], c).1.Admitted?
  {
  }

  /** As many requests as the limit allows at time zero, one a window later, and one of a caller that read its clock
      early: the script before the last one has forgotten the first ones. */
  function LateReader(early: int, c: Limits): seq<Request>
    requires c.limit >= 0
  {
    Zeros(c.limit) + [Request(c.window, c.window, Name(c.limit), false),
                      Request(early, c.window, Name(c.limit + 1), false)]
  }

  lemma LateReaderRun(early: int, c: Limits)
    requires c.limit >= 2 && c.window >= 1 && 0 <= early <= c.window
    ensures var reqs := LateReader(early, c);
            (forall i :: 0 <= i < c.limit ==> Admits(reqs, i, c)) && Admits(reqs, c.limit + 1, c)
  {
    var reqs, n := LateReader(early, c), c.limit;
    assert reqs[n].now == c.window && reqs[n + 1].now == early;
    ZerosRun(reqs, n, c);
    NextRun(reqs, n, c);
    NextRun(reqs, n + 1, c);
    hide Run, Admits;
    var w := Run(reqs, n, c);
    assert Trim(w.entries, c.window, c.window) == map[];
    var w1 := Run(reqs, n + 1, c);
    assert w1 == Window(map[reqs[n].member := c.window], Some(c.window + c.window));
    assert Trim(w1.entries, early, c.window) == w1.entries;
    assert |w1.entries| == 1;
  }

  /** No interval longer than the window less the delay is safe. */
  lemma LateReaderSlipsIn(d: int, length: int, c: Limits)
    requires c.limit >= 2 && c.window >= 1 && d >= 0 && length >= 1 && length > c.window - d
    ensures var early := if d <= c.window then c.window - d else 0;
            var reqs := LateReader(early, c);
            && Delayed(reqs, d) && Stamped(reqs, c)
            && |Span(reqs, |reqs|, early, length, c)| > c.limit
  {
    var early := if d <= c.window then c.window - d else 0;
    var reqs, n := LateReader(early, c), c.limit;
    LateReaderRun(early, c);
    LateReaderOk(early, d, c);
    hide Admits, LateReader;
    var span := Span(reqs, |reqs|, early, length, c);
    var counted := seq(n, i requires 0 <= i => i) + [n + 1];
    Counted(counted, span);
  }

  lemma LateReaderOk(early: int, d: int, c: Limits)
    requires c.limit >= 2 && 0 <= early <= c.window <= early + d && d >= 0
    ensures var reqs := LateReader(early, c);
            && Delayed(reqs, d) && Stamped(reqs, c) && |reqs| == c.limit + 2 && reqs[c.limit + 1].now == early
            && forall i :: 0 <= i < c.limit ==> reqs[i].now == 0
  {
    hide Admits;
    var reqs, n := LateReader(early, c), c.limit;
    assert forall i :: 0 <= i < |reqs| ==> |reqs[i].member| == i;
    assert forall i :: 0 <= i < n ==> reqs[i] == Zeros(n)[i];
  }

  lemma {:induction false} Counted(ids: seq<nat>, span: set<nat>)
    requires forall i, j :: 0 <= i < j < |ids| ==> ids[i] != ids[j]
    requires forall i :: 0 <= i < |ids| ==> ids[i] in span
    ensures |ids| <= |span|
  {
    if ids != [] {
      var x := ids[|ids| - 1];
      Counted(ids[..|ids| - 1], span - {x});
    }
  }

  /** With requests delayed by at most d, every interval of the given length holds at most limit admissions if and only
      if it is no longer than the window less d. */
  lemma DelayedBoundExactly(d: int, length: int, c: Limits)
    requires c.limit >= 2 && c.window >= 1 && d >= 0 && length >= 1
    ensures (forall reqs, t: int :: Delayed(reqs, d) && Stamped(reqs, c) ==>
               |Span(reqs, |reqs|, t, length, c)| <= c.limit)
            <==> length <= c.window - d
  {
    if length <= c.window - d {
      forall reqs, t: int | Delayed(reqs, d) && Stamped(reqs, c)
        ensures |Span(reqs, |reqs|, t, length, c)| <= c.limit
      {
        hide Admits;
        DelayedBound(reqs, |reqs|, t, d, c);
        SubsetSize(Span(reqs, |reqs|, t, length, c), Span(reqs, |reqs|, t, c.window - d, c));
      }
    } else {
      LateReaderSlipsIn(d, length, c);
    }
  }

  // ----- Retry-After

  /** ceil(max(oldest + window - now, 0) / 1000) */
  function RetryAfter(oldest: int, now: int, window: int): int {
    var diff := oldest + window - now;
    if diff < 0 then 0 else (diff + 999) / 1000
  }

  /** The least number of seconds that covers the milliseconds. */
  predicate RoundsUp(seconds: int, millis: int) {
    1000 * (seconds - 1) < millis <= 1000 * seconds
  }

  lemma RejectionFinds(reqs: seq<Request>, i: nat, c: Limits)
    requires i < |reqs| && c.limit >= 1 && Answer(reqs, i, c).Rejected?
    ensures var found, oldest := Found(reqs, i, c), Answer(reqs, i, c).oldest;
            && |found.Keys| >= c.limit && !Admits(reqs, i, c)
            && (exists m :: m in found && found[m] == oldest)
            && forall m :: m in found ==> oldest <= found[m]
  {
    hide Run, Entries;
    assert |Found(reqs, i, c)| == |Found(reqs, i, c).Keys|;
  }

  /** The time a rejection reports is that of an admitted request in the window, and without overlap of the oldest one;
      the delay is the wait for it to leave, rounded up to whole seconds, at least one and at most the window's
      length. */
  lemma RejectionDelay(reqs: seq<Request>, i: nat, c: Limits)
    requires Ordered(reqs) && c.window >= 1 && c.limit >= 1 && i < |reqs| && Answer(reqs, i, c).Rejected?
    ensures var oldest, now, live := Answer(reqs, i, c).oldest, reqs[i].now, Live(reqs, i, reqs[i].now, c);
            && now - c.window < oldest <= now
            && 1 <= RetryAfter(oldest, now, c.window) <= (c.window + 999) / 1000
            && RoundsUp(RetryAfter(oldest, now, c.window), oldest + c.window - now)
            && c.limit <= |live|
            && (exists j :: j in live && reqs[j].now == oldest)
            && (NoOverlap(reqs, c) ==> forall j :: j in live ==> oldest <= reqs[j].now)
  {
    hide Run, NoOverlap, Admits, Answer, Found;
    RejectionFinds(reqs, i, c);
    FoundAreLive(reqs, i, c);
    var found, live := Found(reqs, i, c), Live(reqs, i, reqs[i].now, c);
    MembersCount(reqs, live);
    var m :| m in found && found[m] == Answer(reqs, i, c).oldest;
    var first := FoundIsLive(reqs, i, c, m);
    if NoOverlap(reqs, c) {
      LiveDistinct(reqs, i, reqs[i].now, c);
      forall j | j in live
        ensures Answer(reqs, i, c).oldest <= reqs[j].now
      {
        LiveIsFound(reqs, i, c, j);
        var l := FoundIsLive(reqs, i, c, reqs[j].member);
        assert l == j;
      }
    }
  }

  /** After a rejection nothing is admitted before the reported entry leaves the window, whatever the members. */
  lemma NothingBeforeOldestLeaves(reqs: seq<Request>, i: nat, k: nat, c: Limits)
    requires Ordered(reqs) && c.window >= 1 && c.limit >= 1 && i < k < |reqs| && Answer(reqs, i, c).Rejected?
    requires reqs[k].now < Answer(reqs, i, c).oldest + c.window
    ensures !Admits(reqs, k, c)
  {
    hide Run, Admits, Answer, Found;
    RejectionFinds(reqs, i, c);
    NextSet(reqs, k, c);
    var found, later := Found(reqs, i, c), Found(reqs, k, c);
    forall m | m in found.Keys
      ensures m in later.Keys
    {
      var j := FoundIsLive(reqs, i, c, m);
      assert j in Live(reqs, k, reqs[k].now, c);
      LiveIsFound(reqs, k, c, j);
    }
    SubsetSize(found.Keys, later.Keys);
  }

  /** A request made after the advertised delay is admitted unless another was admitted in between. */
  lemma AdmittedAfterDelay(reqs: seq<Request>, i: nat, k: nat, c: Limits)
    requires Ordered(reqs) && c.window >= 1 && c.limit >= 1 && i < k < |reqs| && Answer(reqs, i, c).Rejected?
    requires reqs[k].now >= reqs[i].now + 1000 * RetryAfter(Answer(reqs, i, c).oldest, reqs[i].now, c.window)
    requires forall j :: i < j < k ==> !Admits(reqs, j, c)
    ensures Admits(reqs, k, c)
  {
    hide Run, Admits, Answer, Found;
    RejectionFinds(reqs, i, c);
    RejectionDelay(reqs, i, c);
    hide RetryAfter;
    FoundAreLive(reqs, i, c);
    WindowBound(reqs, i, reqs[i].now, c);
    NextSet(reqs, k, c);
    var found, later := Found(reqs, i, c), Found(reqs, k, c);
    var m :| m in found && found[m] == Answer(reqs, i, c).oldest;
    forall x | x in later.Keys
      ensures x in found.Keys - {m}
    {
      var j := FoundIsLive(reqs, k, c, x);
      assert j in Live(reqs, i, reqs[i].now, c);
      LiveIsFound(reqs, i, c, j);
    }
    SubsetSize(later.Keys, found.Keys - {m});
  }
}
