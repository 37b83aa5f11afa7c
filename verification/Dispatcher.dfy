/** internal/webhooks: the statements on delivery rows and the dispatcher's code. One dispatcher's round is a run of
    the delivery machine that takes no row twice and leaves no claim behind; it meets the lease exactly when each of its
    writes falls before the claims run out. */
module Dispatcher {
  import opened Options
  import opened Events
  import opened W = Webhooks
  import SubLimiter

  /** A claimed row joined with its subscription. */
  datatype Claimed = Claimed(id: string, sub: string, attempts: nat)

  /** What happens outside around one attempt: the time that passes before it, whether the secret decrypts, the HTTP
      outcome and its duration, and the fate of the final UPDATE. */
  datatype World = World(pause: nat, decrypts: bool, delivered: bool, elapsed: nat, o: Outcome)

  function PairsIn(rows: W.Table): set<Pair> {
    set i | i in rows :: Pair(rows[i].sub, rows[i].event)
  }

  function AsSet(subs: seq<Subscription>): set<Subscription> {
    set s | s in subs
  }

  lemma NoPairs(subs: seq<Subscription>, e: Event)
    ensures PairsOf(AsSet(subs[..0]), e) == {}
  {
  }

  lemma PairsOfMore(subs: seq<Subscription>, k: nat, e: Event)
    requires k < |subs|
    ensures PairsOf(AsSet(subs[..k + 1]), e)
         == PairsOf(AsSet(subs[..k]), e) + if Matches(subs[k], e) then {Pair(subs[k].id, e.id)} else {}
  {
  }

  lemma ExistsInPairs(rows: W.Table, sub: string, event: string)
    ensures Exists(rows, sub, event) ==> Pair(sub, event) in PairsIn(rows)
  {
  }

  class DeliveryStore {
    var rows: W.Table

    constructor ()
      ensures rows == map[]
    {
      rows := map[];
    }

    /** One new pending row for each matching subscription that has none for this event yet. */
    method EnqueueDeliveries(subs: seq<Subscription>, e: Event, ids: seq<string>, now: int) returns (inserted: nat)
      requires |ids| == |subs|
      requires forall i :: 0 <= i < |ids| ==> ids[i] !in rows
      requires forall i, j :: 0 <= i < j < |ids| ==> ids[i] != ids[j]
      modifies this
      ensures forall i :: i in old(rows) ==> i in rows && rows[i] == old(rows)[i]
      ensures forall i :: i in rows && i !in old(rows) ==>
                            rows[i].event == e.id && rows[i].status.Pending? && rows[i].attempts == 0
                            && rows[i].nextRetryAt == now
      ensures PairsIn(rows) == PairsIn(old(rows)) + PairsOf(AsSet(subs), e)
      ensures inserted == |rows| - |old(rows)|
    {
      hide PairsIn, PairsOf, AsSet, Matches, Exists;
      inserted := 0;
      var k := 0;
      assert PairsOf(AsSet(subs[..0]), e) == {} by {
        NoPairs(subs, e);
      }
      while k < |subs|
        invariant k <= |subs|
        invariant forall i :: i in old(rows) ==> i in rows && rows[i] == old(rows)[i]
        invariant forall i :: i in rows && i !in old(rows) ==>
                                rows[i].event == e.id && rows[i].status.Pending? && rows[i].attempts == 0
                                && rows[i].nextRetryAt == now
        invariant forall i :: i in rows && i !in old(rows) ==> exists j :: 0 <= j < k && ids[j] == i
        invariant PairsIn(rows) == PairsIn(old(rows)) + PairsOf(AsSet(subs[..k]), e)
        invariant inserted == |rows| - |old(rows)|
      {
        var s := subs[k];
        ghost var before := rows;
        PairsOfMore(subs, k, e);
        if Matches(s, e) {
          ExistsInPairs(rows, s.id, e.id);
          if !Exists(rows, s.id, e.id) {
            rows := rows[ids[k] := Delivery(s.id, e.id, Pending, 0, now)];
            inserted := inserted + 1;
            PairsMore(before, ids[k], rows[ids[k]]);
          }
        }
        k := k + 1;
      }
      assert subs[..k] == subs;
    }

    /** `chosen` are the due rows the server picked and locked. */
    method ClaimDueDeliveries(chosen: seq<string>, limit: nat, until: int, now: int, o: Outcome)
      returns (results: seq<Claimed>, err: bool)
      requires Claimable(rows, chosen, limit, now)
      modifies this
      ensures err == o.Error()
      ensures rows == if o.Applied() then TakeAll(old(rows), chosen, until) else old(rows)
      ensures results == if err then [] else ResultsOf(old(rows), chosen)
      ensures !err ==> |results| == |chosen| && forall i :: 0 <= i < |results| ==>
                results[i].id == chosen[i] && results[i].sub == old(rows)[chosen[i]].sub
                && results[i].attempts == old(rows)[chosen[i]].attempts
    {
      results, err := [], o.Error();
      if !o.Applied() {
        return;
      }
      var k := 0;
      while k < |chosen|
        invariant k <= |chosen|
        invariant rows == TakeAll(old(rows), chosen[..k], until)
        invariant forall i :: k <= i < |chosen| ==> chosen[i] in rows && rows[chosen[i]] == old(rows)[chosen[i]]
        invariant results == ResultsOf(old(rows), chosen)[..k]
      {
        assert chosen[..k + 1][..k] == chosen[..k];
        var id := chosen[k];
        results := results + [ResultOf(rows, id)];
        rows := Take(rows, id, until);
        k := k + 1;
      }
      assert chosen[..k] == chosen;
      if err {
        results := [];
      }
    }

    method MarkDelivered(id: string, o: Outcome) returns (err: bool)
      modifies this
      ensures err == o.Error()
      ensures rows == if o.Applied() then W.MarkDelivered(old(rows), id) else old(rows)
      ensures rows == if o.Applied() && id in old(rows)
                      then old(rows)[id := old(rows)[id].(status := Delivered)] else old(rows)
    {
      if o.Applied() {
        rows := W.MarkDelivered(rows, id);
      }
      err := o.Error();
    }

    method RescheduleOrFail(id: string, attempts: nat, nextRetryAt: int, markFailed: bool, o: Outcome)
      returns (err: bool)
      modifies this
      ensures err == o.Error()
      ensures rows == if o.Applied() then W.RescheduleOrFail(old(rows), id, attempts, nextRetryAt, markFailed)
                      else old(rows)
      ensures rows.Keys == old(rows).Keys && forall x :: x in rows && x != id ==> rows[x] == old(rows)[x]
      ensures o.Applied() && id in old(rows) ==>
                && rows[id].sub == old(rows)[id].sub && rows[id].event == old(rows)[id].event
                && rows[id].attempts == attempts && rows[id].nextRetryAt == nextRetryAt
                && rows[id].status == if markFailed then Failed else Pending
      ensures !o.Applied() ==> rows == old(rows)
    {
      if o.Applied() {
        rows := W.RescheduleOrFail(rows, id, attempts, nextRetryAt, markFailed);
      }
      err := o.Error();
    }
  }

  lemma PairsMore(rows: W.Table, id: string, d: Delivery)
    requires id !in rows
    ensures PairsIn(rows[id := d]) == PairsIn(rows) + {Pair(d.sub, d.event)}
  {
    var rows' := rows[id := d];
    assert rows'[id] == d;
    forall p | p in PairsIn(rows)
      ensures p in PairsIn(rows')
    {
      var i :| i in rows && Pair(rows[i].sub, rows[i].event) == p;
      assert rows'[i] == rows[i];
    }
  }

  ghost predicate Claimable(rows: W.Table, chosen: seq<string>, limit: nat, now: int) {
    && |chosen| <= limit
    && (forall i, j :: 0 <= i < j < |chosen| ==> chosen[i] != chosen[j])
    && forall i :: 0 <= i < |chosen| ==> Due(rows, chosen[i], now)
  }

  function TakeAll(rows: W.Table, chosen: seq<string>, until: int): W.Table
    decreases |chosen|
  {
    if chosen == [] then rows
    else
      var n := |chosen| - 1;
      var before := TakeAll(rows, chosen[..n], until);
      if chosen[n] in before then Take(before, chosen[n], until) else before
  }

  /** A batch claim moves the due time of the chosen rows to the end of the lease and changes nothing else. */
  lemma {:induction false} TakeAllMeans(rows: W.Table, chosen: seq<string>, limit: nat, until: int, now: int)
    requires Claimable(rows, chosen, limit, now)
    ensures var rows' := TakeAll(rows, chosen, until);
            && rows'.Keys == rows.Keys
            && forall id :: id in rows ==>
                 rows'[id] == if id in chosen then rows[id].(nextRetryAt := until) else rows[id]
    decreases |chosen|
  {
    if chosen != [] {
      var n := |chosen| - 1;
      TakeAllMeans(rows, chosen[..n], limit, until, now);
      assert chosen[n] !in chosen[..n] && Due(rows, chosen[n], now);
      assert forall id :: id in chosen <==> id in chosen[..n] || id == chosen[n];
    }
  }

  function ResultOf(rows: W.Table, id: string): Claimed
    requires id in rows
  {
    Claimed(id, rows[id].sub, rows[id].attempts)
  }

  function ResultsOf(rows: W.Table, chosen: seq<string>): seq<Claimed>
    requires forall i :: 0 <= i < |chosen| ==> chosen[i] in rows
  {
    seq(|chosen|, i requires 0 <= i < |chosen| => ResultOf(rows, chosen[i]))
  }

  // ----- pieces of a run

  ghost predicate ExclusiveFrom(s: State, acts: seq<Action>) {
    forall k :: 0 <= k < |acts| ==> GrabsFree(Exec(s, acts[..k]), acts[k])
  }

  ghost predicate TimelyFrom(s: State, acts: seq<Action>) {
    forall k :: 0 <= k < |acts| ==> WritesInTime(Exec(s, acts[..k]), acts[k])
  }

  lemma ConcatAt(s: State, a: seq<Action>, b: seq<Action>, k: nat)
    requires k < |a + b|
    ensures k < |a| ==> (a + b)[..k] == a[..k] && (a + b)[k] == a[k]
    ensures k >= |a| ==> Exec(s, (a + b)[..k]) == Exec(Exec(s, a), b[..k - |a|]) && (a + b)[k] == b[k - |a|]
  {
    if k >= |a| {
      assert (a + b)[..k] == a + b[..k - |a|];
      ExecAppend(s, a, b[..k - |a|]);
    }
  }

  lemma ExclusiveConcat(s: State, a: seq<Action>, b: seq<Action>)
    requires ExclusiveFrom(s, a) && ExclusiveFrom(Exec(s, a), b)
    ensures ExclusiveFrom(s, a + b) && Exec(s, a + b) == Exec(Exec(s, a), b)
  {
    hide Apply, Exec, GrabsFree;
    ExecAppend(s, a, b);
    forall k | 0 <= k < |a + b|
      ensures GrabsFree(Exec(s, (a + b)[..k]), (a + b)[k])
    {
      ConcatAt(s, a, b, k);
    }
  }

  lemma TimelyConcat(s: State, a: seq<Action>, b: seq<Action>)
    ensures TimelyFrom(s, a + b) <==> TimelyFrom(s, a) && TimelyFrom(Exec(s, a), b)
  {
    hide Apply, Exec, WritesInTime;
    if TimelyFrom(s, a) && TimelyFrom(Exec(s, a), b) {
      forall k | 0 <= k < |a + b|
        ensures WritesInTime(Exec(s, (a + b)[..k]), (a + b)[k])
      {
        ConcatAt(s, a, b, k);
      }
    }
    if TimelyFrom(s, a + b) {
      forall k | 0 <= k < |a|
        ensures WritesInTime(Exec(s, a[..k]), a[k])
      {
        ConcatAt(s, a, b, k);
        assert WritesInTime(Exec(s, (a + b)[..k]), (a + b)[k]);
      }
      forall k | 0 <= k < |b|
        ensures WritesInTime(Exec(Exec(s, a), b[..k]), b[k])
      {
        ConcatAt(s, a, b, |a| + k);
        assert WritesInTime(Exec(s, (a + b)[..|a| + k]), (a + b)[|a| + k]);
      }
    }
  }

  lemma OneTimely(s: State, a: Action)
    ensures TimelyFrom(s, [a]) <==> WritesInTime(s, a)
  {
    assert [a][..0] == [];
  }

  lemma NoWritesTimely(s: State, acts: seq<Action>)
    requires forall a :: a in acts ==> !a.Write?
    ensures TimelyFrom(s, acts)
  {
  }

  /** Rounds of a single dispatcher, with anything but a claim in between, make an exclusive run; timely rounds make a
      timely one. */
  lemma RoundsAdd(acts: seq<Action>, round: seq<Action>)
    ensures Exclusive(acts) && ExclusiveFrom(Run(acts), round) ==> Exclusive(acts + round)
    ensures Timely(acts) && TimelyFrom(Run(acts), round) ==> Timely(acts + round)
  {
    hide Apply, Exec, GrabsFree, WritesInTime;
    TimelyConcat(INIT, acts, round);
    assert Timely(acts) <==> TimelyFrom(INIT, acts);
    assert Timely(acts + round) <==> TimelyFrom(INIT, acts + round);
    if Exclusive(acts) && ExclusiveFrom(Run(acts), round) {
      assert ExclusiveFrom(INIT, acts);
      ExclusiveConcat(INIT, acts, round);
    }
  }

  lemma NoGrabsExclusive(s: State, acts: seq<Action>)
    requires forall a :: a in acts ==> !a.Grab?
    ensures ExclusiveFrom(s, acts)
  {
  }

  // ----- one attempt

  function AttemptSchedule(t: nat, allowed: bool, w: World): seq<Action> {
    [Tick(w.pause)] + TrySchedule(t, allowed, w)
  }

  function TrySchedule(t: nat, allowed: bool, w: World): seq<Action> {
    if !allowed then [Skip(t)]
    else if !w.decrypts then [Write(t, w.o)]
    else [Post(t, w.delivered), Tick(w.elapsed)] + [Write(t, w.o)]
  }

  /** Claim t is the result `del` in memory, leased until then, nothing done about it yet. */
  predicate Holds(s: State, t: nat, del: Claimed, until: int) {
    t in s.claims && s.claims[t] == Claim(del.id, del.attempts, until, None)
  }

  /** The rows, the POSTs and the clock after one attempt that starts at `now`. */
  function AttemptRows(rows: W.Table, del: Claimed, now: int, allowed: bool, w: World): W.Table {
    if !allowed || !w.o.Applied() then rows
    else if !w.decrypts then WriteResult(rows, Claim(del.id, del.attempts, 0, None), now)
    else WriteResult(rows, Claim(del.id, del.attempts, 0, Some(w.delivered)), now + w.elapsed)
  }

  function AttemptPosts(posts: map<string, nat>, del: Claimed, allowed: bool, w: World): map<string, nat> {
    if allowed && w.decrypts then posts[del.id := CountOf(posts, del.id) + 1] else posts
  }

  function AttemptClock(now: int, allowed: bool, w: World): int {
    if allowed && w.decrypts then now + w.elapsed else now
  }

  lemma AttemptKeys(rows: W.Table, del: Claimed, now: int, allowed: bool, w: World)
    ensures var rows' := AttemptRows(rows, del, now, allowed, w);
            rows'.Keys == rows.Keys && forall id :: id in rows && id != del.id ==> rows'[id] == rows[id]
  {
  }

  /** What one attempt does to its row, to the POSTs and to the clock, case by case: skipped, not written, delivered, or
      failed, by the POST or by the decryption. */
  lemma AttemptMeans(rows: W.Table, posts: map<string, nat>, del: Claimed, now: int, allowed: bool, w: World)
    requires del.attempts < 5
    ensures var rows', end := AttemptRows(rows, del, now, allowed, w), AttemptClock(now, allowed, w);
            var made := allowed && w.decrypts;
            && end == now + (if made then w.elapsed else 0)
            && AttemptPosts(posts, del, allowed, w) ==
               (if made then posts[del.id := CountOf(posts, del.id) + 1] else posts)
            && rows'.Keys == rows.Keys && (forall id :: id in rows && id != del.id ==> rows'[id] == rows[id])
            && (del.id in rows ==>
                  if !allowed || !w.o.Applied() then rows'[del.id] == rows[del.id]
                  else if w.decrypts && w.delivered then rows'[del.id] == rows[del.id].(status := Delivered)
                  else FailedAttempt(rows[del.id], rows'[del.id], del.attempts, end))
  {
    hide WriteResult;
    WriteResultMeans(rows, Claim(del.id, del.attempts, 0, None), now);
    WriteResultMeans(rows, Claim(del.id, del.attempts, 0, Some(w.delivered)), now + w.elapsed);
  }

  /** An attempt writes its result to its own row, touches its own claim only, and ends it; it is timely exactly when
      it writes nothing or its clock ends before the lease. */
  lemma AttemptRuns(s: State, t: nat, del: Claimed, until: int, allowed: bool, w: World)
    requires Holds(s, t, del, until)
    ensures var s', now := Exec(s, AttemptSchedule(t, allowed, w)), s.now + w.pause;
            && s'.claims == s.claims - {t} && s'.now == AttemptClock(now, allowed, w)
            && s'.rows == AttemptRows(s.rows, del, now, allowed, w)
            && s'.posts == AttemptPosts(s.posts, del, allowed, w)
            && (TimelyFrom(s, AttemptSchedule(t, allowed, w)) <==> (allowed ==> s'.now < until))
  {
    hide Exec, TimelyFrom, TrySchedule, AttemptRows, AttemptPosts, AttemptClock;
    var s0 := Apply(s, Tick(w.pause));
    assert Holds(s0, t, del, until);
    ExecOne(s, Tick(w.pause));
    ExecAppend(s, [Tick(w.pause)], TrySchedule(t, allowed, w));
    TimelyConcat(s, [Tick(w.pause)], TrySchedule(t, allowed, w));
    NoWritesTimely(s, [Tick(w.pause)]);
    TryRuns(s0, t, del, until, allowed, w);
  }

  lemma TryRuns(s: State, t: nat, del: Claimed, until: int, allowed: bool, w: World)
    requires Holds(s, t, del, until)
    ensures var s' := Exec(s, TrySchedule(t, allowed, w));
            && s'.claims == s.claims - {t} && s'.now == AttemptClock(s.now, allowed, w)
            && s'.rows == AttemptRows(s.rows, del, s.now, allowed, w)
            && s'.posts == AttemptPosts(s.posts, del, allowed, w)
            && (TimelyFrom(s, TrySchedule(t, allowed, w)) <==> (allowed ==> s'.now < until))
  {
    hide Exec, TimelyFrom, WriteResult;
    if !allowed {
      ExecOne(s, Skip(t));
      NoWritesTimely(s, [Skip(t)]);
    } else if !w.decrypts {
      ExecOne(s, Write(t, w.o));
      OneTimely(s, Write(t, w.o));
      ResultOfClaim(s.rows, s.claims[t], 0, s.now);
    } else {
      PostRuns(s, t, w);
      ResultOfClaim(s.rows, s.claims[t].(posted := Some(w.delivered)), 0, s.now + w.elapsed);
    }
  }

  /** The lease plays no part in the result. */
  lemma ResultOfClaim(rows: W.Table, c: Claim, lease: int, now: int)
    ensures WriteResult(rows, c.(lease := lease), now) == WriteResult(rows, c, now)
  {
  }

  lemma PostRuns(s: State, t: nat, w: World)
    requires t in s.claims && s.claims[t].posted.None?
    ensures var acts := [Post(t, w.delivered), Tick(w.elapsed)] + [Write(t, w.o)];
            var s', c := Exec(s, acts), s.claims[t].(posted := Some(w.delivered));
            && s'.claims == s.claims - {t} && s'.now == s.now + w.elapsed
            && s'.rows == (if w.o.Applied() then WriteResult(s.rows, c, s.now + w.elapsed) else s.rows)
            && s'.posts == s.posts[c.id := CountOf(s.posts, c.id) + 1]
            && (TimelyFrom(s, acts) <==> s'.now < c.lease)
  {
    hide Exec, TimelyFrom, WriteResult;
    var first := [Post(t, w.delivered), Tick(w.elapsed)];
    var s1 := Apply(s, Post(t, w.delivered));
    var s2 := Apply(s1, Tick(w.elapsed));
    assert first == [Post(t, w.delivered)] + [Tick(w.elapsed)];
    ExecAppend(s, [Post(t, w.delivered)], [Tick(w.elapsed)]);
    ExecOne(s, Post(t, w.delivered));
    ExecOne(s1, Tick(w.elapsed));
    ExecAppend(s, first, [Write(t, w.o)]);
    ExecOne(s2, Write(t, w.o));
    TimelyConcat(s, first, [Write(t, w.o)]);
    NoWritesTimely(s, first);
    OneTimely(s2, Write(t, w.o));
    assert s2.claims - {t} == s.claims - {t};
  }

  // ----- one round

  function Grabs(t: nat, chosen: seq<string>, until: int): seq<Action> {
    seq(|chosen|, i requires 0 <= i < |chosen| => Grab(t + i, chosen[i], until))
  }

  /** The state after claiming `chosen` from a state without claims. */
  ghost predicate Grabbed(s: State, s': State, t: nat, chosen: seq<string>, until: int) {
    && s'.rows == TakeAll(s.rows, chosen, until) && s'.now == s.now
    && (forall u :: u in s'.claims <==> t <= u < t + |chosen|)
    && (forall i :: 0 <= i < |chosen| ==>
          chosen[i] in s.rows && Holds(s', t + i, ResultOf(s.rows, chosen[i]), until))
    && s'.posts == s.posts
  }

  /** Rows not yet claimed are as they were. */
  lemma {:induction false} TakeAllOthers(rows: W.Table, chosen: seq<string>, until: int, id: string)
    requires id in rows && id !in chosen
    ensures id in TakeAll(rows, chosen, until) && TakeAll(rows, chosen, until)[id] == rows[id]
    decreases |chosen|
  {
    if chosen != [] {
      TakeAllOthers(rows, chosen[..|chosen| - 1], until, id);
    }
  }

  lemma GrabOne(s: State, mid: State, t: nat, chosen: seq<string>, limit: nat, until: int)
    requires Claimable(s.rows, chosen, limit, s.now) && chosen != []
    requires Grabbed(s, mid, t, chosen[..|chosen| - 1], until)
    ensures var g := Grab(t + |chosen| - 1, chosen[|chosen| - 1], until);
            GrabsFree(mid, g) && Grabbed(s, Apply(mid, g), t, chosen, until)
  {
    var n := |chosen| - 1;
    var g := Grab(t + n, chosen[n], until);
    assert chosen[n] !in chosen[..n];
    TakeAllOthers(s.rows, chosen[..n], until, chosen[n]);
    assert Due(s.rows, chosen[n], s.now);
    forall u | u in mid.claims
      ensures mid.claims[u].id != chosen[n]
    {
      assert Holds(mid, t + (u - t), ResultOf(s.rows, chosen[..n][u - t]), until);
    }
    var s' := Apply(mid, g);
    forall i | 0 <= i < |chosen|
      ensures Holds(s', t + i, ResultOf(s.rows, chosen[i]), until)
    {
      if i < n {
        assert Holds(mid, t + i, ResultOf(s.rows, chosen[..n][i]), until);
      }
    }
  }

  lemma GrabbedNone(s: State, t: nat, until: int)
    requires s.claims == map[]
    ensures Grabbed(s, Exec(s, Grabs(t, [], until)), t, [], until) && ExclusiveFrom(s, Grabs(t, [], until))
  {
  }

  /** Claiming a batch is claiming its rows one by one, none of them twice. */
  lemma {:induction false} GrabsTake(s: State, t: nat, chosen: seq<string>, limit: nat, until: int)
    requires s.claims == map[] && Claimable(s.rows, chosen, limit, s.now)
    ensures ExclusiveFrom(s, Grabs(t, chosen, until))
    ensures Grabbed(s, Exec(s, Grabs(t, chosen, until)), t, chosen, until)
    decreases |chosen|
  {
    hide Apply, ExclusiveFrom, Grabbed, Exec;
    if chosen == [] {
      GrabbedNone(s, t, until);
    } else {
      var n := |chosen| - 1;
      var before := Grabs(t, chosen[..n], until);
      var g := Grab(t + n, chosen[n], until);
      GrabsTake(s, t, chosen[..n], limit, until);
      assert Grabs(t, chosen, until) == before + [g];
      GrabOne(s, Exec(s, before), t, chosen, limit, until);
      OneExclusive(Exec(s, before), g);
      ExclusiveConcat(s, before, [g]);
      ExecOne(Exec(s, before), g);
    }
  }

  lemma OneExclusive(s: State, a: Action)
    requires GrabsFree(s, a)
    ensures ExclusiveFrom(s, [a])
  {
  }

  /** How far a round has come after its first k attempts. */
  datatype Progress = Progress(acts: seq<Action>, last: SubLimiter.Table, clock: int)

  predicate AllowedNext(p: Progress, del: Claimed, w: World, minInterval: int) {
    !SubLimiter.TooSoon(p.last, del.sub, p.clock + w.pause, minInterval)
  }

  function Progressed(start: Progress, results: seq<Claimed>, worlds: seq<World>, minInterval: int, k: nat): Progress
    requires k <= |results| == |worlds|
  {
    if k == 0 then start
    else
      var p := Progressed(start, results, worlds, minInterval, k - 1);
      var del, w := results[k - 1], worlds[k - 1];
      var allowed, now := AllowedNext(p, del, w, minInterval), p.clock + w.pause;
      Progress(p.acts + AttemptSchedule(k - 1, allowed, w),
               SubLimiter.Evict(p.last, SubLimiter.Call(del.sub, now), minInterval), AttemptClock(now, allowed, w))
  }

  /** Attempt k is allowed, so it ends in a write. */
  predicate WritesAt(start: Progress, results: seq<Claimed>, worlds: seq<World>, minInterval: int, k: nat)
    requires k < |results| == |worlds|
  {
    AllowedNext(Progressed(start, results, worlds, minInterval, k), results[k], worlds[k], minInterval)
  }

  /** Every write of the first k attempts falls before `until`. */
  predicate InTime(start: Progress, results: seq<Claimed>, worlds: seq<World>, minInterval: int, until: int, k: nat)
    requires k <= |results| == |worlds|
  {
    forall j | 0 <= j < k && WritesAt(start, results, worlds, minInterval, j) ::
      Progressed(start, results, worlds, minInterval, j + 1).clock < until
  }

  /** The state of a round after k attempts on the claims of `results`. */
  ghost predicate Underway(s: State, results: seq<Claimed>, until: int, k: nat, clock: int) {
    && s.now == clock
    && (forall u :: u in s.claims <==> k <= u < |results|)
    && (forall i :: k <= i < |results| ==> Holds(s, i, results[i], until))
  }

  /** The attempts of a round claim nothing, use up the claims one by one, and are timely exactly when each write falls
      before the lease. */
  lemma {:induction false} AttemptsRun(s: State, results: seq<Claimed>, worlds: seq<World>, last: SubLimiter.Table,
                                       minInterval: int, until: int, k: nat)
    requires k <= |results| == |worlds| && Underway(s, results, until, 0, s.now)
    ensures var start := Progress([], last, s.now);
            var p := Progressed(start, results, worlds, minInterval, k);
            && Underway(Exec(s, p.acts), results, until, k, p.clock) && ExclusiveFrom(s, p.acts)
            && (TimelyFrom(s, p.acts) <==> InTime(start, results, worlds, minInterval, until, k))
  {
    hide Apply, Exec, ExclusiveFrom, TimelyFrom, Holds, AttemptSchedule, AttemptRows, AttemptPosts, AttemptClock;
    hide AllowedNext, SubLimiter.Evict;
    var start := Progress([], last, s.now);
    if k == 0 {
      NothingRuns(s);
    } else {
      AttemptsRun(s, results, worlds, last, minInterval, until, k - 1);
      var p := Progressed(start, results, worlds, minInterval, k - 1);
      var cur := Exec(s, p.acts);
      var allowed := AllowedNext(p, results[k - 1], worlds[k - 1], minInterval);
      var step := AttemptSchedule(k - 1, allowed, worlds[k - 1]);
      AttemptRuns(cur, k - 1, results[k - 1], until, allowed, worlds[k - 1]);
      ScheduleGrabsNothing(k - 1, allowed, worlds[k - 1]);
      NoGrabsExclusive(cur, step);
      ExclusiveConcat(s, p.acts, step);
      TimelyConcat(s, p.acts, step);
      forall i | k <= i < |results|
        ensures Holds(Exec(cur, step), i, results[i], until)
      {
        HoldsElsewhere(cur, Exec(cur, step), k - 1, i, results[i], until);
      }
      assert InTime(start, results, worlds, minInterval, until, k) <==>
             InTime(start, results, worlds, minInterval, until, k - 1)
             && (WritesAt(start, results, worlds, minInterval, k - 1) ==>
                   Progressed(start, results, worlds, minInterval, k).clock < until);
    }
  }

  lemma NothingRuns(s: State)
    ensures Exec(s, []) == s && ExclusiveFrom(s, []) && TimelyFrom(s, [])
  {
  }

  lemma ScheduleGrabsNothing(t: nat, allowed: bool, w: World)
    ensures forall a :: a in AttemptSchedule(t, allowed, w) ==> !a.Grab?
  {
  }

  lemma HoldsElsewhere(s: State, s': State, t: nat, u: nat, del: Claimed, until: int)
    requires s'.claims == s.claims - {t} && u != t && Holds(s, u, del, until)
    ensures Holds(s', u, del, until)
  {
  }

  function Crashes(n: nat): seq<Action> {
    seq(n, t requires 0 <= t => Crash(t))
  }

  /** A claiming statement whose reply is lost leaves claims that nobody remembers. */
  lemma ForgottenClaims(s: State, n: nat)
    requires forall u :: u in s.claims ==> u < n && s.claims[u].posted.None?
    ensures var s' := Exec(s, Crashes(n));
            s'.claims == map[] && s'.rows == s.rows && s'.now == s.now && s'.posts == s.posts
    ensures ExclusiveFrom(s, Crashes(n)) && TimelyFrom(s, Crashes(n))
  {
    NoGrabsExclusive(s, Crashes(n));
    NoWritesTimely(s, Crashes(n));
    CrashesForget(s, n);
    var s' := Exec(s, Crashes(n));
    assert |s'.claims.Keys| == 0 by {
      assert s'.claims.Keys == {};
    }
  }

  lemma {:induction false} CrashesForget(s: State, n: nat)
    requires forall u :: u in s.claims ==> s.claims[u].posted.None?
    ensures var s' := Exec(s, Crashes(n));
            && s'.rows == s.rows && s'.now == s.now && s'.posts == s.posts
            && (forall u :: u in s'.claims ==> u >= n && u in s.claims && s'.claims[u] == s.claims[u])
  {
    if n > 0 {
      CrashesForget(s, n - 1);
      assert Crashes(n) == Crashes(n - 1) + [Crash(n - 1)];
      ExecAppend(s, Crashes(n - 1), [Crash(n - 1)]);
      ExecOne(Exec(s, Crashes(n - 1)), Crash(n - 1));
    }
  }

  /** What one round does to the machine. */
  function RoundSchedule(chosen: seq<string>, until: int, o: Outcome, attempts: seq<Action>): seq<Action> {
    match o
    case NotDone => []
    case LostReply => Grabs(0, chosen, until) + Crashes(|chosen|)
    case Done => Grabs(0, chosen, until) + attempts
  }

  lemma RoundStarts(s: State, chosen: seq<string>, limit: nat, until: int)
    requires s.claims == map[] && Claimable(s.rows, chosen, limit, s.now)
    ensures var mid := Exec(s, Grabs(0, chosen, until));
            && (forall i :: 0 <= i < |chosen| ==> chosen[i] in s.rows)
            && Underway(mid, ResultsOf(s.rows, chosen), until, 0, s.now)
            && mid.rows == TakeAll(s.rows, chosen, until) && mid.posts == s.posts
            && (forall u :: u in mid.claims ==> u < |chosen| && mid.claims[u].posted.None?)
            && ExclusiveFrom(s, Grabs(0, chosen, until)) && TimelyFrom(s, Grabs(0, chosen, until))
  {
    hide Exec, ExclusiveFrom, TimelyFrom, TakeAll;
    GrabsTake(s, 0, chosen, limit, until);
    NoWritesTimely(s, Grabs(0, chosen, until));
    var mid := Exec(s, Grabs(0, chosen, until));
    forall i | 0 <= i < |chosen|
      ensures Holds(mid, i, ResultsOf(s.rows, chosen)[i], until)
    {
      assert Holds(mid, 0 + i, ResultOf(s.rows, chosen[i]), until);
    }
    forall u | u in mid.claims
      ensures u < |chosen| && mid.claims[u].posted.None?
    {
      assert Holds(mid, 0 + u, ResultOf(s.rows, chosen[u]), until);
    }
  }

  /** A round is exclusive and ends with no claim in memory; it is timely if and only if each of its writes falls before
      the end of the lease. */
  lemma RoundIsTimelyExactly(s: State, chosen: seq<string>, limit: nat, until: int, o: Outcome, worlds: seq<World>,
                             last: SubLimiter.Table, minInterval: int)
    requires s.claims == map[] && Claimable(s.rows, chosen, limit, s.now) && |worlds| == |chosen|
    ensures forall i :: 0 <= i < |chosen| ==> chosen[i] in s.rows
    ensures var results, start := ResultsOf(s.rows, chosen), Progress([], last, s.now);
            var round := RoundSchedule(chosen, until, o,
                                       Progressed(start, results, worlds, minInterval, |chosen|).acts);
            && ExclusiveFrom(s, round) && Exec(s, round).claims == map[]
            && (TimelyFrom(s, round) <==>
                (o == Done ==> InTime(start, results, worlds, minInterval, until, |chosen|)))
  {
    hide Exec, Apply, ExclusiveFrom, TimelyFrom, Progressed, InTime, Holds, Grabs, Crashes;
    RoundStarts(s, chosen, limit, until);
    var grabs := Grabs(0, chosen, until);
    var mid, results := Exec(s, grabs), ResultsOf(s.rows, chosen);
    match o
    case NotDone => NothingRuns(s);
    case LostReply =>
      ForgottenClaims(mid, |chosen|);
      ExclusiveConcat(s, grabs, Crashes(|chosen|));
      TimelyConcat(s, grabs, Crashes(|chosen|));
    case Done =>
      AttemptsRun(mid, results, worlds, last, minInterval, until, |chosen|);
      var acts := Progressed(Progress([], last, s.now), results, worlds, minInterval, |chosen|).acts;
      ExclusiveConcat(s, grabs, acts);
      TimelyConcat(s, grabs, acts);
      NoClaims(Exec(mid, acts), results, until);
  }

  lemma NoClaims(s: State, results: seq<Claimed>, until: int)
    requires Underway(s, results, until, |results|, s.now)
    ensures s.claims == map[]
  {
  }

  /** The code's variables are those of the machine after k attempts. */
  ghost predicate Follows(rows: W.Table, posts: map<string, nat>, last: SubLimiter.Table, clock: int, mid: State,
                          start: Progress, results: seq<Claimed>, worlds: seq<World>, minInterval: int, k: nat)
    requires |results| == |worlds|
  {
    && k <= |results|
    && var p := Progressed(start, results, worlds, minInterval, k);
       && rows == Exec(mid, p.acts).rows && posts == Exec(mid, p.acts).posts
       && last == p.last && clock == p.clock
  }

  lemma AttemptFollows(rows: W.Table, posts: map<string, nat>, last: SubLimiter.Table, clock: int, mid: State,
                       start: Progress, results: seq<Claimed>, worlds: seq<World>, minInterval: int, until: int, k: nat)
    requires |results| == |worlds| && k < |results| && Underway(mid, results, until, 0, mid.now)
    requires start == Progress([], start.last, mid.now)
    requires Follows(rows, posts, last, clock, mid, start, results, worlds, minInterval, k)
    ensures var del, w, now := results[k], worlds[k], clock + worlds[k].pause;
            var allowed := !SubLimiter.TooSoon(last, del.sub, now, minInterval);
            Follows(AttemptRows(rows, del, now, allowed, w), AttemptPosts(posts, del, allowed, w),
                    SubLimiter.Evict(last, SubLimiter.Call(del.sub, now), minInterval), AttemptClock(now, allowed, w),
                    mid, start, results, worlds, minInterval, k + 1)
  {
    hide Exec, Apply, ExclusiveFrom, TimelyFrom, InTime, Holds, AttemptSchedule;
    hide AttemptRows, AttemptPosts, AttemptClock;
    var p := Progressed(start, results, worlds, minInterval, k);
    var allowed := AllowedNext(p, results[k], worlds[k], minInterval);
    AttemptsRun(mid, results, worlds, start.last, minInterval, until, k);
    AttemptRuns(Exec(mid, p.acts), k, results[k], until, allowed, worlds[k]);
    ExecAppend(mid, p.acts, AttemptSchedule(k, allowed, worlds[k]));
  }

  lemma RoundBegins(s: State, chosen: seq<string>, limit: nat, until: int, o: Outcome, worlds: seq<World>,
                    start: Progress, minInterval: int)
    requires s.claims == map[] && Claimable(s.rows, chosen, limit, s.now) && |worlds| == |chosen|
    requires start == Progress([], start.last, s.now)
    ensures forall i :: 0 <= i < |chosen| ==> chosen[i] in s.rows
    ensures |ResultsOf(s.rows, chosen)| == |chosen|
    ensures var mid, results := Exec(s, Grabs(0, chosen, until)), ResultsOf(s.rows, chosen);
            var round := RoundSchedule(chosen, until, o,
                                       Progressed(start, results, worlds, minInterval, |chosen|).acts);
            && Underway(mid, results, until, 0, mid.now) && mid.now == s.now
            && Follows(TakeAll(s.rows, chosen, until), s.posts, start.last, s.now,
                       mid, start, results, worlds, minInterval, 0)
            && ExclusiveFrom(s, round) && Exec(s, round).claims == map[]
            && (o == NotDone ==> Exec(s, round).rows == s.rows && Exec(s, round).posts == s.posts)
            && (o == LostReply ==>
                  Exec(s, round).rows == TakeAll(s.rows, chosen, until) && Exec(s, round).posts == s.posts)
  {
    hide Apply, ExclusiveFrom, TimelyFrom, InTime, Holds, Grabs, Crashes, TakeAll, Exec;
    RoundIsTimelyExactly(s, chosen, limit, until, o, worlds, start.last, minInterval);
    RoundStarts(s, chosen, limit, until);
    var mid := Exec(s, Grabs(0, chosen, until));
    NothingRuns(mid);
    NothingRuns(s);
    ForgottenClaims(mid, |chosen|);
    ExecAppend(s, Grabs(0, chosen, until), Crashes(|chosen|));
  }

  lemma RoundEnds(rows: W.Table, posts: map<string, nat>, last: SubLimiter.Table, clock: int, s: State,
                  chosen: seq<string>, until: int, start: Progress, worlds: seq<World>, minInterval: int)
    requires (forall i :: 0 <= i < |chosen| ==> chosen[i] in s.rows) && |worlds| == |chosen|
    requires var mid, results := Exec(s, Grabs(0, chosen, until)), ResultsOf(s.rows, chosen);
             Follows(rows, posts, last, clock, mid, start, results, worlds, minInterval, |chosen|)
    ensures var results := ResultsOf(s.rows, chosen);
            var round := RoundSchedule(chosen, until, Done,
                                       Progressed(start, results, worlds, minInterval, |chosen|).acts);
            rows == Exec(s, round).rows && posts == Exec(s, round).posts
  {
    hide Exec, Apply, Grabs;
    var results := ResultsOf(s.rows, chosen);
    ExecAppend(s, Grabs(0, chosen, until), Progressed(start, results, worlds, minInterval, |chosen|).acts);
  }

  // ----- which batches fit

  predicate Bounded(worlds: seq<World>, pause: nat, timeout: nat) {
    forall w :: w in worlds ==> w.pause <= pause && w.elapsed <= timeout
  }

  /** With each pause and each HTTP call bounded, all writes of a batch that fits fall before the lease. */
  lemma {:induction false} ShortRoundInTime(start: Progress, results: seq<Claimed>, worlds: seq<World>,
                                            minInterval: int, pause: nat, timeout: nat, until: int, k: nat)
    requires k <= |results| == |worlds| && Bounded(worlds, pause, timeout)
    requires start.clock + |results| * (pause + timeout) < until
    ensures Progressed(start, results, worlds, minInterval, k).clock <= start.clock + k * (pause + timeout)
    ensures InTime(start, results, worlds, minInterval, until, k)
  {
    if k > 0 {
      ShortRoundInTime(start, results, worlds, minInterval, pause, timeout, until, k - 1);
      assert worlds[k - 1] in worlds;
      Steps(k, |results|, pause + timeout);
    }
  }

  lemma Steps(k: nat, n: nat, d: nat)
    requires 1 <= k <= n
    ensures (k - 1) * d + d == k * d <= n * d
  {
  }

  /** After the run `acts` a dispatcher claims `chosen`, at most n rows, each pause and each HTTP call within bounds. */
  ghost predicate IsRound(acts: seq<Action>, chosen: seq<string>, worlds: seq<World>, n: nat, pause: nat,
                          timeout: nat)
  {
    var s := Run(acts);
    s.claims == map[] && Claimable(s.rows, chosen, n, s.now) && |worlds| == |chosen| && Bounded(worlds, pause, timeout)
  }

  /** Every write of that round falls before its lease of `window` ends. */
  ghost predicate RoundInTime(acts: seq<Action>, chosen: seq<string>, worlds: seq<World>, last: SubLimiter.Table,
                              minInterval: int, window: int)
    requires |worlds| == |chosen| && forall i :: 0 <= i < |chosen| ==> chosen[i] in Run(acts).rows
  {
    var s := Run(acts);
    var attempts :=
      Progressed(Progress([], last, s.now), ResultsOf(s.rows, chosen), worlds, minInterval, |chosen|).acts;
    TimelyFrom(s, RoundSchedule(chosen, s.now + window, Done, attempts))
  }

  function Name(i: nat): string {
    seq(i, _ => 'a')
  }

  function Names(n: nat): seq<string> {
    seq(n, i requires 0 <= i => Name(i))
  }

  /** One event for n subscriptions. */
  function Enqueues(n: nat): seq<Action> {
    seq(n, i requires 0 <= i => Enqueue(Name(i), Name(i), "e"))
  }

  lemma {:induction false} EnqueuesRun(n: nat)
    ensures var s := Run(Enqueues(n));
            && s.claims == map[] && s.now == 0
            && (forall id :: id in s.ids ==> |id| < n)
            && (forall id :: id in s.rows ==> |id| < n && s.rows[id] == Delivery(id, "e", Pending, 0, 0))
            && (forall i :: 0 <= i < n ==> Name(i) in s.rows)
  {
    if n > 0 {
      EnqueuesRun(n - 1);
      assert Enqueues(n) == Enqueues(n - 1) + [Enqueue(Name(n - 1), Name(n - 1), "e")];
      assert Run(Enqueues(n)) == Apply(Run(Enqueues(n - 1)), Enqueue(Name(n - 1), Name(n - 1), "e"));
      assert |Name(n - 1)| == n - 1;
    }
  }

  /** Every call takes as long as it may. */
  function Slow(n: nat, pause: nat, timeout: nat): seq<World> {
    seq(n, _ => World(pause, true, true, timeout, Done))
  }

  /** Attempts on different subscriptions are all allowed, so the clock moves by a pause and a call each time. */
  lemma {:induction false} SlowProgress(results: seq<Claimed>, n: nat, pause: nat, timeout: nat, minInterval: int,
                                        k: nat)
    requires k <= |results| == n && forall i :: 0 <= i < n ==> |results[i].sub| == i
    ensures var p := Progressed(Progress([], map[], 0), results, Slow(n, pause, timeout), minInterval, k);
            && p.clock == k * (pause + timeout) && (forall sub :: sub in p.last ==> |sub| < k)
            && (k < n ==> WritesAt(Progress([], map[], 0), results, Slow(n, pause, timeout), minInterval, k))
  {
    if k > 0 {
      SlowProgress(results, n, pause, timeout, minInterval, k - 1);
      Steps(k, n, pause + timeout);
    }
  }

  /** A round whose last write comes n pauses and n calls after its claim. */
  lemma SlowRound(n: nat, pause: nat, timeout: nat, minInterval: int, window: int)
    requires n >= 1 && n * (pause + timeout) >= window
    ensures var acts, chosen, worlds := Enqueues(n), Names(n), Slow(n, pause, timeout);
            && IsRound(acts, chosen, worlds, n, pause, timeout)
            && (forall i :: 0 <= i < |chosen| ==> chosen[i] in Run(acts).rows)
            && !RoundInTime(acts, chosen, worlds, map[], minInterval, window)
  {
    hide Run, TimelyFrom, Progressed, RoundSchedule, WritesAt, Names, Slow;
    var s, chosen, worlds := Run(Enqueues(n)), Names(n), Slow(n, pause, timeout);
    SlowClaim(n, pause, timeout);
    var results, start := ResultsOf(s.rows, chosen), Progress([], map[], 0);
    hide Claimable;
    RoundIsTimelyExactly(s, chosen, n, window, Done, worlds, map[], minInterval);
    SlowProgress(results, n, pause, timeout, minInterval, n - 1);
    SlowProgress(results, n, pause, timeout, minInterval, n);
    assert !InTime(start, results, worlds, minInterval, window, n);
  }

  lemma SlowClaim(n: nat, pause: nat, timeout: nat)
    ensures var s, chosen := Run(Enqueues(n)), Names(n);
            && IsRound(Enqueues(n), chosen, Slow(n, pause, timeout), n, pause, timeout) && s.now == 0
            && |chosen| == |Slow(n, pause, timeout)| == n
            && (forall i :: 0 <= i < |chosen| ==> chosen[i] in s.rows && |ResultsOf(s.rows, chosen)[i].sub| == i)
  {
    EnqueuesRun(n);
    hide Run;
    assert forall i :: 0 <= i < n ==> |Names(n)[i]| == i && Names(n)[i] == Name(i);
  }

  /** A dispatcher with batch size n writes all results in time, whatever it claims and however long each pause and
      each call takes within its bound, if and only if n pauses and n calls fit into the claim window. */
  lemma BatchFitsExactly(n: nat, pause: nat, timeout: nat, minInterval: int, window: int)
    requires n >= 1
    ensures (forall acts, chosen, worlds, last :: IsRound(acts, chosen, worlds, n, pause, timeout) ==>
               && (forall i :: 0 <= i < |chosen| ==> chosen[i] in Run(acts).rows)
               && RoundInTime(acts, chosen, worlds, last, minInterval, window))
            <==> n * (pause + timeout) < window
  {
    hide Exec, RoundInTime, IsRound;
    if n * (pause + timeout) < window {
      forall acts, chosen, worlds, last | IsRound(acts, chosen, worlds, n, pause, timeout)
        ensures (forall i :: 0 <= i < |chosen| ==> chosen[i] in Run(acts).rows)
        ensures |worlds| == |chosen| && RoundInTime(acts, chosen, worlds, last, minInterval, window)
      {
        FittingRound(acts, chosen, worlds, last, n, pause, timeout, minInterval, window);
      }
    } else {
      SlowRound(n, pause, timeout, minInterval, window);
    }
  }

  lemma FittingRound(acts: seq<Action>, chosen: seq<string>, worlds: seq<World>, last: SubLimiter.Table,
                     n: nat, pause: nat, timeout: nat, minInterval: int, window: int)
    requires IsRound(acts, chosen, worlds, n, pause, timeout) && n * (pause + timeout) < window
    ensures |worlds| == |chosen| && forall i :: 0 <= i < |chosen| ==> chosen[i] in Run(acts).rows
    ensures RoundInTime(acts, chosen, worlds, last, minInterval, window)
  {
    var s := Run(acts);
    hide Exec, TimelyFrom, InTime, Progressed, RoundSchedule, Bounded;
    RoundIsTimelyExactly(s, chosen, n, s.now + window, Done, worlds, last, minInterval);
    Fewer(|chosen|, n, pause + timeout);
    ShortRoundInTime(Progress([], last, s.now), ResultsOf(s.rows, chosen), worlds, minInterval, pause, timeout,
                     s.now + window, |chosen|);
  }

  lemma Fewer(k: nat, n: nat, d: nat)
    requires k <= n
    ensures k * d <= n * d
  {
  }

  /** The source's defaults, fifty rows and ten seconds, do not fit their window of fifty seconds. */
  lemma DefaultsDoNotFit(minInterval: int)
    ensures var acts, chosen, worlds := Enqueues(50), Names(50), Slow(50, 0, 10_000_000_000);
            && IsRound(acts, chosen, worlds, 50, 0, 10_000_000_000)
            && (forall i :: 0 <= i < |chosen| ==> chosen[i] in Run(acts).rows)
            && !RoundInTime(acts, chosen, worlds, map[], minInterval, 50_000_000_000)
  {
    SlowRound(50, 0, 10_000_000_000, minInterval, 50_000_000_000);
  }

  class Loop {
    const store: DeliveryStore
    const limiter: SubLimiter.Limiter
    const minInterval: int
    const claimWindow: int
    const batchSize: nat
    /** The HTTP requests made so far, per delivery. */
    ghost var posts: map<string, nat>

    constructor (store: DeliveryStore, limiter: SubLimiter.Limiter, minInterval: int, httpTimeout: int, batchSize: nat)
      ensures this.store == store && this.limiter == limiter && this.minInterval == minInterval
      ensures this.claimWindow == 2 * httpTimeout + 30_000_000_000 && this.batchSize == batchSize
      ensures posts == map[]
    {
      this.store := store;
      this.limiter := limiter;
      this.minInterval := minInterval;
      this.claimWindow := httpTimeout * 2 + 30_000_000_000;
      this.batchSize := batchSize;
      posts := map[];
    }

    /** The client's Deliver: one HTTP request. */
    method Deliver(del: Claimed, w: World) returns (delivered: bool)
      modifies this`posts
      ensures delivered == w.delivered && posts == old(posts)[del.id := CountOf(old(posts), del.id) + 1]
    {
      posts := posts[del.id := CountOf(posts, del.id) + 1];
      delivered := w.delivered;
    }

    /** One attempt on a claimed row that starts at `now`. */
    method Attempt(del: Claimed, now: int, w: World) returns (later: int)
      modifies store, limiter, this`posts
      ensures var allowed := !SubLimiter.TooSoon(old(limiter.lastAttempt), del.sub, now, minInterval);
              && store.rows == AttemptRows(old(store.rows), del, now, allowed, w)
              && posts == AttemptPosts(old(posts), del, allowed, w)
              && later == AttemptClock(now, allowed, w)
              && limiter.lastAttempt ==
                   SubLimiter.Evict(old(limiter.lastAttempt), SubLimiter.Call(del.sub, now), minInterval)
      ensures var allowed := !SubLimiter.TooSoon(old(limiter.lastAttempt), del.sub, now, minInterval);
              var made := allowed && w.decrypts;
              && later == now + (if made then w.elapsed else 0)
              && (!made ==> posts == old(posts))
              && (made ==> posts == old(posts)[del.id := CountOf(old(posts), del.id) + 1])
              && store.rows.Keys == old(store.rows).Keys
              && (forall id :: id in old(store.rows) && id != del.id ==> store.rows[id] == old(store.rows)[id])
              && (del.id in old(store.rows) && del.attempts < 5 ==>
                    var r, r' := old(store.rows)[del.id], store.rows[del.id];
                    if !allowed || !w.o.Applied() then r' == r
                    else if made && w.delivered then r' == r.(status := Delivered)
                    else
                      && r'.attempts == del.attempts + 1
                      && (del.attempts == 4 ==> r'.status.Failed?)
                      && (del.attempts < 4 ==> r'.status.Pending?)
                      && (del.attempts == 0 ==> r'.nextRetryAt == later + 1_000_000_000)
                      && (del.attempts == 1 ==> r'.nextRetryAt == later + 2_000_000_000)
                      && (del.attempts == 2 ==> r'.nextRetryAt == later + 4_000_000_000)
                      && (del.attempts == 3 ==> r'.nextRetryAt == later + 8_000_000_000))
    {
      if del.attempts < 5 {
        AttemptMeans(store.rows, posts, del, now,
                     !SubLimiter.TooSoon(limiter.lastAttempt, del.sub, now, minInterval), w);
      }
      AttemptKeys(store.rows, del, now, !SubLimiter.TooSoon(limiter.lastAttempt, del.sub, now, minInterval), w);
      later := now;
      var allowed := limiter.Allow(del.sub, minInterval, now);
      if !allowed {
        return;
      }
      if !w.decrypts {
        if del.attempts + 1 >= MAX_ATTEMPTS {
          var _ := store.RescheduleOrFail(del.id, del.attempts + 1, now, true, w.o);
        } else {
          var backoff := NextBackoff(del.attempts + 1);
          var _ := store.RescheduleOrFail(del.id, del.attempts + 1, now + backoff, false, w.o);
        }
        return;
      }
      var delivered := Deliver(del, w);
      later := now + w.elapsed;
      var newAttempts := del.attempts + 1;
      if delivered {
        var _ := store.MarkDelivered(del.id, w.o);
        return;
      }
      if newAttempts >= MAX_ATTEMPTS {
        var _ := store.RescheduleOrFail(del.id, newAttempts, later, true, w.o);
        return;
      }
      var backoff := NextBackoff(newAttempts);
      var _ := store.RescheduleOrFail(del.id, newAttempts, later + backoff, false, w.o);
    }

    /** One round, as a run of the machine: claim due rows and attempt each in turn. */
    method ProcessBatch(chosen: seq<string>, now: int, o: Outcome, worlds: seq<World>, ghost s: State)
      returns (ghost round: seq<Action>)
      requires store.rows == s.rows && posts == s.posts && now == s.now && s.claims == map[]
      requires Claimable(store.rows, chosen, batchSize, now) && |worlds| == |chosen|
      modifies store, limiter, this`posts
      ensures forall i :: 0 <= i < |chosen| ==> chosen[i] in s.rows
      ensures var start := Progress([], old(limiter.lastAttempt), now);
              var attempts := Progressed(start, ResultsOf(s.rows, chosen), worlds, minInterval, |chosen|).acts;
              round == RoundSchedule(chosen, now + claimWindow, o, attempts)
      ensures store.rows == Exec(s, round).rows && posts == Exec(s, round).posts && Exec(s, round).claims == map[]
      ensures ExclusiveFrom(s, round)
    {
      hide Exec, Apply, ExclusiveFrom, Follows, Progressed, Grabs, Crashes, TakeAll, RoundSchedule, Underway;
      hide AttemptRows, AttemptPosts, AttemptClock;
      ghost var until, start := now + claimWindow, Progress([], limiter.lastAttempt, now);
      RoundBegins(s, chosen, batchSize, until, o, worlds, start, minInterval);
      ghost var wanted, mid := ResultsOf(s.rows, chosen), Exec(s, Grabs(0, chosen, until));
      var results, err := store.ClaimDueDeliveries(chosen, batchSize, now + claimWindow, now, o);
      round := RoundSchedule(chosen, until, o, Progressed(start, wanted, worlds, minInterval, |chosen|).acts);
      if err {
        return;
      }
      var k := 0;
      var clock := now;
      while k < |results|
        invariant k <= |results|
        invariant Follows(store.rows, posts, limiter.lastAttempt, clock, mid, start, wanted, worlds, minInterval, k)
      {
        AttemptFollows(store.rows, posts, limiter.lastAttempt, clock,
                       mid, start, wanted, worlds, minInterval, until, k);
        clock := Attempt(results[k], clock + worlds[k].pause, worlds[k]);
        k := k + 1;
      }
      RoundEnds(store.rows, posts, limiter.lastAttempt, clock, s, chosen, until, start, worlds, minInterval);
    }
  }
}
