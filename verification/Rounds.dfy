/** The rounds of the workers' code as runs of the pipeline machine: reads of up to ten entries, and reclaims of what
    Redis hands over, which is the first ten idle entries among the first hundred pending ones. */
module Rounds {
  import opened Options
  import opened Events
  import opened Queue
  import opened Pipeline
  import opened Worker

  /** XAUTOCLAIM examines at most ten times COUNT pending entries. */
  const SCAN := 10 * BATCH

  const ALL_DONE := Fates(Done, Done, Done, Done, Done, Done)

  /** The pending entries XAUTOCLAIM examines when it starts from 0-0. */
  function Scanned(g: Group): seq<nat> {
    Range(g.pending, 0, |g.entries|, SCAN)
  }

  /** Those of them that are idle long enough. */
  function Idle(g: Group, now: int): map<nat, Pend> {
    map x | x in g.pending && x in Scanned(g) && now - g.pending[x].since >= MIN_IDLE_MS :: g.pending[x]
  }

  /** What XAUTOCLAIM hands over. */
  function IdleBatch(g: Group, now: int): seq<nat> {
    Range(Idle(g, now), 0, |g.entries|, BATCH)
  }

  lemma IdleBatchIsClaimable(g: Group, now: int)
    requires GroupInv(g)
    ensures Claimable(g, IdleBatch(g, now), now)
    ensures |IdleBatch(g, now)| <= 10
    ensures forall x :: x in IdleBatch(g, now) ==> x in g.pending && now - g.pending[x].since >= 30_000
  {
    RangeAscending(Idle(g, now), 0, |g.entries|, BATCH);
    hide Scanned;
  }

  /** A pending entry before an examined one is examined, and one that is not comes after a hundred that are. */
  lemma FirstHundred(g: Group, x: nat)
    requires GroupInv(g) && x in g.pending && x !in Scanned(g)
    ensures |Scanned(g)| == 100 && forall y :: y in Scanned(g) ==> y < x && y in g.pending
  {
    RangeComplete(g.pending, 0, |g.entries|, SCAN, x);
  }

  /** An idle entry that is not handed over comes after ten that are. */
  lemma FirstTen(g: Group, now: int, x: nat)
    requires GroupInv(g) && x in g.pending && now - g.pending[x].since >= 30_000
    requires x in Scanned(g) && x !in IdleBatch(g, now)
    ensures |IdleBatch(g, now)| == 10 && forall y :: y in IdleBatch(g, now) ==> y < x
  {
    RangeComplete(Idle(g, now), 0, |g.entries|, BATCH, x);
  }

  /** One round of a worker, or one step of anything else: `fs` are the fates of the handlings, `ok` whether the count
      query succeeds. */
  datatype Round =
    | Read(now: int, o: Outcome, fs: seq<Fates>)
    | Reclaim(now: int, o: Outcome, ok: bool, fs: seq<Fates>)
    | Other(a: Action)

  /** No clock reading of the pending list is later than `now`. */
  ghost predicate ClockAt(q: Group, now: int) {
    forall x :: x in q.pending ==> q.pending[x].since <= now
  }

  /** Redis's clock does not run backwards, and every handling has its fates. */
  ghost predicate Possible(s: State, round: Round) {
    && GroupInv(s.q)
    && match round
       case Read(now, _, fs) => ClockAt(s.q, now) && |fs| == BATCH
       case Reclaim(now, _, _, fs) => ClockAt(s.q, now) && |fs| == |IdleBatch(s.q, now)|
       case Other(a) => !OfWorker(a)
  }

  ghost function ScheduleOf(s: State, round: Round): seq<Action>
    requires Possible(s, round)
  {
    match round
    case Read(now, o, fs) => ReadSchedule(s.refuses, s.q, now, o, fs)
    case Reclaim(now, o, ok, fs) =>
      IdleBatchIsClaimable(s.q, now);
      ReclaimSchedule(s.refuses, s.q, IdleBatch(s.q, now), now, o, ok, fs)
    case Other(a) => [a]
  }

  /** `acts` is what happens in rounds from s on. */
  ghost predicate InRounds(s: State, rounds: seq<Round>, acts: seq<Action>)
    decreases |rounds|
  {
    if rounds == [] then acts == []
    else
      && Possible(s, rounds[0])
      && var first := ScheduleOf(s, rounds[0]);
         first <= acts && InRounds(Exec(s, first), rounds[1..], acts[|first|..])
  }

  lemma ConsRound(s: State, round: Round, rounds: seq<Round>, acts: seq<Action>)
    requires Possible(s, round) && InRounds(Exec(s, ScheduleOf(s, round)), rounds, acts)
    ensures InRounds(s, [round] + rounds, ScheduleOf(s, round) + acts)
  {
    hide ScheduleOf, Possible, Exec;
    var first := ScheduleOf(s, round);
    assert ([round] + rounds)[1..] == rounds && (first + acts)[|first|..] == acts;
  }

  lemma {:induction false} RoundsConcat(s: State, r1: seq<Round>, a1: seq<Action>, r2: seq<Round>, a2: seq<Action>)
    requires InRounds(s, r1, a1) && InRounds(Exec(s, a1), r2, a2)
    ensures InRounds(s, r1 + r2, a1 + a2)
    decreases |r1|
  {
    hide ScheduleOf, Possible, Exec, InRounds;
    if r1 == [] {
      NoRounds(s, a1);
      assert r1 + r2 == r2 && a1 + a2 == a2;
    } else {
      SplitRounds(s, r1, a1);
      var first := ScheduleOf(s, r1[0]);
      var rest := a1[|first|..];
      assert a1 == first + rest;
      ExecConcat(s, first, rest);
      RoundsConcat(Exec(s, first), r1[1..], rest, r2, a2);
      ConsRound(s, r1[0], r1[1..] + r2, rest + a2);
      assert r1 + r2 == [r1[0]] + (r1[1..] + r2) && a1 + a2 == first + (rest + a2);
    }
  }

  lemma NoRounds(s: State, acts: seq<Action>)
    requires InRounds(s, [], acts)
    ensures acts == [] && Exec(s, acts) == s
  {
  }

  lemma SplitRounds(s: State, rounds: seq<Round>, acts: seq<Action>)
    requires InRounds(s, rounds, acts) && rounds != []
    ensures Possible(s, rounds[0])
    ensures var first := ScheduleOf(s, rounds[0]);
            first <= acts && InRounds(Exec(s, first), rounds[1..], acts[|first|..])
  {
    hide ScheduleOf, Possible, Exec;
  }

  lemma OneRound(s: State, round: Round)
    requires Possible(s, round)
    ensures InRounds(s, [round], ScheduleOf(s, round))
  {
    hide ScheduleOf, Possible;
    var acts := ScheduleOf(s, round);
    assert [round][1..] == [] && acts[|acts|..] == [];
  }

  // ----- what one reclaim does to the group

  /** The batch redelivered, and some of it possibly acknowledged; nothing else. */
  ghost predicate Reclaims(q: Group, q': Group, chosen: seq<nat>, now: int) {
    && GroupInv(q') && q'.entries == q.entries && q'.next == q.next
    && q.acked <= q'.acked <= q.acked + (set x | x in chosen)
    && (forall x :: x in q'.pending ==> x in q.pending && q'.pending[x] == Touched(q, chosen, now, x))
  }

  function Touched(q: Group, chosen: seq<nat>, now: int, x: nat): Pend
    requires x in q.pending
  {
    if x in chosen then Pend(now, q.pending[x].count + 1) else q.pending[x]
  }

  lemma {:induction false} RedeliverManyTouches(q: Group, ids: seq<nat>, now: int)
    requires GroupInv(q) && Ascending(ids) && forall id :: id in ids ==> id in q.pending
    ensures Reclaims(q, RedeliverMany(q, ids, now), ids, now)
    ensures RedeliverMany(q, ids, now).acked == q.acked
    ensures RedeliverMany(q, ids, now).pending.Keys == q.pending.Keys
    decreases |ids|
  {
    hide GroupInv;
    if ids != [] {
      var n := |ids| - 1;
      assert ids[n] in ids && forall id :: id in ids[..n] ==> id in ids;
      RedeliverManyTouches(q, ids[..n], now);
      OneMoreTouched(q, RedeliverMany(q, ids[..n], now), ids, now);
    }
  }

  lemma OneMoreTouched(q: Group, q': Group, ids: seq<nat>, now: int)
    requires ids != [] && Ascending(ids) && ids[|ids| - 1] in q.pending
    requires Reclaims(q, q', ids[..|ids| - 1], now) && q'.acked == q.acked && q'.pending.Keys == q.pending.Keys
    ensures var q'' := Redeliver(q', ids[|ids| - 1], now);
            Reclaims(q, q'', ids, now) && q''.acked == q.acked && q''.pending.Keys == q.pending.Keys
  {
    var n := |ids| - 1;
    RedeliverInv(q', ids[n], now);
    assert ids[n] in q'.pending.Keys && ids[n] !in ids[..n];
    assert forall x :: x in ids <==> x in ids[..n] || x == ids[n];
    hide GroupInv, Ascending;
  }

  /** A handling with all statements answered acknowledges unless the table it writes to refuses the payload. */
  predicate Settles(refuses: Refusals, p: Payload, count: nat) {
    if IsDead(p, count) then !refuses.dead(p) else !refuses.store(p.event)
  }

  lemma HandledSettles(refuses: Refusals, q: Group, msg: Message)
    ensures HandledGroup(q, msg.id, msg.payload, msg.count, Effective(refuses, msg.payload, ALL_DONE)) ==
            if Settles(refuses, msg.payload, msg.count) then Acknowledge(q, msg.id) else q
  {
  }

  /** Some of `ids` acknowledged, nothing else changed. */
  ghost predicate Acknowledges(q: Group, q': Group, ids: set<nat>) {
    && GroupInv(q') && q'.entries == q.entries && q'.next == q.next && q'.log == q.log
    && (forall x :: x in q'.pending ==> x in q.pending && q'.pending[x] == q.pending[x])
    && q.acked <= q'.acked <= q.acked + ids
  }

  /** A batch acknowledges only messages that settle, and each of them whose statements are all answered. */
  lemma {:induction false} BatchSettles(s: State, t: nat, msgs: seq<Message>, fs: seq<Fates>, i: nat, ids: set<nat>)
    requires |fs| == |msgs| && i <= |msgs| && AllAwait(s, t, msgs) && GroupInv(s.q)
    requires forall k :: 0 <= k < |msgs| ==>
               msgs[k].id < s.q.next && (Settles(s.refuses, msgs[k].payload, msgs[k].count) ==> msgs[k].id in ids)
    ensures var s' := Exec(s, Scripts(s.refuses, t, msgs[..i], fs[..i]));
            && Acknowledges(s.q, s'.q, ids)
            && forall k :: 0 <= k < i && fs[k] == ALL_DONE && Settles(s.refuses, msgs[k].payload, msgs[k].count)
                           ==> msgs[k].id in s'.q.acked
  {
    hide Apply, Exec, Script, HandledTables, HandledGroup, Settles, GroupInv, AllAwait;
    if i == 0 {
      NothingHandled(s, t, msgs, fs);
    } else {
      var j := i - 1;
      BatchSettles(s, t, msgs, fs, j, ids);
      StillWaiting(s, t, msgs, fs, j);
      NextScript(s, t, msgs, fs, j);
      var mid := Exec(s, Scripts(s.refuses, t, msgs[..j], fs[..j]));
      var f := Effective(s.refuses, msgs[j].payload, fs[j]);
      ScriptRuns(mid, t + j, msgs[j], f);
      HandledEither(s.refuses, mid.q, msgs[j], fs[j]);
      HandledSettles(s.refuses, mid.q, msgs[j]);
      AcknowledgeInv(mid.q, msgs[j].id);
    }
  }

  lemma HandledEither(refuses: Refusals, q: Group, msg: Message, f: Fates)
    ensures var q' := HandledGroup(q, msg.id, msg.payload, msg.count, Effective(refuses, msg.payload, f));
            q' == q || (q' == Acknowledge(q, msg.id) && Settles(refuses, msg.payload, msg.count))
  {
    hide Acknowledge;
  }

  lemma NothingHandled(s: State, t: nat, msgs: seq<Message>, fs: seq<Fates>)
    requires |fs| == |msgs|
    ensures Exec(s, Scripts(s.refuses, t, msgs[..0], fs[..0])) == s
  {
  }

  /** The count Reclaim attaches to entry x of its batch. */
  function Told(q: Group, chosen: seq<nat>, now: int, ok: bool, x: nat): nat {
    if ok then Report(RedeliverMany(q, chosen, now).pending, chosen, x) else 0
  }

  /** The messages of a batch that settle and whose statements are all answered are among the acknowledged. */
  ghost predicate AllSettled(s: State, acked: set<nat>, chosen: seq<nat>, now: int, ok: bool, fs: seq<Fates>)
    requires |fs| == |chosen| && forall k :: 0 <= k < |chosen| ==> chosen[k] < |s.q.entries|
  {
    forall k :: 0 <= k < |chosen| && fs[k] == ALL_DONE
                && Settles(s.refuses, s.q.entries[chosen[k]], Told(s.q, chosen, now, ok, chosen[k]))
                ==> chosen[k] in acked
  }

  /** What becomes of the batch of a reclaim whose reply arrives, whatever the fates of its handlings. */
  lemma ReclaimRuns(s: State, chosen: seq<nat>, now: int, ok: bool, fs: seq<Fates>)
    requires GroupInv(s.q) && Claimable(s.q, chosen, now) && |fs| == |chosen|
    ensures forall k :: 0 <= k < |chosen| ==> chosen[k] < |s.q.entries|
    ensures var q1 := RedeliverMany(s.q, chosen, now);
            var s' := Exec(s, ReclaimSchedule(s.refuses, s.q, chosen, now, Done, ok, fs));
            && s'.refuses == s.refuses && Acknowledges(q1, s'.q, set x | x in chosen)
            && AllSettled(s, s'.q.acked, chosen, now, ok, fs)
  {
    hide Apply, Exec, Scripts, Settles, Report, Awaits, IsClaimed, RedeliverMany;
    var t := |s.q.log|;
    var q1 := RedeliverMany(s.q, chosen, now);
    var msgs := Reclaimed(s.q.entries, q1.pending, chosen, ok);
    var claims, queries := Claims(chosen, now, true), Queries(t, |chosen|, chosen, ok);
    ClaimsRedeliver(s, chosen, now, true);
    var s1 := Exec(s, claims);
    QueriesTell(s1, t, |chosen|, chosen, ok, msgs);
    var s2 := Exec(s1, queries);
    assert msgs[..|msgs|] == msgs && fs[..|msgs|] == fs;
    MembersKnown(s.q, chosen);
    RedeliverManyNext(s.q, chosen, now);
    BatchSettles(s2, t, msgs, fs, |msgs|, set x | x in chosen);
    StillWaiting(s2, t, msgs, fs, |msgs|);
    ExecConcat(s, claims, queries);
    ExecConcat(s, claims + queries, Scripts(s.refuses, t, msgs, fs));
    forall k | 0 <= k < |chosen| && fs[k] == ALL_DONE
               && Settles(s.refuses, s.q.entries[chosen[k]], Told(s.q, chosen, now, ok, chosen[k]))
      ensures chosen[k] in Exec(s2, Scripts(s.refuses, t, msgs, fs)).q.acked
    {
      assert msgs[k].id == chosen[k];
    }
  }

  lemma MembersKnown(q: Group, ids: seq<nat>)
    requires GroupInv(q) && forall id :: id in ids ==> id in q.pending
    ensures forall k :: 0 <= k < |ids| ==> ids[k] in ids && ids[k] < q.next
  {
    forall k | 0 <= k < |ids|
      ensures ids[k] in ids && ids[k] < q.next
    {
      assert ids[k] in ids && ids[k] in q.pending;
    }
  }

  lemma {:induction false} RedeliverManyNext(q: Group, ids: seq<nat>, now: int)
    ensures RedeliverMany(q, ids, now).next == q.next
    decreases |ids|
  {
    if ids != [] {
      RedeliverManyNext(q, ids[..|ids| - 1], now);
    }
  }

  /** One reclaim, whatever becomes of it. */
  lemma ReclaimRound(s: State, now: int, o: Outcome, ok: bool, fs: seq<Fates>)
    requires Possible(s, Reclaim(now, o, ok, fs))
    ensures var chosen, s' := IdleBatch(s.q, now), Exec(s, ScheduleOf(s, Reclaim(now, o, ok, fs)));
            && (forall k :: 0 <= k < |chosen| ==> chosen[k] < |s.q.entries|)
            && s'.refuses == s.refuses && ClockAt(s'.q, now)
            && (if o == NotDone then s'.q == s.q else Reclaims(s.q, s'.q, chosen, now))
            && (o == Done ==> AllSettled(s, s'.q.acked, chosen, now, ok, fs))
  {
    hide Exec, ReclaimSchedule, IdleBatch, RedeliverMany, Told, Settles, AllSettled, GroupInv, Idle, Reclaims;
    var chosen := IdleBatch(s.q, now);
    IdleBatchIsClaimable(s.q, now);
    assert forall k :: 0 <= k < |chosen| ==> chosen[k] in chosen;
    RedeliverManyTouches(s.q, chosen, now);
    match o
    case NotDone => NothingDone(s, chosen, now, ok, fs);
    case LostReply =>
      ClaimsLost(s, chosen, now, ok, fs);
      ReclaimsClock(s.q, RedeliverMany(s.q, chosen, now), chosen, now);
    case Done =>
      ReclaimRuns(s, chosen, now, ok, fs);
      var s' := Exec(s, ReclaimSchedule(s.refuses, s.q, chosen, now, Done, ok, fs));
      ReclaimsThenAcknowledges(s.q, RedeliverMany(s.q, chosen, now), s'.q, chosen, now);
      ReclaimsClock(s.q, s'.q, chosen, now);
  }

  lemma NothingDone(s: State, chosen: seq<nat>, now: int, ok: bool, fs: seq<Fates>)
    requires |fs| == |chosen| && forall id :: id in chosen ==> id < |s.q.entries|
    ensures Exec(s, ReclaimSchedule(s.refuses, s.q, chosen, now, NotDone, ok, fs)) == s
  {
  }

  lemma ClaimsLost(s: State, chosen: seq<nat>, now: int, ok: bool, fs: seq<Fates>)
    requires GroupInv(s.q) && Claimable(s.q, chosen, now) && |fs| == |chosen|
    ensures var s' := Exec(s, ReclaimSchedule(s.refuses, s.q, chosen, now, LostReply, ok, fs));
            s'.q == RedeliverMany(s.q, chosen, now) && s'.refuses == s.refuses
  {
    ClaimsRedeliver(s, chosen, now, false);
  }

  lemma ReclaimsThenAcknowledges(q: Group, q1: Group, q2: Group, chosen: seq<nat>, now: int)
    requires Reclaims(q, q1, chosen, now) && Acknowledges(q1, q2, set x | x in chosen)
    ensures Reclaims(q, q2, chosen, now)
  {
    hide GroupInv;
  }

  lemma ReclaimsClock(q: Group, q': Group, chosen: seq<nat>, now: int)
    requires Reclaims(q, q', chosen, now) && ClockAt(q, now)
    ensures ClockAt(q', now)
  {
    hide GroupInv;
  }

  // ----- what one read does to the group

  /** The next n entries delivered, and some of those that settle at once possibly acknowledged; nothing else. */
  ghost predicate Reads(refuses: Refusals, q: Group, q': Group, n: nat, now: int) {
    && GroupInv(q') && q'.entries == q.entries && q'.next == q.next + n <= |q.entries| && q.acked <= q'.acked
    && (forall x :: x in q'.acked && x !in q.acked ==>
          q.next <= x < q.next + n && Settles(refuses, q.entries[x], 0))
    && (forall x :: x in q.pending ==> x in q'.pending && q'.pending[x] == q.pending[x])
    && (forall x :: x in q'.pending && x !in q.pending ==> x >= q.next && q'.pending[x] == Pend(now, 1))
  }

  /** The messages of a read that settle and whose statements are all answered are among the acknowledged. */
  ghost predicate ReadSettled(s: State, acked: set<nat>, n: nat, fs: seq<Fates>)
    requires n <= |fs| && s.q.next + n <= |s.q.entries|
  {
    forall k: nat :: k < n && fs[k] == ALL_DONE && Settles(s.refuses, s.q.entries[s.q.next + k], 0)
                     ==> s.q.next + k in acked
  }

  lemma {:induction false} DeliverManyReads(refuses: Refusals, q: Group, n: nat, now: int)
    requires GroupInv(q) && q.next + n <= |q.entries|
    ensures Reads(refuses, q, DeliverMany(q, n, now), n, now) && DeliverMany(q, n, now).acked == q.acked
  {
    if n > 0 {
      DeliverManyReads(refuses, q, n - 1, now);
      ReadsOneMore(refuses, q, DeliverMany(q, n - 1, now), n - 1, now);
    }
  }

  lemma ReadsOneMore(refuses: Refusals, q: Group, q': Group, n: nat, now: int)
    requires GroupInv(q) && Reads(refuses, q, q', n, now) && q'.next < |q'.entries|
    ensures Reads(refuses, q, Deliver(q', now), n + 1, now) && Deliver(q', now).acked == q'.acked
  {
    DeliverInv(q', now);
    assert q'.next !in q'.pending && forall x :: x in q.pending ==> x < q.next;
    hide GroupInv, Settles;
  }

  lemma ReadRuns(s: State, n: nat, now: int, fs: seq<Fates>)
    requires GroupInv(s.q) && s.q.next + n <= |s.q.entries| && |fs| == n
    ensures var s' := Exec(s, Takes(n, now, true) + Scripts(s.refuses, |s.q.log|, Undelivered(s.q, n), fs));
            && s'.refuses == s.refuses && Reads(s.refuses, s.q, s'.q, n, now)
            && ReadSettled(s, s'.q.acked, n, fs)
  {
    hide Apply, Exec, Scripts, Settles, AllAwait, DeliverMany, GroupInv, Undelivered, Reads, SettlesAtOnce;
    var t, takes, msgs := |s.q.log|, Takes(n, now, true), Undelivered(s.q, n);
    TakesDeliver(s, n, now, true);
    DeliverManyReads(s.refuses, s.q, n, now);
    var s1 := Exec(s, takes);
    var ids := SettlesAtOnce(s, n);
    UndeliveredKnown(s, n);
    assert msgs[..n] == msgs && fs[..n] == fs;
    assert GroupInv(s1.q) by {
      ReadsGroup(s.refuses, s.q, s1.q, n, now);
    }
    BatchSettles(s1, t, msgs, fs, n, ids);
    StillWaiting(s1, t, msgs, fs, n);
    ExecConcat(s, takes, Scripts(s.refuses, t, msgs, fs));
    ReadsThenAcknowledges(s.refuses, s.q, s1.q, Exec(s1, Scripts(s.refuses, t, msgs, fs)).q, n, now, ids);
  }

  /** The next n entries that settle at their first delivery. */
  ghost function SettlesAtOnce(s: State, n: nat): set<nat>
    requires s.q.next + n <= |s.q.entries|
  {
    var msgs := Undelivered(s.q, n);
    set k | 0 <= k < n && Settles(s.refuses, msgs[k].payload, 0) :: msgs[k].id
  }

  lemma UndeliveredKnown(s: State, n: nat)
    requires s.q.next + n <= |s.q.entries|
    ensures |Undelivered(s.q, n)| == n
    ensures forall k :: 0 <= k < n ==>
              var msg := Undelivered(s.q, n)[k];
              && msg == Message(s.q.next + k, s.q.entries[s.q.next + k], 0)
              && (Settles(s.refuses, msg.payload, msg.count) ==> msg.id in SettlesAtOnce(s, n))
    ensures forall x :: x in SettlesAtOnce(s, n) ==>
              s.q.next <= x < s.q.next + n && Settles(s.refuses, s.q.entries[x], 0)
  {
    hide Settles;
  }

  lemma ReadsGroup(refuses: Refusals, q: Group, q': Group, n: nat, now: int)
    requires Reads(refuses, q, q', n, now)
    ensures GroupInv(q') && q'.entries == q.entries && q'.next == q.next + n
  {
    hide Settles;
  }

  lemma ReadsThenAcknowledges(refuses: Refusals, q: Group, q1: Group, q2: Group, n: nat, now: int, ids: set<nat>)
    requires GroupInv(q) && Reads(refuses, q, q1, n, now) && q1.acked == q.acked && Acknowledges(q1, q2, ids)
    requires forall x :: x in ids ==> q.next <= x < q.next + n && Settles(refuses, q.entries[x], 0)
    ensures Reads(refuses, q, q2, n, now)
  {
    hide Times, Settles;
  }

  /** One read, whatever becomes of it. */
  lemma ReadRound(s: State, now: int, o: Outcome, fs: seq<Fates>)
    requires Possible(s, Read(now, o, fs))
    ensures var n := Min(|s.q.entries| - s.q.next, BATCH);
            var s' := Exec(s, ScheduleOf(s, Read(now, o, fs)));
            && s'.refuses == s.refuses && ClockAt(s'.q, now)
            && (if o == NotDone then s'.q == s.q else Reads(s.refuses, s.q, s'.q, n, now))
            && (o == Done ==> ReadSettled(s, s'.q.acked, n, fs))
  {
    var n := Min(|s.q.entries| - s.q.next, BATCH);
    hide Exec, Scripts, DeliverMany, GroupInv, Undelivered, Reads, Settles, ReadSettled, ClockAt;
    match o
    case NotDone => NothingRead(s);
    case LostReply =>
      TakesLost(s, n, now);
      ReadsClock(s.refuses, s.q, Exec(s, Takes(n, now, false)).q, n, now);
    case Done =>
      ReadDone(s, n, now, fs);
      ReadsClock(s.refuses, s.q, Exec(s, ReadSchedule(s.refuses, s.q, now, Done, fs)).q, n, now);
  }

  lemma ReadDone(s: State, n: nat, now: int, fs: seq<Fates>)
    requires GroupInv(s.q) && |fs| == BATCH && n == Min(|s.q.entries| - s.q.next, BATCH)
    ensures var s' := Exec(s, ReadSchedule(s.refuses, s.q, now, Done, fs));
            s'.refuses == s.refuses && Reads(s.refuses, s.q, s'.q, n, now) && ReadSettled(s, s'.q.acked, n, fs)
  {
    hide Exec, Scripts, GroupInv, Undelivered, Reads, Settles;
    ReadRuns(s, n, now, fs[..n]);
    assert forall k: nat :: k < n ==> fs[..n][k] == fs[k];
  }

  lemma NothingRead(s: State)
    ensures Exec(s, []) == s
  {
  }

  lemma TakesLost(s: State, n: nat, now: int)
    requires GroupInv(s.q) && s.q.next + n <= |s.q.entries|
    ensures var s' := Exec(s, Takes(n, now, false));
            s'.refuses == s.refuses && Reads(s.refuses, s.q, s'.q, n, now)
  {
    TakesDeliver(s, n, now, false);
    DeliverManyReads(s.refuses, s.q, n, now);
  }

  lemma ReadsClock(refuses: Refusals, q: Group, q': Group, n: nat, now: int)
    requires Reads(refuses, q, q', n, now) && ClockAt(q, now)
    ensures ClockAt(q', now)
  {
    hide GroupInv, Settles;
  }

  // ----- what anything else does to it

  lemma OtherRound(s: State, a: Action)
    requires Possible(s, Other(a))
    ensures var s' := Exec(s, ScheduleOf(s, Other(a)));
            && s'.refuses == s.refuses && GroupInv(s'.q)
            && s.q.entries <= s'.q.entries && s'.q == s.q.(entries := s'.q.entries)
  {
    hide GroupInv, Apply;
    ExecTwo(s, a, a);
    OtherGrows(s, a);
    GrownGroup(s.q, Apply(s, a).q);
  }

  lemma OtherGrows(s: State, a: Action)
    requires !OfWorker(a)
    ensures var s' := Apply(s, a);
            s'.refuses == s.refuses && s.q.entries <= s'.q.entries && s'.q == s.q.(entries := s'.q.entries)
  {
    hide InsertAll, IssuedBy, BuildAll, CanAccept, CanTrack, AnyRefused;
  }

  lemma GrownGroup(q: Group, q': Group)
    requires GroupInv(q) && q.entries <= q'.entries && q' == q.(entries := q'.entries)
    ensures GroupInv(q')
  {
  }
}
