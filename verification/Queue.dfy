/** internal/queue: the stream and its consumer group. A stream ID is the position of its entry, so IDs grow in
    publishing order; nothing trims the stream. `log` is a history: the message of every delivery, in order. */
module Queue {
  import opened Options
  import opened Events
  import opened Sets

  const MAX_RETRIES := 3
  const MIN_IDLE_MS := 30000
  const BATCH := 10

  datatype Pend = Pend(since: int, count: nat)

  datatype Group = Group(entries: seq<Payload>, next: nat, pending: map<nat, Pend>, acked: set<nat>, log: seq<nat>)

  datatype Message = Message(id: nat, payload: Payload, count: nat)

  const NO_ENTRIES := Group([], 0, map[], {}, [])

  /** How often m was delivered. */
  function Times(log: seq<nat>, m: nat): nat {
    if log == [] then 0 else Times(log[..|log| - 1], m) + if log[|log| - 1] == m then 1 else 0
  }

  // ----- the commands

  /** XADD */
  function Append(g: Group, p: Payload): Group {
    g.(entries := g.entries + [p])
  }

  /** XREADGROUP with ">": the next entry, if there is one. */
  function Deliver(g: Group, now: int): Group {
    if g.next < |g.entries|
    then g.(next := g.next + 1, pending := g.pending[g.next := Pend(now, 1)], log := g.log + [g.next])
    else g
  }

  /** XAUTOCLAIM taking one pending entry over. */
  function Redeliver(g: Group, m: nat, now: int): Group {
    if m in g.pending
    then g.(pending := g.pending[m := Pend(now, g.pending[m].count + 1)], log := g.log + [m])
    else g
  }

  /** XACK */
  function Acknowledge(g: Group, m: nat): Group {
    if m in g.pending then g.(pending := g.pending - {m}, acked := g.acked + {m}) else g
  }

  /** XPENDING lo hi n: the first n pending IDs between lo and hi. */
  function Range(pending: map<nat, Pend>, lo: nat, hi: nat, n: nat): (ids: seq<nat>)
    ensures |ids| <= n
    ensures forall id :: id in ids ==> lo <= id <= hi && id in pending
    decreases hi + 1 - lo
  {
    if lo > hi || n == 0 then []
    else if lo in pending then [lo] + Range(pending, lo + 1, hi, n - 1)
    else Range(pending, lo + 1, hi, n)
  }

  /** The delivery count Reclaim attaches to `id` when it asks about the claimed batch `ids`. */
  function Report(pending: map<nat, Pend>, ids: seq<nat>, id: nat): nat {
    if ids != [] && id in Range(pending, ids[0], ids[|ids| - 1], |ids|) then pending[id].count else 0
  }

  /** Missing IDs count as zero, as a Go map lookup does. */
  function CountIn(counts: map<nat, nat>, id: nat): nat {
    if id in counts then counts[id] else 0
  }

  function DeliverMany(g: Group, n: nat, now: int): Group {
    if n == 0 then g else Deliver(DeliverMany(g, n - 1, now), now)
  }

  function RedeliverMany(g: Group, ids: seq<nat>, now: int): Group {
    if ids == [] then g else Redeliver(RedeliverMany(g, ids[..|ids| - 1], now), ids[|ids| - 1], now)
  }

  // ----- the invariant

  /** Every entry is exactly one of undelivered, pending and acked, and a pending entry carries its number of
      deliveries. */
  ghost predicate GroupInv(g: Group) {
    && g.next <= |g.entries|
    && (forall m: nat :: m < g.next <==> m in g.pending || m in g.acked)
    && (forall m :: m in g.pending ==> m !in g.acked && g.pending[m].count == Times(g.log, m) >= 1)
    && (forall t :: 0 <= t < |g.log| ==> g.log[t] < g.next)
  }

  lemma {:induction false} TimesOfUndelivered(log: seq<nat>, m: nat)
    requires m !in log
    ensures Times(log, m) == 0
  {
    if log != [] {
      TimesOfUndelivered(log[..|log| - 1], m);
    }
  }

  /** What one more delivery does to the tallies. */
  lemma TimesAppend(log: seq<nat>, m: nat)
    ensures forall x: nat :: Times(log + [m], x) == Times(log, x) + if x == m then 1 else 0
  {
  }

  lemma {:induction false} TimesMonotone(log: seq<nat>, k: nat, m: nat)
    requires k <= |log|
    ensures Times(log[..k], m) <= Times(log, m)
  {
    if k < |log| {
      assert log[..|log| - 1][..k] == log[..k];
      TimesMonotone(log[..|log| - 1], k, m);
    } else {
      assert log[..k] == log;
    }
  }

  lemma DeliverInv(g: Group, now: int)
    requires GroupInv(g)
    ensures GroupInv(Deliver(g, now))
  {
    if g.next < |g.entries| {
      TimesAppend(g.log, g.next);
      TimesOfUndelivered(g.log, g.next);
    }
  }

  lemma RedeliverInv(g: Group, m: nat, now: int)
    requires GroupInv(g)
    ensures GroupInv(Redeliver(g, m, now))
  {
  }

  lemma AcknowledgeInv(g: Group, m: nat)
    requires GroupInv(g)
    ensures GroupInv(Acknowledge(g, m))
    ensures m < g.next ==> m in Acknowledge(g, m).acked
  {
  }

  // ----- delivery counts

  ghost predicate Ascending(ids: seq<nat>) {
    forall i, j :: 0 <= i < j < |ids| ==> ids[i] < ids[j]
  }

  ghost function Members(ids: seq<nat>): set<nat> {
    set i | 0 <= i < |ids| :: ids[i]
  }

  lemma {:induction false} MembersSize(ids: seq<nat>)
    requires Ascending(ids)
    ensures |Members(ids)| == |ids|
  {
    if ids != [] {
      var n := |ids| - 1;
      MembersSize(ids[..n]);
      assert Members(ids) == Members(ids[..n]) + {ids[n]};
    }
  }

  lemma MembersIncluded(a: seq<nat>, b: seq<nat>)
    requires forall x :: x in a ==> x in b
    ensures Members(a) <= Members(b)
  {
    forall x | x in Members(a)
      ensures x in Members(b)
    {
      assert x in a;
      var j :| 0 <= j < |b| && b[j] == x;
    }
  }

  lemma {:induction false} RangeAscending(pending: map<nat, Pend>, lo: nat, hi: nat, n: nat)
    ensures Ascending(Range(pending, lo, hi, n))
    decreases hi + 1 - lo
  {
    if lo <= hi && n != 0 {
      if lo in pending {
        var rest := Range(pending, lo + 1, hi, n - 1);
        RangeAscending(pending, lo + 1, hi, n - 1);
        assert forall j :: 0 <= j < |rest| ==> rest[j] in rest;
      } else {
        RangeAscending(pending, lo + 1, hi, n);
      }
    }
  }

  /** XPENDING leaves a pending ID of the interval out only after returning n smaller ones. */
  lemma {:induction false} RangeComplete(pending: map<nat, Pend>, lo: nat, hi: nat, n: nat, id: nat)
    requires id in pending && lo <= id <= hi && id !in Range(pending, lo, hi, n)
    ensures |Range(pending, lo, hi, n)| == n
    ensures forall x :: x in Range(pending, lo, hi, n) ==> x < id
    decreases hi + 1 - lo
  {
    if n != 0 {
      if lo in pending {
        assert id != lo by {
          assert Range(pending, lo, hi, n)[0] == lo;
        }
        assert Range(pending, lo, hi, n) == [lo] + Range(pending, lo + 1, hi, n - 1);
        RangeComplete(pending, lo + 1, hi, n - 1, id);
      } else {
        RangeComplete(pending, lo + 1, hi, n, id);
      }
    }
  }

  /** Reclaim never reports more deliveries than the pending list holds. */
  lemma ReportNeverOver(pending: map<nat, Pend>, ids: seq<nat>, id: nat)
    ensures id in pending ==> Report(pending, ids, id) <= pending[id].count
    ensures id !in pending ==> Report(pending, ids, id) == 0
  {
  }

  /** Every report on a claimed batch is exact if and only if no other pending entry lies between the first and
      the last claimed ID. */
  lemma ReportExact(pending: map<nat, Pend>, ids: seq<nat>)
    requires ids != [] && Ascending(ids)
    requires forall id :: id in ids ==> id in pending && pending[id].count >= 1
    ensures (forall id :: id in ids ==> Report(pending, ids, id) == pending[id].count)
       <==> (forall x :: x in pending && ids[0] <= x <= ids[|ids| - 1] ==> x in ids)
  {
    if x :| x in pending && ids[0] <= x <= ids[|ids| - 1] && x !in ids {
      LastIsCutOff(pending, ids, x);
      assert ids[|ids| - 1] in ids;
    } else {
      NothingIsCutOff(pending, ids);
    }
  }

  /** The range query for a claimed batch, as long as the batch. */
  function Listing(pending: map<nat, Pend>, ids: seq<nat>): seq<nat>
    requires ids != []
  {
    Range(pending, ids[0], ids[|ids| - 1], |ids|)
  }

  /** Another pending entry in between pushes the last claimed ID out of the listing. */
  lemma LastIsCutOff(pending: map<nat, Pend>, ids: seq<nat>, x: nat)
    requires ids != [] && Ascending(ids) && forall id :: id in ids ==> id in pending
    requires x in pending && ids[0] <= x <= ids[|ids| - 1] && x !in ids
    ensures ids[|ids| - 1] !in Listing(pending, ids)
  {
    hide Range;
    var lo, hi, n := ids[0], ids[|ids| - 1], |ids|;
    var r := Listing(pending, ids);
    RangeAscending(pending, lo, hi, n);
    MembersSize(ids);
    MembersSize(r);
    if hi in r {
      forall y | y in pending && lo <= y <= hi
        ensures y in r
      {
        if y !in r {
          RangeComplete(pending, lo, hi, n, y);
        }
      }
      assert forall y :: y in ids ==> y in pending && lo <= y <= hi;
      MembersIncluded(ids, r);
      assert x in Members(r) && x !in Members(ids);
      SubsetSize(Members(ids) + {x}, Members(r));
    }
  }

  lemma NothingIsCutOff(pending: map<nat, Pend>, ids: seq<nat>)
    requires ids != [] && Ascending(ids) && forall id :: id in ids ==> id in pending
    requires forall x :: x in pending && ids[0] <= x <= ids[|ids| - 1] ==> x in ids
    ensures forall id :: id in ids ==> id in Listing(pending, ids)
  {
    hide Range;
    var lo, hi, n := ids[0], ids[|ids| - 1], |ids|;
    var r := Listing(pending, ids);
    RangeAscending(pending, lo, hi, n);
    MembersSize(ids);
    MembersSize(r);
    if id :| id in ids && id !in r {
      RangeComplete(pending, lo, hi, n, id);
      MembersIncluded(r, ids);
      assert id in Members(ids) && id !in Members(r);
      SubsetSize(Members(r) + {id}, Members(ids));
    }
  }

  // ----- the code

  /** The Redis server, holding one stream with one group. */
  class Redis {
    var group: Group

    constructor ()
      ensures group == NO_ENTRIES
    {
      group := NO_ENTRIES;
    }

    /** `o` is what becomes of the command; `err` is what the caller sees. */
    method XAdd(p: Payload, o: Outcome) returns (err: bool)
      modifies this
      ensures err == o.Error()
      ensures group == if o.Applied() then Append(old(group), p) else old(group)
    {
      if o.Applied() {
        group := Append(group, p);
      }
      err := o.Error();
    }

    method XReadGroup(count: nat, now: int, o: Outcome) returns (ids: seq<nat>, err: bool)
      modifies this
      ensures err == o.Error()
      ensures var left := |old(group).entries| - old(group).next;
              var n := if left <= 0 then 0 else if left < count then left else count;
              && group == (if o.Applied() then DeliverMany(old(group), n, now) else old(group))
              && ids == if err then [] else seq(n, i requires 0 <= i => old(group).next + i)
    {
      ids, err := [], o.Error();
      if o.Applied() {
        var first := group.next;
        while |ids| < count && group.next < |group.entries|
          invariant ids == [] || |ids| <= |old(group).entries| - first
          invariant |ids| <= count
          invariant group == DeliverMany(old(group), |ids|, now)
          invariant group.next == first + |ids| && group.entries == old(group).entries
          invariant ids == seq(|ids|, i requires 0 <= i => first + i)
        {
          ids := ids + [group.next];
          group := Deliver(group, now);
        }
        if err {
          ids := [];
        }
      }
    }

    /** `chosen` is the server's choice among the pending entries idle for at least minIdle. */
    method XAutoClaim(chosen: seq<nat>, now: int, o: Outcome) returns (ids: seq<nat>, err: bool)
      modifies this
      ensures err == o.Error() && ids == if err then [] else chosen
      ensures group == if o.Applied() then RedeliverMany(old(group), chosen, now) else old(group)
    {
      ids, err := if o.Error() then [] else chosen, o.Error();
      if o.Applied() {
        var i := 0;
        while i < |chosen|
          invariant i <= |chosen|
          invariant group == RedeliverMany(old(group), chosen[..i], now)
        {
          assert chosen[..i + 1][..i] == chosen[..i];
          group := Redeliver(group, chosen[i], now);
          i := i + 1;
        }
        assert chosen[..i] == chosen;
      }
    }

    method XAck(id: nat, o: Outcome) returns (err: bool)
      modifies this
      ensures err == o.Error()
      ensures group == if o.Applied() then Acknowledge(old(group), id) else old(group)
    {
      if o.Applied() {
        group := Acknowledge(group, id);
      }
      err := o.Error();
    }
  }

  /** The entries XAUTOCLAIM may hand over: at most BATCH pending ones, in ID order, idle long enough. */
  ghost predicate Claimable(g: Group, ids: seq<nat>, now: int) {
    && |ids| <= BATCH
    && Ascending(ids)
    && forall id :: id in ids ==> id in g.pending && id < |g.entries| && now - g.pending[id].since >= MIN_IDLE_MS
  }

  class StreamConsumer {
    const rdb: Redis

    constructor (rdb: Redis)
      ensures this.rdb == rdb
    {
      this.rdb := rdb;
    }

    /** Up to ten undelivered messages, with delivery count zero. */
    method Read(now: int, o: Outcome) returns (msgs: seq<Message>, err: bool)
      requires rdb.group.next <= |rdb.group.entries|
      modifies rdb
      ensures err == o.Error() && (err ==> msgs == [])
      ensures var left := |old(rdb.group).entries| - old(rdb.group).next;
              var n := if left < 10 then left else 10;
              && rdb.group == (if o.Applied() then DeliverMany(old(rdb.group), n, now) else old(rdb.group))
              && (!err ==> |msgs| == n)
      ensures forall k :: 0 <= k < |msgs| ==>
                var id := old(rdb.group).next + k;
                msgs[k] == Message(id, old(rdb.group).entries[id], 0)
    {
      var ids;
      ids, err := rdb.XReadGroup(BATCH, now, o);
      msgs := [];
      DeliverManyEntries(old(rdb.group), |ids|, now);
      while |msgs| < |ids|
        invariant |msgs| <= |ids|
        invariant forall k :: 0 <= k < |msgs| ==>
                    msgs[k] == Message(ids[k], old(rdb.group).entries[ids[k]], 0)
      {
        msgs := msgs + [Message(ids[|msgs|], rdb.group.entries[ids[|msgs|]], 0)];
      }
    }

    /** Claims the entries Redis chose and attaches the delivery counts XPENDING reports about them. */
    method Reclaim(chosen: seq<nat>, now: int, o: Outcome, counted: Outcome) returns (msgs: seq<Message>, err: bool)
      requires Claimable(rdb.group, chosen, now)
      modifies rdb
      ensures err == o.Error()
      ensures rdb.group == if o.Applied() then RedeliverMany(old(rdb.group), chosen, now) else old(rdb.group)
      ensures |msgs| == if err then 0 else |chosen|
      ensures forall k :: 0 <= k < |msgs| ==>
                msgs[k] == Message(chosen[k], old(rdb.group).entries[chosen[k]],
                                   if counted.Error() then 0 else Report(rdb.group.pending, chosen, chosen[k]))
    {
      var ids;
      ids, err := rdb.XAutoClaim(chosen, now, o);
      RedeliverManyEntries(old(rdb.group), chosen, now);
      msgs := [];
      if ids == [] {
        return;
      }
      var counts, failed := DeliveryCounts(ids, counted);
      if failed {
        counts := map[];
      }
      assert forall k :: 0 <= k < |ids| ==> ids[k] in chosen;
      msgs := WithCounts(rdb.group.entries, ids, counts);
    }

    /** toMessages' loop, with one count per message. */
    static method WithCounts(entries: seq<Payload>, ids: seq<nat>, counts: map<nat, nat>) returns (msgs: seq<Message>)
      requires forall k :: 0 <= k < |ids| ==> ids[k] < |entries|
      ensures |msgs| == |ids|
      ensures forall k :: 0 <= k < |ids| ==> msgs[k] == Message(ids[k], entries[ids[k]], CountIn(counts, ids[k]))
    {
      msgs := [];
      while |msgs| < |ids|
        invariant |msgs| <= |ids|
        invariant forall k :: 0 <= k < |msgs| ==> msgs[k] == Message(ids[k], entries[ids[k]], CountIn(counts, ids[k]))
      {
        var id := ids[|msgs|];
        msgs := msgs + [Message(id, entries[id], CountIn(counts, id))];
      }
    }

    method DeliveryCounts(ids: seq<nat>, o: Outcome) returns (counts: map<nat, nat>, err: bool)
      ensures err == (ids != [] && o.Error())
      ensures !err ==> forall id :: CountIn(counts, id) == Report(rdb.group.pending, ids, id)
    {
      counts, err := map[], false;
      if ids == [] {
        return;
      }
      if o.Error() {
        err := true;
        return;
      }
      var pending := Range(rdb.group.pending, ids[0], ids[|ids| - 1], |ids|);
      for i := 0 to |pending|
        invariant counts.Keys == set k | 0 <= k < i :: pending[k]
        invariant forall id :: id in counts ==> counts[id] == rdb.group.pending[id].count
      {
        counts := counts[pending[i] := rdb.group.pending[pending[i]].count];
      }
      forall id
        ensures CountIn(counts, id) == Report(rdb.group.pending, ids, id)
      {
        if id in pending {
          var k :| 0 <= k < |pending| && pending[k] == id;
          assert id in counts.Keys;
        }
      }
    }

    method Ack(id: nat, o: Outcome) returns (err: bool)
      modifies rdb
      ensures err == o.Error()
      ensures rdb.group == if o.Applied() then Acknowledge(old(rdb.group), id) else old(rdb.group)
      ensures !err && GroupInv(old(rdb.group)) && id < old(rdb.group).next ==> id in rdb.group.acked
    {
      err := rdb.XAck(id, o);
    }
  }

  lemma {:induction false} DeliverManyEntries(g: Group, n: nat, now: int)
    ensures DeliverMany(g, n, now).entries == g.entries
  {
    if n > 0 {
      DeliverManyEntries(g, n - 1, now);
    }
  }

  lemma {:induction false} RedeliverManyEntries(g: Group, ids: seq<nat>, now: int)
    ensures RedeliverMany(g, ids, now).entries == g.entries
  {
    if ids != [] {
      RedeliverManyEntries(g, ids[..|ids| - 1], now);
    }
  }

  class StreamPublisher {
    const rdb: Redis

    constructor (rdb: Redis)
      ensures this.rdb == rdb
    {
      this.rdb := rdb;
    }

    method Publish(e: Event, o: Outcome) returns (err: bool)
      modifies rdb
      ensures err == o.Error()
      ensures rdb.group == if o.Applied() then Append(old(rdb.group), Good(e)) else old(rdb.group)
      ensures !err ==> Good(e) in rdb.group.entries
    {
      err := rdb.XAdd(Good(e), o);
    }

    /** One pipelined XADD per event; each may fail on its own, and any failure is reported. */
    method PublishBatch(evts: seq<Event>, os: seq<Outcome>) returns (err: bool)
      requires |os| == |evts|
      modifies rdb
      ensures err <==> exists k :: 0 <= k < |os| && os[k].Error()
      ensures rdb.group == old(rdb.group).(entries := old(rdb.group).entries + Appended(evts, os))
    {
      err := false;
      var i := 0;
      assert Appended(evts[..0], os[..0]) == [];
      assert rdb.group.entries == rdb.group.entries + [];
      while i < |evts|
        invariant i <= |evts|
        invariant err <==> exists k :: 0 <= k < i && os[k].Error()
        invariant rdb.group == old(rdb.group).(entries := old(rdb.group).entries + Appended(evts[..i], os[..i]))
      {
        assert evts[..i + 1][..i] == evts[..i] && os[..i + 1][..i] == os[..i];
        var failed := rdb.XAdd(Good(evts[i]), os[i]);
        err := err || failed;
        i := i + 1;
      }
      assert evts[..i] == evts && os[..i] == os;
    }
  }

  /** The entries a pipeline leaves on the stream. */
  function Appended(evts: seq<Event>, os: seq<Outcome>): seq<Payload>
    requires |os| == |evts|
    decreases |evts|
  {
    if evts == [] then []
    else
      var n := |evts| - 1;
      Appended(evts[..n], os[..n]) + if os[n].Applied() then [Good(evts[n])] else []
  }
}
