/** Runs of the code that show what can go wrong: an accepted event that neither table takes, a hundred of them that
    block the reclaim, a dead letter without a project, and a wrong delivery count. Entries are claimed only by rounds
    of the workers' code. */
module Runs {
  import opened Options
  import opened Events
  import opened Queue
  import opened Sets
  import opened Pipeline
  import opened PipelineInvariant
  import opened PipelineWorkerSteps
  import opened Worker
  import opened Ingest
  import opened Rounds
  import opened Progress

  // ----- accepted requests

  /** A request whose XADDs are confirmed, whose direct write is tried and whose 202 arrives. */
  function Accepted(r: nat, project: string, items: seq<Item>, ids: seq<string>, now: int): seq<Action> {
    [Accept(r, project, items, ids, now)] + IngestSchedule(r, seq(|items|, _ => Done), Done, true)
  }

  function Goods(evts: seq<Event>): (ps: seq<Payload>)
    ensures |ps| == |evts|
  {
    seq(|evts|, i requires 0 <= i < |evts| => Good(evts[i]))
  }

  lemma {:induction false} AppendedAll(evts: seq<Event>, os: seq<Outcome>)
    requires |os| == |evts| && forall i :: 0 <= i < |os| ==> os[i] == Done
    ensures Appended(evts, os) == Goods(evts)
    decreases |evts|
  {
    if evts != [] {
      var n := |evts| - 1;
      AppendedAll(evts[..n], os[..n]);
    }
  }

  /** Steps of request handlers other than its acceptance. */
  predicate OfHandler(a: Action) {
    a.XAdd? || a.DirectWrite? || a.Reply? || a.Drop?
  }

  lemma HandlerStep(s: State, a: Action)
    requires OfHandler(a)
    ensures var s' := Apply(s, a);
            && s'.issued == s.issued && s'.tracked == s.tracked && s'.requests.Keys <= s.requests.Keys
            && s'.db.dead == s.db.dead
  {
    hide InsertAll, AnyRefused, Append;
  }

  lemma {:induction false} HandlerSteps(s: State, acts: seq<Action>)
    requires forall a :: a in acts ==> OfHandler(a)
    ensures var s' := Exec(s, acts);
            && s'.issued == s.issued && s'.tracked == s.tracked && s'.requests.Keys <= s.requests.Keys
            && s'.db.dead == s.db.dead
    decreases |acts|
  {
    hide Apply, OfHandler;
    if acts != [] {
      HandlerSteps(s, acts[..|acts| - 1]);
      HandlerStep(Exec(s, acts[..|acts| - 1]), acts[|acts| - 1]);
    }
  }

  /** An accepted request puts its events on the stream. */
  lemma AcceptedRuns(s: State, r: nat, project: string, items: seq<Item>, ids: seq<string>, now: int)
    requires CanAccept(s, r, items, ids) && forall i :: 0 <= i < |items| ==> items[i].key !in s.tracked
    ensures var s' := Exec(s, Accepted(r, project, items, ids, now));
            && s'.q == s.q.(entries := s.q.entries + Goods(BuildAll(items, project, ids, now)))
            && s'.refuses == s.refuses && s'.db.dead == s.db.dead && s'.tracked == s.tracked
            && s'.issued.Keys == s.issued.Keys + (set i | i in ids) && s'.requests.Keys <= s.requests.Keys + {r}
  {
    hide Apply, Exec, IngestSchedule, BuildAll, CanAccept, OfHandler;
    var os: seq<Outcome> := seq(|items|, _ => Done);
    var accept, rest := Accept(r, project, items, ids, now), IngestSchedule(r, os, Done, true);
    var s1 := Apply(s, accept);
    AcceptOne(s, r, project, items, ids, now);
    AllOfHandler(r, os, Done, true);
    IngestRuns(s1, r, os, Done, true);
    AppendedAll(s1.requests[r].events, os);
    HandlerSteps(s1, rest);
    ExecTwo(s, accept, accept);
    ExecConcat(s, [accept], rest);
  }

  lemma AcceptOne(s: State, r: nat, project: string, items: seq<Item>, ids: seq<string>, now: int)
    requires CanAccept(s, r, items, ids) && forall i :: 0 <= i < |items| ==> items[i].key !in s.tracked
    ensures var s' := Apply(s, Accept(r, project, items, ids, now));
            && s'.requests == s.requests[r := Request(BuildAll(items, project, ids, now), Publishing(0, false), None)]
            && s'.q == s.q && s'.db == s.db && s'.refuses == s.refuses && s'.tracked == s.tracked
            && s'.issued.Keys == s.issued.Keys + (set i | i in ids)
            && |BuildAll(items, project, ids, now)| == |items|
  {
  }

  lemma AllOfHandler(r: nat, os: seq<Outcome>, w: Outcome, arrives: bool)
    ensures forall a :: a in IngestSchedule(r, os, w, arrives) ==> OfHandler(a)
  {
  }

  // ----- an accepted event that is lost

  predicate CarriesNul(e: Event) {
    '\0' in e.name || '\0' in e.user || (e.properties.Some? && '\0' in e.properties.value)
  }

  /** TEXT and JSONB columns do not hold U+0000. */
  ghost predicate RefusesNul(refuses: Refusals) {
    forall e: Event :: CarriesNul(e) ==> refuses.store(e) && refuses.dead(Good(e))
  }

  /** An event that carries U+0000 and was answered with 202 is never acknowledged, stored or dead-lettered, whatever
      happens afterwards. */
  lemma AcceptedEventIsLost(pg: Server, project: string, item: Item, id: string, now: int, more: seq<Action>)
    requires RefusesNul(pg.refuses) && CarriesNul(BuildEvent(item, project, id, now))
    ensures var s := Run(pg, Accepted(0, project, [item], [id], now) + more);
            && |s.q.entries| > 0 && s.q.entries[0] == Good(BuildEvent(item, project, id, now))
            && 0 !in s.q.acked && !DeadLettered(s, 0) && id !in s.db.rows
  {
    var acts := Accepted(0, project, [item], [id], now);
    AcceptedRuns(Init(pg), 0, project, [item], [id], now);
    assert BuildAll([item], project, [id], now)[0] == BuildEvent(item, project, id, now);
    assert Run(pg, acts).q.entries == Goods(BuildAll([item], project, [id], now));
    hide Run, Accepted, DeadLettered;
    RunGrows(pg, acts, more);
    RefusedStaysOut(pg, acts + more, 0);
  }

  // ----- rounds one by one

  /** What XAUTOCLAIM hands over while fewer than ten entries are pending: the idle ones. */
  lemma SmallBatch(q: Group, now: int, ids: seq<nat>)
    requires GroupInv(q) && Ascending(ids) && |q.pending.Keys| < BATCH
    requires forall x :: x in ids <==> x in q.pending && now - q.pending[x].since >= MIN_IDLE_MS
    ensures IdleBatch(q, now) == ids
  {
    var batch := IdleBatch(q, now);
    IdleBatchIsClaimable(q, now);
    forall x | x in q.pending
      ensures x in Scanned(q)
    {
      if x !in Scanned(q) {
        FirstHundred(q, x);
        RangeAscending(q.pending, 0, |q.entries|, SCAN);
        MembersInside(q, Scanned(q));
      }
    }
    forall x | x in ids
      ensures x in batch
    {
      if x !in batch {
        FirstTen(q, now, x);
        MembersInside(q, batch);
      }
    }
    SameMembers(batch, ids);
  }

  lemma MembersInside(q: Group, ids: seq<nat>)
    requires Ascending(ids) && forall x :: x in ids ==> x in q.pending
    ensures |ids| <= |q.pending.Keys|
  {
    MembersSize(ids);
    SubsetSize(Members(ids), q.pending.Keys);
  }

  lemma WithoutLast(a: seq<nat>)
    requires Ascending(a) && a != []
    ensures forall y :: y in a[..|a| - 1] <==> y in a && y != a[|a| - 1]
    ensures forall y :: y in a ==> y <= a[|a| - 1]
    ensures a == a[..|a| - 1] + [a[|a| - 1]] && a[|a| - 1] in a
  {
  }

  lemma {:induction false} SameMembers(a: seq<nat>, b: seq<nat>)
    requires Ascending(a) && Ascending(b) && forall x :: x in a <==> x in b
    ensures a == b
  {
    MembersIncluded(a, b);
    MembersIncluded(b, a);
    MembersSize(a);
    MembersSize(b);
    if a != [] {
      WithoutLast(a);
      WithoutLast(b);
      Shorter(a);
      Shorter(b);
      hide Ascending;
      var x, rest, rest' := a[|a| - 1], a[..|a| - 1], b[..|b| - 1];
      assert x == b[|b| - 1];
      assert forall y :: y in rest <==> y in a && y != x;
      assert forall y :: y in rest' <==> y in b && y != x;
      SameMembers(rest, rest');
    }
  }

  lemma Shorter(a: seq<nat>)
    requires Ascending(a) && a != []
    ensures Ascending(a[..|a| - 1])
  {
  }

  lemma MoreRounds(s: State, rounds: seq<Round>, acts: seq<Action>, round: Round)
    returns (rounds': seq<Round>, acts': seq<Action>)
    requires InRounds(s, rounds, acts) && Possible(Exec(s, acts), round)
    ensures InRounds(s, rounds', acts') && Exec(s, acts') == Exec(Exec(s, acts), ScheduleOf(Exec(s, acts), round))
  {
    hide InRounds, Possible, ScheduleOf, Exec;
    var step := ScheduleOf(Exec(s, acts), round);
    OneRound(Exec(s, acts), round);
    RoundsConcat(s, rounds, acts, [round], step);
    ExecConcat(s, acts, step);
    rounds', acts' := rounds + [round], acts + step;
  }

  /** Some other bytes arrive on the stream. */
  lemma PublishMore(s: State, rounds: seq<Round>, acts: seq<Action>) returns (rounds': seq<Round>, acts': seq<Action>)
    requires InRounds(s, rounds, acts) && GroupInv(Exec(s, acts).q)
    ensures InRounds(s, rounds', acts') && GroupInv(Exec(s, acts').q)
    ensures Exec(s, acts').q == Append(Exec(s, acts).q, Bad("", None))
  {
    hide InRounds, Exec, GroupInv;
    rounds', acts' := MoreRounds(s, rounds, acts, Other(Inject("", None)));
    OtherRound(Exec(s, acts), Inject("", None));
    ExecTwo(Exec(s, acts), Inject("", None), Inject("", None));
  }

  /** One entry is read, and the reply is lost. */
  lemma ReadMore(s: State, rounds: seq<Round>, acts: seq<Action>, now: int)
    returns (rounds': seq<Round>, acts': seq<Action>)
    requires var q := Exec(s, acts).q;
             InRounds(s, rounds, acts) && GroupInv(q) && ClockAt(q, now) && q.next + 1 == |q.entries|
    ensures InRounds(s, rounds', acts') && GroupInv(Exec(s, acts').q)
    ensures Exec(s, acts').q == Deliver(Exec(s, acts).q, now) && Exec(s, acts').db == Exec(s, acts).db
    ensures Exec(s, acts').refuses == Exec(s, acts).refuses && Exec(s, acts').subs == Exec(s, acts).subs
  {
    hide InRounds, Exec, GroupInv, Apply, ClockAt;
    var s1 := Exec(s, acts);
    rounds', acts' := MoreRounds(s, rounds, acts, Read(now, LostReply, AllDone(BATCH)));
    DeliverInv(s1.q, now);
    TakesDeliver(s1, 1, now, false);
    assert DeliverMany(s1.q, 1, now) == Deliver(DeliverMany(s1.q, 0, now), now);
  }

  /** One entry is claimed, and the reply is lost. */
  lemma ClaimMore(s: State, rounds: seq<Round>, acts: seq<Action>, now: int, m: nat)
    returns (rounds': seq<Round>, acts': seq<Action>)
    requires var q := Exec(s, acts).q;
             InRounds(s, rounds, acts) && GroupInv(q) && ClockAt(q, now) && IdleBatch(q, now) == [m]
    ensures InRounds(s, rounds', acts') && GroupInv(Exec(s, acts').q)
    ensures Exec(s, acts').q == Redeliver(Exec(s, acts).q, m, now) && Exec(s, acts').db == Exec(s, acts).db
    ensures Exec(s, acts').refuses == Exec(s, acts).refuses && Exec(s, acts').subs == Exec(s, acts).subs
  {
    hide InRounds, Exec, GroupInv, Apply, ClockAt, IdleBatch;
    var s1 := Exec(s, acts);
    rounds', acts' := MoreRounds(s, rounds, acts, Reclaim(now, LostReply, true, AllDone(1)));
    IdleBatchIsClaimable(s1.q, now);
    RedeliverInv(s1.q, m, now);
    ClaimsRedeliver(s1, [m], now, false);
    assert RedeliverMany(s1.q, [m], now) == Redeliver(RedeliverMany(s1.q, [], now), m, now) by {
      assert [m][..0] == [];
    }
  }

  // ----- a hundred of them block the reclaim

  const NUL_ITEM := Item("event", "\0", None, "", None)

  function Ids(n: nat): seq<string> {
    seq(n, i requires 0 <= i => seq(i, _ => 'x'))
  }

  /** Every entry is delivered, and all replies are lost. */
  lemma ReadsLost(s: State, now: int) returns (rounds: seq<Round>, acts: seq<Action>)
    requires GroupInv(s.q) && ClockAt(s.q, now)
    ensures InRounds(s, rounds, acts)
    ensures var s' := Exec(s, acts);
            && GroupInv(s'.q) && s'.q.entries == s.q.entries && s'.q.next == |s.q.entries| && s'.q.acked == s.q.acked
            && s'.refuses == s.refuses
    decreases |s.q.entries| - s.q.next
  {
    hide InRounds, ScheduleOf, Exec, Reads, Possible;
    if s.q.next < |s.q.entries| {
      var round := Read(now, LostReply, AllDone(BATCH));
      OneReadLost(s, now);
      var s1 := Exec(s, ScheduleOf(s, round));
      var more, rest := ReadsLost(s1, now);
      ConsRound(s, round, more, rest);
      ExecConcat(s, ScheduleOf(s, round), rest);
      rounds, acts := [round] + more, ScheduleOf(s, round) + rest;
    } else {
      rounds, acts := [], [];
      EmptyRounds(s);
    }
  }

  lemma OneReadLost(s: State, now: int)
    requires GroupInv(s.q) && ClockAt(s.q, now) && s.q.next < |s.q.entries|
    ensures Possible(s, Read(now, LostReply, AllDone(BATCH)))
    ensures var s' := Exec(s, ScheduleOf(s, Read(now, LostReply, AllDone(BATCH))));
            && GroupInv(s'.q) && ClockAt(s'.q, now) && s'.q.entries == s.q.entries && s'.q.acked == s.q.acked
            && s'.refuses == s.refuses && s.q.next < s'.q.next <= |s.q.entries|
  {
    hide Exec, DeliverMany, Settles, GroupInv, ClockAt, Reads, ScheduleOf, Possible;
    var n := LostRead(s, now);
    TakesDeliver(s, n, now, false);
    DeliverManyReads(s.refuses, s.q, n, now);
    var q := DeliverMany(s.q, n, now);
    ReadsGroup(s.refuses, s.q, q, n, now);
    ReadsClock(s.refuses, s.q, q, n, now);
  }

  lemma LostRead(s: State, now: int) returns (n: nat)
    requires GroupInv(s.q) && ClockAt(s.q, now) && s.q.next < |s.q.entries|
    ensures Possible(s, Read(now, LostReply, AllDone(BATCH))) && 1 <= n <= |s.q.entries| - s.q.next
    ensures ScheduleOf(s, Read(now, LostReply, AllDone(BATCH))) == Takes(n, now, false)
  {
    n := Min(|s.q.entries| - s.q.next, BATCH);
  }

  /** A hundred accepted events that carry U+0000, then any other: with the first replies lost, no rounds of any number
      of workers ever get the other one off the stream, even if both tables would take it. */
  lemma HundredBlock(pg: Server, project: string, item: Item) returns (acts: seq<Action>)
    requires RefusesNul(pg.refuses)
    ensures var s := Run(pg, acts);
            && |s.q.entries| == 101 && s.q.entries[100] == Good(BuildEvent(item, project, "y", 0))
            && !(exists rounds, more :: LeavesIn(pg, acts, rounds, more, 100))
  {
    hide Exec, Accepted, GroupInv, CanLeave, BuildAll;
    var a1, a2 := TwoRequests(pg, project, item);
    RunConcat(pg, a1, a2);
    RunInv(pg, a1 + a2);
    KnownGroup(Run(pg, a1 + a2));
    var _, a3 := ReadsLost(Run(pg, a1 + a2), 0);
    acts := a1 + a2 + a3;
    RunConcat(pg, a1 + a2, a3);
    HundredHopeless(Run(pg, acts));
    LeavesExactly(pg, acts, 100);
  }

  lemma TwoRequests(pg: Server, project: string, item: Item) returns (a1: seq<Action>, a2: seq<Action>)
    ensures var s := Exec(Run(pg, a1), a2);
            && s.q == NO_ENTRIES.(entries := s.q.entries) && s.refuses == pg.refuses && |s.q.entries| == 101
            && s.q.entries[100] == Good(BuildEvent(item, project, "y", 0))
            && forall x :: 0 <= x < 100 ==> s.q.entries[x].Good? && s.q.entries[x].event.user == "\0"
  {
    hide Exec, Accepted;
    var items: seq<Item> := seq(100, _ => NUL_ITEM);
    a1, a2 := Accepted(0, project, items, Ids(100), 0), Accepted(1, project, [item], ["y"], 0);
    FirstHundredAccepted(pg, project, items);
    AcceptedRuns(Run(pg, a1), 1, project, [item], ["y"], 0);
    assert Goods(BuildAll([item], project, ["y"], 0)) == [Good(BuildEvent(item, project, "y", 0))];
  }

  lemma FirstHundredAccepted(pg: Server, project: string, items: seq<Item>)
    requires items == seq(100, _ => NUL_ITEM)
    ensures var s := Run(pg, Accepted(0, project, items, Ids(100), 0));
            && s.q == NO_ENTRIES.(entries := Goods(BuildAll(items, project, Ids(100), 0)))
            && s.refuses == pg.refuses && s.tracked == map[] && CanAccept(s, 1, [NUL_ITEM], ["y"])
  {
    hide Exec, Accepted, BuildAll, CanAccept, Ids, Goods;
    CanAcceptHundred(pg, items);
    AcceptedRuns(Init(pg), 0, project, items, Ids(100), 0);
    var s := Run(pg, Accepted(0, project, items, Ids(100), 0));
    IdsDiffer();
    assert [] + Goods(BuildAll(items, project, Ids(100), 0)) == Goods(BuildAll(items, project, Ids(100), 0));
    CanAcceptOne(s);
  }

  lemma IdsDiffer()
    ensures |Ids(100)| == 100 && "y" !in Ids(100)
    ensures forall i, j :: 0 <= i < j < 100 ==> Ids(100)[i] != Ids(100)[j]
  {
    assert forall i, j :: 0 <= i < j < 100 ==> |Ids(100)[i]| != |Ids(100)[j]|;
    assert forall i :: 0 <= i < 100 && |Ids(100)[i]| == 1 ==> Ids(100)[i][0] == 'x';
  }

  lemma CanAcceptHundred(pg: Server, items: seq<Item>)
    requires items == seq(100, _ => NUL_ITEM)
    ensures CanAccept(Init(pg), 0, items, Ids(100))
  {
    IdsDiffer();
    hide Ids;
  }

  lemma CanAcceptOne(s: State)
    requires 1 !in s.requests.Keys && "y" !in s.issued.Keys
    ensures CanAccept(s, 1, [NUL_ITEM], ["y"])
  {
  }

  lemma HundredHopeless(s: State)
    requires RefusesNul(s.refuses) && |s.q.entries| == 101 && s.q.next == 101 && GroupInv(s.q) && s.q.acked == {}
    requires forall x :: 0 <= x < 100 ==> s.q.entries[x].Good? && s.q.entries[x].event.user == "\0"
    ensures !CanLeave(s, 100)
  {
    hide Settles;
    forall x: nat | x < 100
      ensures Lost(s, x)
    {
      assert '\0' in s.q.entries[x].event.user;
    }
    var front: seq<nat> := seq(100, i requires 0 <= i => i);
    MembersSize(front);
    SubsetSize(Members(front), HopelessBelow(s, 100));
  }

  // ----- a dead letter without a project

  /** One entry is claimed, counted and handled, all statements answered. */
  lemma HandleMore(s: State, rounds: seq<Round>, acts: seq<Action>, now: int, m: nat)
    returns (rounds': seq<Round>, acts': seq<Action>)
    requires var q := Exec(s, acts).q;
             && InRounds(s, rounds, acts) && GroupInv(q) && ClockAt(q, now) && IdleBatch(q, now) == [m]
             && m in q.pending && m < |q.entries| && q.pending.Keys == {m}
    ensures InRounds(s, rounds', acts')
    ensures var s1, p := Exec(s, acts), Exec(s, acts).q.entries[m];
            Exec(s, acts').db ==
              HandledTables(s1.db, s1.subs, p, s1.q.pending[m].count + 1, Effective(s1.refuses, p, ALL_DONE))
  {
    hide InRounds, Exec, GroupInv, ClockAt, IdleBatch;
    var s1 := Exec(s, acts);
    IdleBatchIsClaimable(s1.q, now);
    rounds', acts' := MoreRounds(s, rounds, acts, Reclaim(now, Done, true, AllDone(1)));
    LoneReclaim(s1, m, now);
  }

  lemma LoneReclaim(s: State, m: nat, now: int)
    requires GroupInv(s.q) && Claimable(s.q, [m], now) && s.q.pending.Keys == {m}
    requires m in s.q.pending && m < |s.q.entries|
    ensures var p := s.q.entries[m];
            Exec(s, ReclaimSchedule(s.refuses, s.q, [m], now, Done, true, AllDone(1))).db ==
              HandledTables(s.db, s.subs, p, s.q.pending[m].count + 1, Effective(s.refuses, p, ALL_DONE))
  {
    hide Apply, Exec, Script, Report, Awaits, IsClaimed, RedeliverMany, HandledTables, GroupInv;
    var t, fs := |s.q.log|, AllDone(1);
    var q1 := RedeliverMany(s.q, [m], now);
    var msgs := Reclaimed(s.q.entries, q1.pending, [m], true);
    var claims, queries := Claims([m], now, true), Queries(t, 1, [m], true);
    ToldExactly(s.q, [m], now, m);
    ClaimsRedeliver(s, [m], now, true);
    var s1 := Exec(s, claims);
    QueriesTell(s1, t, 1, [m], true, msgs);
    var s2 := Exec(s1, queries);
    LoneScript(s2, t, msgs, fs);
    ScriptRuns(s2, t, msgs[0], Effective(s.refuses, msgs[0].payload, ALL_DONE));
    ExecConcat(s, claims, queries);
    ExecConcat(s, claims + queries, Scripts(s.refuses, t, msgs, fs));
  }

  lemma LoneScript(s: State, t: nat, msgs: seq<Message>, fs: seq<Fates>)
    requires |msgs| == |fs| == 1
    ensures Scripts(s.refuses, t, msgs, fs) ==
            Script(t, msgs[0].payload, msgs[0].count, Effective(s.refuses, msgs[0].payload, fs[0]))
  {
    hide Script;
    assert Scripts(s.refuses, t, msgs[..0], fs[..0]) == [];
  }

  /** Whatever event is accepted, unless Postgres refuses it as a dead letter: after two lost replies its third
      delivery dead-letters it, and the dead letter names no project. */
  lemma PublishedEventLosesProject(pg: Server, project: string, item: Item, id: string, now: int)
    returns (rounds: seq<Round>, more: seq<Action>)
    requires !pg.refuses.dead(Good(BuildEvent(item, project, id, now)))
    ensures InRounds(Run(pg, Accepted(0, project, [item], [id], now)), rounds, more)
    ensures Run(pg, Accepted(0, project, [item], [id], now) + more).db.dead ==
            [DeadLetter(None, Good(BuildEvent(item, project, id, now)), MaxRetries, 3)]
  {
    var acts := Accepted(0, project, [item], [id], now);
    var p := Good(BuildEvent(item, project, id, now));
    AcceptedRuns(Init(pg), 0, project, [item], [id], now);
    assert Goods(BuildAll([item], project, [id], now)) == [p];
    var s := Run(pg, acts);
    assert s.q == NO_ENTRIES.(entries := [p]) && s.db.dead == [] && s.refuses == pg.refuses;
    hide InRounds, Exec, Accepted, HeaderProject;
    rounds, more := ThirdDelivery(s, p);
    RunConcat(pg, acts, more);
  }

  /** Read and claim, both replies lost. */
  lemma TwoDeliveries(s: State, p: Payload) returns (rounds: seq<Round>, acts: seq<Action>)
    requires s.q == NO_ENTRIES.(entries := [p])
    ensures InRounds(s, rounds, acts)
    ensures var s' := Exec(s, acts);
            && s'.q == Group([p], 1, map[0 := Pend(30000, 2)], {}, [0, 0]) && GroupInv(s'.q)
            && s'.db == s.db && s'.subs == s.subs && s'.refuses == s.refuses
  {
    hide InRounds, Exec, GroupInv, IdleBatch;
    FreshGroup();
    GrownGroup(NO_ENTRIES, s.q);
    rounds, acts := [], [];
    EmptyRounds(s);
    rounds, acts := ReadMore(s, rounds, acts, 0);
    var q := Group([p], 1, map[0 := Pend(0, 1)], {}, [0]);
    assert Exec(s, acts).q == q;
    SmallBatch(q, 30000, [0]);
    rounds, acts := ClaimMore(s, rounds, acts, 30000, 0);
  }

  /** The third delivery is handled. */
  lemma ThirdDelivery(s: State, p: Payload) returns (rounds: seq<Round>, acts: seq<Action>)
    requires s.q == NO_ENTRIES.(entries := [p])
    ensures InRounds(s, rounds, acts)
    ensures Exec(s, acts).db == HandledTables(s.db, s.subs, p, 3, Effective(s.refuses, p, ALL_DONE))
  {
    hide InRounds, Exec, GroupInv, IdleBatch, HandledTables, Effective;
    rounds, acts := TwoDeliveries(s, p);
    var q := Group([p], 1, map[0 := Pend(30000, 2)], {}, [0, 0]);
    SmallBatch(q, 60000, [0]);
    rounds, acts := HandleMore(s, rounds, acts, 60000, 0);
  }

  // ----- a wrong count

  const BYTES := Bad("", None)

  /** Three entries read, at 0, 20 and 25 seconds. */
  const READ_THREE :=
    Group([BYTES, BYTES, BYTES], 3, map[0 := Pend(0, 1), 1 := Pend(20000, 1), 2 := Pend(25000, 1)], {}, [0, 1, 2])

  /** Then the first claimed at 30 seconds, and the second at 50. */
  const CLAIMED_ONE :=
    Group(READ_THREE.entries, 3, map[0 := Pend(30000, 2), 1 := Pend(20000, 1), 2 := Pend(25000, 1)], {}, [0, 1, 2, 0])
  const CLAIMED_TWO :=
    Group(READ_THREE.entries, 3, map[0 := Pend(30000, 2), 1 := Pend(50000, 2), 2 := Pend(25000, 1)], {},
          [0, 1, 2, 0, 1])

  lemma ThreeReads(pg: Server) returns (rounds: seq<Round>, acts: seq<Action>)
    ensures InRounds(Init(pg), rounds, acts) && Run(pg, acts).q == READ_THREE && GroupInv(READ_THREE)
  {
    hide InRounds, Exec, GroupInv, IdleBatch;
    var s := Init(pg);
    rounds, acts := [], [];
    EmptyRounds(s);
    FreshGroup();
    rounds, acts := PublishMore(s, rounds, acts);
    rounds, acts := ReadMore(s, rounds, acts, 0);
    assert Exec(s, acts).q == Group([BYTES], 1, map[0 := Pend(0, 1)], {}, [0]);
    rounds, acts := PublishMore(s, rounds, acts);
    rounds, acts := ReadMore(s, rounds, acts, 20000);
    assert Exec(s, acts).q == Group([BYTES, BYTES], 2, map[0 := Pend(0, 1), 1 := Pend(20000, 1)], {}, [0, 1]);
    rounds, acts := PublishMore(s, rounds, acts);
    rounds, acts := ReadMore(s, rounds, acts, 25000);
    assert Exec(s, acts).q == READ_THREE;
  }

  lemma TwoClaims(pg: Server) returns (rounds: seq<Round>, acts: seq<Action>)
    ensures InRounds(Init(pg), rounds, acts) && Run(pg, acts).q == CLAIMED_TWO && GroupInv(CLAIMED_TWO)
  {
    hide InRounds, Run, GroupInv;
    rounds, acts := ThreeReads(pg);
    rounds, acts := ClaimOf(pg, rounds, acts, 30000, 0, READ_THREE, CLAIMED_ONE);
    rounds, acts := ClaimOf(pg, rounds, acts, 50000, 1, CLAIMED_ONE, CLAIMED_TWO);
  }

  /** A run in which a message delivered twice is reported with count zero: entries 0 and 2 are claimed while entry 1,
      which another worker has just claimed, is pending between them. */
  lemma CountCanBeWrong(pg: Server) returns (rounds: seq<Round>, acts: seq<Action>)
    ensures InRounds(Init(pg), rounds, acts)
    ensures var q := Run(pg, acts).q;
            && GroupInv(q) && ClockAt(q, 60000) && IdleBatch(q, 60000) == [0, 2]
            && Told(q, [0, 2], 60000, true, 2) == 0 && Times(RedeliverMany(q, [0, 2], 60000).log, 2) == 2
  {
    hide InRounds, Exec, GroupInv, IdleBatch, Times, Told, RedeliverMany;
    rounds, acts := TwoClaims(pg);
    ThreePending(CLAIMED_TWO);
    SmallBatch(CLAIMED_TWO, 60000, [0, 2]);
    MiddleLeftOut(CLAIMED_TWO);
  }

  lemma ClaimOf(pg: Server, rounds: seq<Round>, acts: seq<Action>, now: int, m: nat, q: Group, q': Group)
    returns (rounds': seq<Round>, acts': seq<Action>)
    requires InRounds(Init(pg), rounds, acts) && Run(pg, acts).q == q && GroupInv(q) && ClockAt(q, now)
    requires q.pending.Keys == {0, 1, 2}
    requires forall x :: x == m <==> x in q.pending && now - q.pending[x].since >= MIN_IDLE_MS
    requires q' == Redeliver(q, m, now)
    ensures InRounds(Init(pg), rounds', acts') && Run(pg, acts').q == q' && GroupInv(q')
  {
    hide InRounds, Exec, GroupInv, IdleBatch, ClockAt, Redeliver;
    ThreePending(q);
    SmallBatch(q, now, [m]);
    rounds', acts' := ClaimMore(Init(pg), rounds, acts, now, m);
  }

  lemma FreshGroup()
    ensures GroupInv(NO_ENTRIES)
  {
  }

  lemma ThreePending(q: Group)
    requires q.pending.Keys == {0, 1, 2}
    ensures |q.pending.Keys| < BATCH
  {
  }

  lemma MiddleLeftOut(q: Group)
    requires q.pending.Keys == {0, 1, 2} && q.log == [0, 1, 2, 0, 1]
    ensures Told(q, [0, 2], 60000, true, 2) == 0 && Times(RedeliverMany(q, [0, 2], 60000).log, 2) == 2
  {
    assert [0, 2][..1] == [0] && [0][..0] == [];
    var q1 := Redeliver(q, 0, 60000);
    assert RedeliverMany(q, [0], 60000) == Redeliver(RedeliverMany(q, [], 60000), 0, 60000) == q1;
    var q2 := RedeliverMany(q, [0, 2], 60000);
    assert q2 == Redeliver(q1, 2, 60000) && q2.log == [0, 1, 2, 0, 1, 0, 2] && q2.pending.Keys == {0, 1, 2};
    FirstTwo(q2.pending);
    TwiceTwo();
  }

  lemma FirstTwo(pending: map<nat, Pend>)
    requires pending.Keys == {0, 1, 2}
    ensures Report(pending, [0, 2], 2) == 0
  {
    assert Range(pending, 1, 2, 1) == [1] + Range(pending, 2, 2, 0);
    assert Range(pending, 0, 2, 2) == [0] + Range(pending, 1, 2, 1);
  }

  lemma TwiceTwo()
    ensures Times([0, 1, 2, 0, 1, 0, 2], 2) == 2
  {
    TimesOfUndelivered([0, 1], 2);
    TimesAppend([0, 1], 2);
    TimesAppend([0, 1, 2], 0);
    TimesAppend([0, 1, 2, 0], 1);
    TimesAppend([0, 1, 2, 0, 1], 0);
    TimesAppend([0, 1, 2, 0, 1, 0], 2);
    assert [0, 1] + [2] == [0, 1, 2] && [0, 1, 2] + [0] == [0, 1, 2, 0] && [0, 1, 2, 0] + [1] == [0, 1, 2, 0, 1];
    assert [0, 1, 2, 0, 1] + [0] == [0, 1, 2, 0, 1, 0] && [0, 1, 2, 0, 1, 0] + [2] == [0, 1, 2, 0, 1, 0, 2];
  }
}
