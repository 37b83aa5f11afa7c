/** internal/worker: the code of one worker, which runs its flights one after another. Each method is a schedule
    of the pipeline machine, so whatever holds of every run of the machine holds of it. */
module Worker {
  import opened Options
  import opened Events
  import opened Queue
  import opened EventStore
  import opened Pipeline

  /** What becomes of each statement of one handling. */
  datatype Fates = Fates(store: Outcome, enqueue: Outcome, count: Outcome, dau: Outcome, dead: Outcome, ack: Outcome)

  /** The fates of a handling of p: a statement the server refuses fails. */
  function Effective(refuses: Refusals, p: Payload, f: Fates): (e: Fates)
    ensures Respects(refuses, p, e)
  {
    f.(store := FateOf(p.Good? && refuses.store(p.event), f.store), dead := FateOf(refuses.dead(p), f.dead))
  }

  predicate Respects(refuses: Refusals, p: Payload, f: Fates) {
    (p.Good? && refuses.store(p.event) ==> f.store == NotDone) && (refuses.dead(p) ==> f.dead == NotDone)
  }

  // ----- what one handling does

  predicate IsDead(p: Payload, count: nat) {
    count >= MAX_RETRIES || p.Bad?
  }

  /** The tables after one handling of a message read with the given delivery count. */
  function HandledTables(db: Tables, subs: set<Subscription>, p: Payload, count: nat, f: Fates): Tables {
    if IsDead(p, count) then
      var reason := if count >= MAX_RETRIES then MaxRetries else DecodeFailed;
      if f.dead.Applied() then db.(dead := db.dead + [DeadLetter(HeaderProject(p), p, reason, count)]) else db
    else
      var e := p.event;
      var stored := if f.store.Applied() then db.(rows := Insert(db.rows, e)) else db;
      if f.store.Error() then stored
      else
        var enqueued := if f.enqueue.Applied() then stored.(pairs := stored.pairs + PairsOf(subs, e)) else stored;
        var counted :=
          if f.count.Applied() then enqueued.(counts := Bump(enqueued.counts, CountKeyOf(e))) else enqueued;
        if f.dau.Applied() then counted.(dau := counted.dau + ActiveOf(e)) else counted
  }

  /** The group after it: the message is acknowledged only behind the store or the dead-letter INSERT. */
  function HandledGroup(q: Group, id: nat, p: Payload, count: nat, f: Fates): Group {
    var reached := if IsDead(p, count) then f.dead == Done else f.store == Done;
    if reached && f.ack.Applied() then Acknowledge(q, id) else q
  }

  // ----- what that means, table by table

  /** The message is off the pending list, if it was on it. */
  ghost predicate IsAcked(q: Group, q': Group, id: nat) {
    && q'.entries == q.entries && q'.next == q.next && q'.log == q.log
    && q'.pending.Keys == q.pending.Keys - {id} && (forall x :: x in q'.pending ==> q'.pending[x] == q.pending[x])
    && q'.acked == q.acked + if id in q.pending then {id} else {}
  }

  /** At the third delivery, and at once for bytes that are no event, a handling writes one dead letter and acknowledges
      behind it; nothing else changes. */
  lemma DeadHandlingMeans(db: Tables, subs: set<Subscription>, q: Group, id: nat, p: Payload, count: nat, f: Fates)
    requires count >= 3 || p.Bad?
    ensures var db', q' := HandledTables(db, subs, p, count, f), HandledGroup(q, id, p, count, f);
            && db' == db.(dead := db'.dead)
            && (!f.dead.Applied() ==> db'.dead == db.dead)
            && (f.dead.Applied() ==>
                  && |db'.dead| == |db.dead| + 1 && db'.dead[..|db.dead|] == db.dead
                  && var d := db'.dead[|db.dead|];
                     && d.payload == p && d.attempts == count && (d.reason.MaxRetries? <==> count >= 3)
                     && d.project == if p.Bad? then p.header else None)
            && (if f.dead == Done && f.ack.Applied() then IsAcked(q, q', id) else q' == q)
  {
  }

  /** Any other handling stores first. If the store does not report success nothing else happens. Otherwise each side
      statement does its own part whatever becomes of the others, and the acknowledgement waits for none of them. */
  lemma LiveHandlingMeans(db: Tables, subs: set<Subscription>, q: Group, id: nat, e: Event, count: nat, f: Fates)
    requires count < 3
    ensures var db', q' := HandledTables(db, subs, Good(e), count, f), HandledGroup(q, id, Good(e), count, f);
            var past := f.store == Done;
            && db'.dead == db.dead
            && (if f.store.Applied() && !Conflicts(db.rows, e)
                then db'.rows.Keys == db.rows.Keys + {e.id} && Holds(db'.rows[e.id], e) && SubRows(db.rows, db'.rows)
                else db'.rows == db.rows)
            && (forall p :: p in db'.pairs <==>
                  p in db.pairs || (past && f.enqueue.Applied() && exists s :: s in subs && Delivers(p, s, e)))
            && (forall k :: CountAt(db'.counts, k) ==
                            CountAt(db.counts, k) + if past && f.count.Applied() && Tallies(k, e) then 1 else 0)
            && (forall a :: a in db'.dau <==> a in db.dau || (past && f.dau.Applied() && Marks(a, e)))
            && (if past && f.ack.Applied() then IsAcked(q, q', id) else q' == q)
  {
    hide Conflicts, Holds, Delivers, Tallies, Marks, PairsOf, ActiveOf, CountKeyOf, Bump, Insert, CountAt;
    InsertMeans(db.rows, e);
    InsertKeeps(db.rows, e);
    forall p
      ensures p in PairsOf(subs, e) <==> exists s :: s in subs && Delivers(p, s, e)
    {
      PairsMean(subs, p, e);
    }
    forall k
      ensures CountAt(Bump(db.counts, CountKeyOf(e)), k) == CountAt(db.counts, k) + if Tallies(k, e) then 1 else 0
    {
      BumpMeans(db.counts, CountKeyOf(e), k);
      CountKeyMeans(k, e);
    }
    forall a
      ensures a in ActiveOf(e) <==> Marks(a, e)
    {
      ActiveMeans(a, e);
    }
  }

  lemma InsertKeeps(rows: Rows, e: Event)
    ensures SubRows(rows, Insert(rows, e))
  {
  }

  // ----- schedules

  /** The steps of flight t when nothing comes in between. */
  function Script(t: nat, p: Payload, count: nat, f: Fates): seq<Action> {
    if IsDead(p, count) then
      if f.dead.Error() then [Begin(t), Do(t, f.dead)] else [Begin(t), Do(t, f.dead), Do(t, f.ack)]
    else if f.store.Error() then [Begin(t), Do(t, f.store)]
    else [Begin(t), Do(t, f.store), Do(t, f.enqueue), Do(t, f.count), Do(t, f.dau), Do(t, f.ack)]
  }

  function Scripts(refuses: Refusals, t: nat, msgs: seq<Message>, fs: seq<Fates>): seq<Action>
    requires |fs| == |msgs|
    decreases |msgs|
  {
    if msgs == [] then []
    else
      var n := |msgs| - 1;
      Scripts(refuses, t, msgs[..n], fs[..n])
      + Script(t + n, msgs[n].payload, msgs[n].count, Effective(refuses, msgs[n].payload, fs[n]))
  }

  function Takes(n: nat, now: int, got: bool): seq<Action> {
    seq(n, _ => Take(now, got))
  }

  function Claims(ids: seq<nat>, now: int, got: bool): seq<Action> {
    seq(|ids|, i requires 0 <= i < |ids| => Claim(ids[i], now, got))
  }

  function Queries(t: nat, n: nat, ids: seq<nat>, ok: bool): seq<Action> {
    seq(n, i requires 0 <= i => Query(t + i, ids, ok))
  }

  /** Message msg has been delivered as flight t and waits for its handling. */
  predicate Awaits(s: State, t: nat, msg: Message) {
    && Flying(s, t) && s.q.log[t] == msg.id && s.q.entries[msg.id] == msg.payload
    && s.flights[t] == Waiting(msg.count)
  }

  /** The messages wait as flights t, t+1, ... */
  ghost predicate AllAwait(s: State, t: nat, msgs: seq<Message>) {
    forall k :: 0 <= k < |msgs| ==> Awaits(s, t + k, msgs[k])
  }

  /** Steps of flight t only. */
  predicate OfFlight(a: Action, t: nat) {
    (a.Begin? || a.Do?) && a.t == t
  }

  /** Flight t may have moved or ended; no other did, and nothing was delivered. */
  predicate OnlyFlight(s: State, s': State, t: nat) {
    && s'.q.log == s.q.log && s'.q.entries == s.q.entries
    && (s'.flights == s.flights || s'.flights == s.flights - {t}
        || (t in s'.flights && s'.flights == s.flights[t := s'.flights[t]]))
  }

  lemma DeadOnlyFlight(s: State, t: nat, o: Outcome)
    requires Flying(s, t)
    ensures s.flights[t].AtDeadInsert? ==> OnlyFlight(s, DoDeadInsert(s, t, o), t)
    ensures OnlyFlight(s, DoDeadAck(s, t, o), t)
  {
    hide HeaderProject;
  }

  lemma StoreOnlyFlight(s: State, t: nat, o: Outcome)
    requires Handling(s, t)
    ensures OnlyFlight(s, DoStore(s, t, o), t) && OnlyFlight(s, DoAck(s, t, o), t)
  {
    hide Insert;
  }

  lemma SideOnlyFlight(s: State, t: nat, o: Outcome)
    requires Handling(s, t)
    ensures OnlyFlight(s, DoEnqueue(s, t, o), t) && OnlyFlight(s, DoCount(s, t, o), t)
    ensures OnlyFlight(s, DoDau(s, t, o), t)
  {
    hide PairsOf, ActiveOf, Bump, CountKeyOf, MissedBy;
  }

  lemma StepOnlyFlight(s: State, t: nat, o: Outcome)
    requires Flying(s, t)
    ensures OnlyFlight(s, DoStep(s, t, o), t)
  {
    hide DoDeadInsert, DoDeadAck, DoStore, DoEnqueue, DoCount, DoDau, DoAck, FateOf;
    match s.flights[t]
    case AtDeadInsert(_, _) => DeadOnlyFlight(s, t, FateOf(s.refuses.dead(PayloadOf(s, t)), o));
    case AtDeadAck => DeadOnlyFlight(s, t, o);
    case AtStore => if Handling(s, t) { StoreOnlyFlight(s, t, FateOf(s.refuses.store(EventOf(s, t)), o)); }
    case AtAck => if Handling(s, t) { StoreOnlyFlight(s, t, o); }
    case _ => if Handling(s, t) { SideOnlyFlight(s, t, o); }
  }

  lemma OtherFlightWaits(s: State, a: Action, t: nat, u: nat, msg: Message)
    requires OfFlight(a, t) && u != t && Awaits(s, u, msg)
    ensures Awaits(Apply(s, a), u, msg)
  {
    hide DoStep;
    if a.Do? && Flying(s, t) {
      StepOnlyFlight(s, t, a.o);
    }
  }

  lemma {:induction false} OtherFlightsWait(s: State, t: nat, acts: seq<Action>, u: nat, msg: Message)
    requires forall a :: a in acts ==> OfFlight(a, t)
    requires u != t && Awaits(s, u, msg)
    ensures Awaits(Exec(s, acts), u, msg)
    decreases |acts|
  {
    hide Apply, Awaits, OfFlight;
    if acts != [] {
      OtherFlightsWait(s, t, acts[..|acts| - 1], u, msg);
      OtherFlightWaits(Exec(s, acts[..|acts| - 1]), acts[|acts| - 1], t, u, msg);
    }
  }

  /** A delivery awaits its handling if the reply arrives; what awaited before still does. */
  lemma TakeAwaits(s: State, now: int, got: bool)
    requires s.q.next < |s.q.entries|
    ensures var s' := Apply(s, Take(now, got));
            && s'.q == Deliver(s.q, now) && s'.db == s.db && s'.subs == s.subs && s'.refuses == s.refuses
            && (got ==> Awaits(s', |s.q.log|, Message(s.q.next, s.q.entries[s.q.next], 0)))
            && (forall u, msg :: Awaits(s, u, msg) ==> Awaits(s', u, msg))
  {
  }

  /** Reading n entries at once is n single deliveries; the reply puts them in the worker's hands. */
  lemma {:induction false} TakesDeliver(s: State, n: nat, now: int, got: bool)
    requires s.q.next + n <= |s.q.entries|
    ensures var s' := Exec(s, Takes(n, now, got));
            && s'.q == DeliverMany(s.q, n, now) && s'.db == s.db && s'.subs == s.subs && s'.refuses == s.refuses
            && s'.q.entries == s.q.entries && s'.q.next == s.q.next + n && |s'.q.log| == |s.q.log| + n
            && (got ==> AllAwait(s', |s.q.log|, Undelivered(s.q, n)))
  {
    hide Apply, Awaits;
    if n > 0 {
      var before := Takes(n - 1, now, got);
      TakesDeliver(s, n - 1, now, got);
      assert Takes(n, now, got) == before + [Take(now, got)];
      ExecOne(s, before, Take(now, got));
      TakeAwaits(Exec(s, before), now, got);
      assert Undelivered(s.q, n)[..n - 1] == Undelivered(s.q, n - 1);
      var mid := Exec(s, before);
      forall k | 0 <= k < n && got
        ensures Awaits(Exec(s, Takes(n, now, got)), |s.q.log| + k, Undelivered(s.q, n)[k])
      {
        if k < n - 1 {
          assert Awaits(mid, |s.q.log| + k, Undelivered(s.q, n - 1)[k]);
        }
      }
    }
  }

  function Undelivered(q: Group, n: nat): seq<Message>
    requires q.next + n <= |q.entries|
  {
    seq(n, k requires 0 <= k < n => Message(q.next + k, q.entries[q.next + k], 0))
  }

  /** Do(t, o) is the statement the flight points at. */
  lemma ApplyDo(s: State, t: nat, o: Outcome)
    requires Handling(s, t)
    ensures s.flights[t].AtStore? ==> Apply(s, Do(t, o)) == DoStore(s, t, FateOf(s.refuses.store(EventOf(s, t)), o))
    ensures s.flights[t].AtEnqueue? ==> Apply(s, Do(t, o)) == DoEnqueue(s, t, o)
    ensures s.flights[t].AtCount? ==> Apply(s, Do(t, o)) == DoCount(s, t, o)
    ensures s.flights[t].AtDau? ==> Apply(s, Do(t, o)) == DoDau(s, t, o)
    ensures s.flights[t].AtAck? ==> Apply(s, Do(t, o)) == DoAck(s, t, o)
  {
    hide DoStore, DoEnqueue, DoCount, DoDau, DoAck;
  }

  /** Two steps, four steps: the runs of a script, unrolled. */
  lemma ExecTwo(s: State, a: Action, b: Action)
    ensures Exec(s, [a]) == Apply(s, a)
    ensures Exec(s, [a, b]) == Apply(Apply(s, a), b)
  {
  }

  lemma ExecFour(s: State, a: Action, b: Action, c: Action, d: Action)
    ensures Exec(s, [a, b, c, d]) == Apply(Apply(Apply(Apply(s, a), b), c), d)
  {
    hide Apply;
    assert [a, b, c, d] == [a, b] + [c, d];
    ExecConcat(s, [a, b], [c, d]);
    ExecTwo(s, a, b);
    ExecTwo(Exec(s, [a, b]), c, d);
  }

  /** A script is an uninterrupted run of its flight: it does to the stream and the tables what one handling does. */
  lemma ScriptRuns(s: State, t: nat, msg: Message, f: Fates)
    requires Awaits(s, t, msg) && Respects(s.refuses, msg.payload, f)
    ensures var s' := Exec(s, Script(t, msg.payload, msg.count, f));
            && s'.db == HandledTables(s.db, s.subs, msg.payload, msg.count, f)
            && s'.q == HandledGroup(s.q, msg.id, msg.payload, msg.count, f)
            && s'.subs == s.subs && s'.refuses == s.refuses
  {
    hide Apply, Exec, Script, HandledTables, HandledGroup;
    if IsDead(msg.payload, msg.count) {
      DeadScriptRuns(s, t, msg, f);
    } else {
      LiveScriptRuns(s, t, msg, f);
    }
  }

  lemma LiveScriptRuns(s: State, t: nat, msg: Message, f: Fates)
    requires Awaits(s, t, msg) && !IsDead(msg.payload, msg.count) && Respects(s.refuses, msg.payload, f)
    ensures var s' := Exec(s, Script(t, msg.payload, msg.count, f));
            && s'.db == HandledTables(s.db, s.subs, msg.payload, msg.count, f)
            && s'.q == HandledGroup(s.q, msg.id, msg.payload, msg.count, f)
            && s'.subs == s.subs && s'.refuses == s.refuses
  {
    hide Apply, Exec, Script, HandledTables, HandledGroup, DoBegin, DoStore;
    StoreRuns(s, t, msg, f);
    LiveHandling(s, t, msg, f);
    var s1 := DoBegin(s, t);
    if f.store == Done {
      var sides := [Do(t, f.enqueue), Do(t, f.count), Do(t, f.dau), Do(t, f.ack)];
      SideScriptRuns(s1, t, f);
      ExecConcat(s, [Begin(t), Do(t, f.store)], sides);
    } else {
      StoreFails(s1, t, f.store);
    }
  }

  lemma LiveHandling(s: State, t: nat, msg: Message, f: Fates)
    requires !IsDead(msg.payload, msg.count)
    ensures f.store.Error() ==>
              && Script(t, msg.payload, msg.count, f) == [Begin(t), Do(t, f.store)]
              && HandledTables(s.db, s.subs, msg.payload, msg.count, f) ==
                 (if f.store.Applied() then s.db.(rows := Insert(s.db.rows, msg.payload.event)) else s.db)
              && HandledGroup(s.q, msg.id, msg.payload, msg.count, f) == s.q
    ensures f.store == Done ==>
              && Script(t, msg.payload, msg.count, f) ==
                 [Begin(t), Do(t, f.store)] + [Do(t, f.enqueue), Do(t, f.count), Do(t, f.dau), Do(t, f.ack)]
              && HandledTables(s.db, s.subs, msg.payload, msg.count, f) ==
                 HandledTables(s.db, s.subs, Good(msg.payload.event), 0, f)
              && HandledGroup(s.q, msg.id, msg.payload, msg.count, f) ==
                 (if f.ack.Applied() then Acknowledge(s.q, msg.id) else s.q)
  {
    hide Insert, PairsOf, ActiveOf, Bump, CountKeyOf, Acknowledge;
  }

  lemma StoreFails(s: State, t: nat, o: Outcome)
    requires Handling(s, t) && o.Error()
    ensures var s' := DoStore(s, t, o);
            && s'.db == (if o.Applied() then s.db.(rows := Insert(s.db.rows, EventOf(s, t))) else s.db)
            && s'.q == s.q && s'.subs == s.subs && s'.refuses == s.refuses
  {
  }

  /** The first two steps of a handling. */
  lemma StoreRuns(s: State, t: nat, msg: Message, f: Fates)
    requires Awaits(s, t, msg) && !IsDead(msg.payload, msg.count) && Respects(s.refuses, msg.payload, f)
    ensures var s1 := DoBegin(s, t);
            && Handling(s1, t) && s1.flights[t] == AtStore && EventOf(s1, t) == msg.payload.event
            && s1.db == s.db && s1.q == s.q && s1.subs == s.subs && s1.refuses == s.refuses
            && MessageOf(s1, t) == msg.id
            && Exec(s, [Begin(t), Do(t, f.store)]) == DoStore(s1, t, f.store)
  {
    var s1 := DoBegin(s, t);
    BeginApplies(s, t);
    hide Apply, Exec, DoStore, DoEnqueue, DoCount, DoDau, DoAck;
    ExecTwo(s, Begin(t), Do(t, f.store));
    ApplyDo(s1, t, f.store);
  }

  lemma BeginApplies(s: State, t: nat)
    requires Flying(s, t) && s.flights[t].Waiting?
    ensures Apply(s, Begin(t)) == DoBegin(s, t)
  {
  }

  lemma DeadScriptRuns(s: State, t: nat, msg: Message, f: Fates)
    requires Awaits(s, t, msg) && IsDead(msg.payload, msg.count) && Respects(s.refuses, msg.payload, f)
    ensures var s' := Exec(s, Script(t, msg.payload, msg.count, f));
            && s'.db == HandledTables(s.db, s.subs, msg.payload, msg.count, f)
            && s'.q == HandledGroup(s.q, msg.id, msg.payload, msg.count, f)
            && s'.subs == s.subs && s'.refuses == s.refuses
  {
    DeadSteps(s, t, msg, f);
    var s1 := DoBegin(s, t);
    var s2 := DoDeadInsert(s1, t, f.dead);
    hide Apply, Exec, HeaderProject, Acknowledge;
    ExecTwo(s, Begin(t), Do(t, f.dead));
    if f.dead == Done {
      assert [Begin(t), Do(t, f.dead)] + [Do(t, f.ack)] == Script(t, msg.payload, msg.count, f);
      ExecOne(s, [Begin(t), Do(t, f.dead)], Do(t, f.ack));
    }
  }

  lemma DeadSteps(s: State, t: nat, msg: Message, f: Fates)
    requires Awaits(s, t, msg) && IsDead(msg.payload, msg.count) && Respects(s.refuses, msg.payload, f)
    ensures var s1 := DoBegin(s, t);
            && Apply(s, Begin(t)) == s1
            && Flying(s1, t) && s1.flights[t].AtDeadInsert?
            && Apply(s1, Do(t, f.dead)) == DoDeadInsert(s1, t, f.dead)
            && (f.dead == Done ==>
                  var s2 := DoDeadInsert(s1, t, f.dead);
                  Flying(s2, t) && Apply(s2, Do(t, f.ack)) == DoDeadAck(s2, t, f.ack))
  {
    var s1 := DoBegin(s, t);
    DeadInsertApplies(s1, t, f.dead);
    if f.dead == Done {
      var s2 := DoDeadInsert(s1, t, f.dead);
      DeadAckApplies(s2, t, f.ack);
    }
    hide DoStep, HeaderProject;
  }

  lemma DeadInsertApplies(s: State, t: nat, o: Outcome)
    requires Flying(s, t) && s.flights[t].AtDeadInsert?
    ensures Apply(s, Do(t, o)) == DoDeadInsert(s, t, FateOf(s.refuses.dead(PayloadOf(s, t)), o))
  {
  }

  lemma DeadAckApplies(s: State, t: nat, o: Outcome)
    requires Flying(s, t) && s.flights[t].AtDeadAck?
    ensures Apply(s, Do(t, o)) == DoDeadAck(s, t, o)
  {
  }

  /** The four statements behind a successful store. */
  lemma SideScriptRuns(s1: State, t: nat, f: Fates)
    requires Handling(s1, t) && s1.flights[t] == AtStore && f.store == Done
    ensures var e, s2 := EventOf(s1, t), DoStore(s1, t, f.store);
            var s' := Exec(s2, [Do(t, f.enqueue), Do(t, f.count), Do(t, f.dau), Do(t, f.ack)]);
            && s'.db == HandledTables(s1.db, s1.subs, Good(e), 0, f)
            && s'.q == (if f.ack.Applied() then Acknowledge(s1.q, MessageOf(s1, t)) else s1.q)
            && s'.subs == s1.subs && s'.refuses == s1.refuses
  {
    hide Exec, Apply, Insert, PairsOf, ActiveOf, Bump, CountKeyOf, Acknowledge;
    var s2 := DoStore(s1, t, f.store);
    ApplyDo(s2, t, f.enqueue);
    var s3 := DoEnqueue(s2, t, f.enqueue);
    ApplyDo(s3, t, f.count);
    var s4 := DoCount(s3, t, f.count);
    ApplyDo(s4, t, f.dau);
    var s5 := DoDau(s4, t, f.dau);
    ApplyDo(s5, t, f.ack);
    ExecFour(s2, Do(t, f.enqueue), Do(t, f.count), Do(t, f.dau), Do(t, f.ack));
  }

  lemma DeadHandling(s: State, msg: Message, f: Fates)
    requires msg.count >= MAX_RETRIES
    ensures HandledTables(s.db, s.subs, msg.payload, msg.count, f) ==
            if f.dead.Applied()
            then s.db.(dead := s.db.dead + [DeadLetter(HeaderProject(msg.payload), msg.payload, MaxRetries, msg.count)])
            else s.db
    ensures HandledGroup(s.q, msg.id, msg.payload, msg.count, f) ==
            if f.dead == Done && f.ack.Applied() then Acknowledge(s.q, msg.id) else s.q
  {
  }

  /** The script of message i of a batch. */
  function ScriptAt(refuses: Refusals, t: nat, msgs: seq<Message>, fs: seq<Fates>, i: nat): seq<Action>
    requires i < |msgs| == |fs|
  {
    Script(t + i, msgs[i].payload, msgs[i].count, Effective(refuses, msgs[i].payload, fs[i]))
  }

  lemma NextScript(s: State, t: nat, msgs: seq<Message>, fs: seq<Fates>, i: nat)
    requires |fs| == |msgs| && i < |msgs|
    ensures Exec(s, Scripts(s.refuses, t, msgs[..i + 1], fs[..i + 1])) ==
            Exec(Exec(s, Scripts(s.refuses, t, msgs[..i], fs[..i])), ScriptAt(s.refuses, t, msgs, fs, i))
  {
    hide Exec, Script;
    assert msgs[..i + 1][..i] == msgs[..i] && fs[..i + 1][..i] == fs[..i];
    ExecConcat(s, Scripts(s.refuses, t, msgs[..i], fs[..i]), ScriptAt(s.refuses, t, msgs, fs, i));
  }

  /** After the first i scripts the later messages still wait, over the same subscriptions. */
  lemma {:induction false} StillWaiting(s: State, t: nat, msgs: seq<Message>, fs: seq<Fates>, i: nat)
    requires |fs| == |msgs| && i <= |msgs| && AllAwait(s, t, msgs)
    ensures var s' := Exec(s, Scripts(s.refuses, t, msgs[..i], fs[..i]));
            && s'.subs == s.subs && s'.refuses == s.refuses
            && forall k :: i <= k < |msgs| ==> Awaits(s', t + k, msgs[k])
  {
    hide Awaits, Script, Apply, HandledTables, HandledGroup;
    if i > 0 {
      var j := i - 1;
      StillWaiting(s, t, msgs, fs, j);
      var before := Exec(s, Scripts(s.refuses, t, msgs[..j], fs[..j]));
      var f := Effective(s.refuses, msgs[j].payload, fs[j]);
      var script := Script(t + j, msgs[j].payload, msgs[j].count, f);
      NextScript(s, t, msgs, fs, j);
      ScriptRuns(before, t + j, msgs[j], f);
      ScriptOfFlight(t + j, msgs[j].payload, msgs[j].count, f);
      forall k | i <= k < |msgs|
        ensures Awaits(Exec(before, script), t + k, msgs[k])
      {
        OtherFlightsWait(before, t + j, script, t + k, msgs[k]);
      }
    }
  }

  lemma ScriptOfFlight(t: nat, p: Payload, count: nat, f: Fates)
    ensures forall a :: a in Script(t, p, count, f) ==> OfFlight(a, t)
  {
  }

  /** The flights t.. carry the claimed entries ids, not yet counted. */
  ghost predicate AllClaimed(s: State, t: nat, ids: seq<nat>) {
    forall k :: 0 <= k < |ids| ==> IsClaimed(s, t + k, ids[k])
  }

  predicate IsClaimed(s: State, t: nat, id: nat) {
    Flying(s, t) && s.q.log[t] == id && s.flights[t] == Claimed
  }

  lemma ClaimTakes(s: State, m: nat, now: int, got: bool)
    requires GroupInv(s.q) && m in s.q.pending
    ensures var s' := Apply(s, Claim(m, now, got));
            && s'.q == Redeliver(s.q, m, now) && s'.db == s.db && s'.subs == s.subs && s'.refuses == s.refuses
            && GroupInv(s'.q)
            && (got ==> IsClaimed(s', |s.q.log|, m))
            && (forall u, id :: IsClaimed(s, u, id) ==> IsClaimed(s', u, id))
  {
    RedeliverInv(s.q, m, now);
    hide Times;
  }

  /** Claiming a batch is claiming its entries one by one. */
  lemma {:induction false} ClaimsRedeliver(s: State, ids: seq<nat>, now: int, got: bool)
    requires GroupInv(s.q) && forall id :: id in ids ==> id in s.q.pending
    ensures var s' := Exec(s, Claims(ids, now, got));
            && s'.q == RedeliverMany(s.q, ids, now) && s'.db == s.db && s'.subs == s.subs && s'.refuses == s.refuses
            && GroupInv(s'.q)
            && s'.q.entries == s.q.entries && |s'.q.log| == |s.q.log| + |ids| && s'.q.pending.Keys == s.q.pending.Keys
            && (got ==> AllClaimed(s', |s.q.log|, ids))
    decreases |ids|
  {
    hide Apply, GroupInv, IsClaimed;
    if ids != [] {
      var n := |ids| - 1;
      var mid := Exec(s, Claims(ids[..n], now, got));
      ClaimsRedeliver(s, ids[..n], now, got);
      assert Claims(ids, now, got) == Claims(ids[..n], now, got) + [Claim(ids[n], now, got)];
      ExecOne(s, Claims(ids[..n], now, got), Claim(ids[n], now, got));
      assert ids[n] in mid.q.pending.Keys;
      ClaimTakes(mid, ids[n], now, got);
      forall k | 0 <= k < |ids| && got
        ensures IsClaimed(Exec(s, Claims(ids, now, got)), |s.q.log| + k, ids[k])
      {
        if k < n {
          assert IsClaimed(mid, |s.q.log| + k, ids[..n][k]);
        }
      }
    }
  }

  /** The messages Reclaim hands out. */
  function Reclaimed(entries: seq<Payload>, pending: map<nat, Pend>, ids: seq<nat>, ok: bool): seq<Message>
    requires forall id :: id in ids ==> id < |entries|
  {
    seq(|ids|, k requires 0 <= k < |ids| =>
      assert ids[k] in ids; Message(ids[k], entries[ids[k]], if ok then Report(pending, ids, ids[k]) else 0))
  }

  /** After XPENDING the first n claimed flights wait with the reported counts. */
  lemma {:induction false} QueriesTell(s: State, t: nat, n: nat, ids: seq<nat>, ok: bool, msgs: seq<Message>)
    requires n <= |ids| && AllClaimed(s, t, ids) && (forall id :: id in ids ==> id < |s.q.entries|)
    requires msgs == Reclaimed(s.q.entries, s.q.pending, ids, ok)
    ensures var s' := Exec(s, Queries(t, n, ids, ok));
            && s'.q == s.q && s'.db == s.db && s'.subs == s.subs && s'.refuses == s.refuses
            && (forall k :: 0 <= k < n ==> Awaits(s', t + k, msgs[k]))
            && (forall k :: n <= k < |ids| ==> IsClaimed(s', t + k, ids[k]))
  {
    hide Apply, Awaits, IsClaimed, Report, Reclaimed;
    assert |msgs| == |ids| by {
      ReclaimedLength(s.q.entries, s.q.pending, ids, ok);
    }
    if n > 0 {
      var j := n - 1;
      var mid := Exec(s, Queries(t, j, ids, ok));
      QueriesTell(s, t, j, ids, ok, msgs);
      assert Queries(t, n, ids, ok) == Queries(t, j, ids, ok) + [Query(t + j, ids, ok)];
      ExecOne(s, Queries(t, j, ids, ok), Query(t + j, ids, ok));
      OneQuery(mid, t, j, ids, ok, msgs);
    }
  }

  lemma ReclaimedLength(entries: seq<Payload>, pending: map<nat, Pend>, ids: seq<nat>, ok: bool)
    requires forall id :: id in ids ==> id < |entries|
    ensures |Reclaimed(entries, pending, ids, ok)| == |ids|
  {
  }

  lemma OneQuery(mid: State, t: nat, j: nat, ids: seq<nat>, ok: bool, msgs: seq<Message>)
    requires j < |ids| == |msgs| && (forall id :: id in ids ==> id < |mid.q.entries|)
    requires msgs == Reclaimed(mid.q.entries, mid.q.pending, ids, ok)
    requires forall k :: 0 <= k < j ==> Awaits(mid, t + k, msgs[k])
    requires forall k :: j <= k < |ids| ==> IsClaimed(mid, t + k, ids[k])
    ensures var s' := Apply(mid, Query(t + j, ids, ok));
            && s'.q == mid.q && s'.db == mid.db && s'.subs == mid.subs && s'.refuses == mid.refuses
            && (forall k :: 0 <= k <= j ==> Awaits(s', t + k, msgs[k]))
            && (forall k :: j < k < |ids| ==> IsClaimed(s', t + k, ids[k]))
  {
    hide Apply, Awaits, IsClaimed, Report;
    assert ids[j] in ids;
    QueryTells(mid, t + j, ids, ok, ids[j]);
    var s' := Apply(mid, Query(t + j, ids, ok));
    forall k | 0 <= k < j
      ensures Awaits(s', t + k, msgs[k])
    {
      assert Awaits(mid, t + k, msgs[k]);
      QueryOther(mid, t + j, ids, ok, t + k);
    }
    forall k | j < k < |ids|
      ensures IsClaimed(s', t + k, ids[k])
    {
      assert IsClaimed(mid, t + k, ids[k]);
      QueryOther(mid, t + j, ids, ok, t + k);
    }
  }

  lemma QueryOther(s: State, t: nat, ids: seq<nat>, ok: bool, u: nat)
    requires u != t
    ensures forall msg :: Awaits(s, u, msg) ==> Awaits(Apply(s, Query(t, ids, ok)), u, msg)
    ensures forall id :: IsClaimed(s, u, id) ==> IsClaimed(Apply(s, Query(t, ids, ok)), u, id)
  {
  }

  lemma QueryTells(s: State, t: nat, ids: seq<nat>, ok: bool, id: nat)
    requires IsClaimed(s, t, id)
    ensures var s' := Apply(s, Query(t, ids, ok));
            && s'.q == s.q && s'.db == s.db && s'.subs == s.subs && s'.refuses == s.refuses
            && Awaits(s', t, Message(id, s.q.entries[id], if ok then Report(s.q.pending, ids, id) else 0))
  {
  }

  // ----- the code

  class WorkerLoop {
    const consumer: StreamConsumer
    const pool: Postgres

    constructor (consumer: StreamConsumer, pool: Postgres)
      ensures this.consumer == consumer && this.pool == pool
    {
      this.consumer := consumer;
      this.pool := pool;
    }

    /** The stream and the tables are those of machine state s. */
    ghost predicate Mirrors(s: State)
      reads consumer.rdb, pool
    {
      consumer.rdb.group == s.q && pool.db == s.db && pool.subs == s.subs && pool.refuses == s.refuses
    }

    /** Decode, store, enqueue, count, mark active, acknowledge; a failed store stops before the acknowledgement. */
    method HandleMessage(msg: Message, f: Fates)
      requires msg.count < MAX_RETRIES
      modifies pool, consumer.rdb
      ensures var e := Effective(pool.refuses, msg.payload, f);
              && pool.db == HandledTables(old(pool.db), pool.subs, msg.payload, msg.count, e)
              && consumer.rdb.group == HandledGroup(old(consumer.rdb.group), msg.id, msg.payload, msg.count, e)
    {
      if msg.payload.Bad? {
        DeadLetterMessage(msg, DecodeFailed, f);
        return;
      }
      var e := msg.payload.event;
      var err := pool.Store(e, f.store);
      if err {
        return;
      }
      var _ := pool.EnqueueDeliveries(e, f.enqueue);
      var _ := pool.UpsertDailyCount(e, f.count);
      var _ := pool.UpsertDailyActiveUser(e, f.dau);
      var _ := consumer.Ack(msg.id, f.ack);
    }

    method DeadLetterMessage(msg: Message, reason: Reason, f: Fates)
      modifies pool, consumer.rdb
      ensures var dead := Effective(pool.refuses, msg.payload, f).dead;
              && pool.db == (if dead.Applied()
                             then old(pool.db).(dead := old(pool.db.dead) +
                                    [DeadLetter(HeaderProject(msg.payload), msg.payload, reason, msg.count)])
                             else old(pool.db))
              && consumer.rdb.group == if dead == Done && f.ack.Applied()
                                       then Acknowledge(old(consumer.rdb.group), msg.id) else old(consumer.rdb.group)
    {
      var row := DeadLetter(HeaderProject(msg.payload), msg.payload, reason, msg.count);
      var err := pool.InsertDeadLetter(row, f.dead);
      if !err {
        var _ := consumer.Ack(msg.id, f.ack);
      }
    }

    /** The loop bodies of runLoop and reclaimAndProcess over a batch waiting as flights t, t+1, ... */
    method HandleAll(msgs: seq<Message>, fs: seq<Fates>, ghost s: State, ghost t: nat)
      requires Mirrors(s) && |fs| == |msgs| && AllAwait(s, t, msgs)
      modifies pool, consumer.rdb
      ensures Mirrors(Exec(s, Scripts(s.refuses, t, msgs, fs)))
    {
      var i := 0;
      ghost var cur := s;
      assert Scripts(s.refuses, t, msgs[..0], fs[..0]) == [];
      assert cur == Exec(s, Scripts(s.refuses, t, msgs[..0], fs[..0]));
      hide Awaits, Exec, Apply, Script, Scripts, HandledTables, HandledGroup;
      while i < |msgs|
        invariant i <= |msgs|
        invariant cur == Exec(s, Scripts(s.refuses, t, msgs[..i], fs[..i]))
        invariant Mirrors(cur)
      {
        StillWaiting(s, t, msgs, fs, i);
        ghost var e := Effective(s.refuses, msgs[i].payload, fs[i]);
        ScriptRuns(cur, t + i, msgs[i], e);
        if msgs[i].count >= MAX_RETRIES {
          assert IsDead(msgs[i].payload, msgs[i].count);
          DeadLetterMessage(msgs[i], MaxRetries, fs[i]);
          DeadHandling(cur, msgs[i], e);
        } else {
          HandleMessage(msgs[i], fs[i]);
        }
        NextScript(s, t, msgs, fs, i);
        cur := Exec(cur, ScriptAt(s.refuses, t, msgs, fs, i));
        i := i + 1;
      }
      assert msgs[..i] == msgs && fs[..i] == fs;
    }

    /** One round of runLoop: read up to ten messages and handle them in turn. */
    method ReadAndHandle(now: int, o: Outcome, fs: seq<Fates>, ghost s: State)
      requires Mirrors(s) && s.q.next <= |s.q.entries| && |fs| == BATCH
      modifies pool, consumer.rdb
      ensures Mirrors(Exec(s, ReadSchedule(s.refuses, s.q, now, o, fs)))
    {
      hide Apply, Scripts, AllAwait, DeliverMany;
      ghost var n := Min(|s.q.entries| - s.q.next, BATCH);
      ghost var read := if o.Applied() then Takes(n, now, o == Done) else [];
      NoMessages(s.refuses, Exec(s, read), |s.q.log|);
      var msgs, err := consumer.Read(now, o);
      TakesDeliver(s, n, now, o == Done);
      ghost var mid := Exec(s, read);
      assert msgs == if o == Done then Undelivered(s.q, n) else [];
      hide Exec;
      HandleAll(msgs, fs[..|msgs|], mid, |s.q.log|);
      ExecConcat(s, read, Scripts(s.refuses, |s.q.log|, msgs, fs[..|msgs|]));
    }

    /** reclaimAndProcess: claim what Redis hands over, ask for its delivery counts, then dead-letter or handle. */
    method ReclaimAndProcess(chosen: seq<nat>, now: int, o: Outcome, counted: Outcome, fs: seq<Fates>, ghost s: State)
      requires Mirrors(s) && Claimable(s.q, chosen, now) && |fs| == |chosen| && GroupInv(s.q)
      modifies pool, consumer.rdb
      ensures Mirrors(Exec(s, ReclaimSchedule(s.refuses, s.q, chosen, now, o, !counted.Error(), fs)))
    {
      hide Apply, Awaits, IsClaimed, GroupInv, Report;
      var msgs, err := consumer.Reclaim(chosen, now, o, counted);
      ClaimsRedeliver(s, chosen, now, o == Done);
      if err {
        return;
      }
      ghost var t, ok := |s.q.log|, !counted.Error();
      ghost var claims, queries := Claims(chosen, now, true), Queries(t, |chosen|, chosen, ok);
      ghost var mid := Exec(s, claims);
      assert msgs == Reclaimed(s.q.entries, mid.q.pending, chosen, ok);
      QueriesTell(mid, t, |chosen|, chosen, ok, msgs);
      hide Exec, Reclaimed;
      HandleAll(msgs, fs, Exec(mid, queries), t);
      ExecConcat(s, claims, queries);
      ExecConcat(s, claims + queries, Scripts(s.refuses, t, msgs, fs));
    }
  }

  lemma NoMessages(refuses: Refusals, s: State, t: nat)
    ensures Scripts(refuses, t, [], []) == [] && AllAwait(s, t, [])
  {
  }

  /** XREADGROUP, then the handlings; a failed XREADGROUP leaves at most the deliveries behind. */
  function ReadSchedule(refuses: Refusals, q: Group, now: int, o: Outcome, fs: seq<Fates>): seq<Action>
    requires q.next <= |q.entries| && |fs| == BATCH
  {
    var n := Min(|q.entries| - q.next, BATCH);
    match o
    case NotDone => []
    case LostReply => Takes(n, now, false)
    case Done => Takes(n, now, true) + Scripts(refuses, |q.log|, Undelivered(q, n), fs[..n])
  }

  /** XAUTOCLAIM, XPENDING, then the handlings; a failed XAUTOCLAIM leaves at most the claims behind. */
  function ReclaimSchedule(refuses: Refusals, q: Group, chosen: seq<nat>, now: int, o: Outcome, ok: bool,
                           fs: seq<Fates>): seq<Action>
    requires |fs| == |chosen| && forall id :: id in chosen ==> id < |q.entries|
  {
    match o
    case NotDone => []
    case LostReply => Claims(chosen, now, false)
    case Done =>
      var msgs := Reclaimed(q.entries, RedeliverMany(q, chosen, now).pending, chosen, ok);
      Claims(chosen, now, true) + Queries(|q.log|, |chosen|, chosen, ok) + Scripts(refuses, |q.log|, msgs, fs)
  }

  function Min(a: nat, b: nat): nat {
    if a < b then a else b
  }
}
