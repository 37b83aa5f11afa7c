/** What holds of every run of the pipeline: every choice of requests, workers, failures, lost replies, crashes and
    interleavings. */
module PipelineTheorems {
  import opened Options
  import opened Events
  import opened Queue
  import opened Sets
  import opened Pipeline
  import opened PipelineInvariant
  import opened PipelineWorkerSteps

  // ----- no loss

  /** Message m has a row with its ID or its (project, key), or a dead-letter row with its payload. */
  ghost predicate Accounted(s: State, m: nat)
    requires m < |s.q.entries|
  {
    || (s.q.entries[m].Good? && exists i :: i in s.db.rows && StandsFor(s.db.rows[i], s.q.entries[m].event))
    || exists k :: 0 <= k < |s.db.dead| && s.db.dead[k].payload == s.q.entries[m]
  }

  /** Each published message is exactly one of undelivered, pending and acknowledged; no acknowledged one is lost. */
  lemma NoLoss(pg: Server, acts: seq<Action>, m: nat)
    requires m < |Run(pg, acts).q.entries|
    ensures var s := Run(pg, acts);
            && (m >= s.q.next <==> m !in s.q.pending && m !in s.q.acked)
            && !(m in s.q.pending && m in s.q.acked)
            && (m in s.q.acked ==> Accounted(s, m))
  {
    RunInv(pg, acts);
    var s := Run(pg, acts);
    if m in s.q.acked && Stored(s, m) {
      ConflictsMean(s.db.rows, s.q.entries[m].event);
    }
  }

  /** Stored rows never change or disappear, and IDs and (project, key) pairs stay unique among them. */
  lemma RowsAreFinal(pg: Server, acts: seq<Action>, more: seq<Action>)
    ensures SubRows(Run(pg, acts).db.rows, Run(pg, acts + more).db.rows)
    ensures Integrity(Run(pg, acts + more).db.rows)
  {
    RunInv(pg, acts);
    RunInv(pg, acts + more);
    ExecConcat(Init(pg), acts, more);
    ExecKeeps(Run(pg, acts), more);
  }

  /** In every run each row holds, column by column, a published event with the row's ID. */
  lemma RowsHoldEvents(pg: Server, acts: seq<Action>, id: string)
    requires id in Run(pg, acts).db.rows
    ensures var s, r := Run(pg, acts), Run(pg, acts).db.rows[id];
            exists m :: 0 <= m < |s.q.entries| && s.q.entries[m].Good?
                        && var e := s.q.entries[m].event;
                           && id == r.id == e.id && r.project == e.project && r.name == e.name
                           && r.properties == e.properties
                           && r.user == (if e.user == "" then None else Some(e.user))
                           && r.key == (if e.key == "" then None else Some(e.key))
                           && r.timestamp == e.timestamp && r.receivedAt == e.receivedAt
  {
    RunInv(pg, acts);
    assert HasOrigin(Run(pg, acts), Run(pg, acts).db.rows[id]);
  }

  // ----- end to end

  function RowsOf(s: State, project: string, key: string): set<string> {
    set i | i in s.db.rows && s.db.rows[i].project == project && s.db.rows[i].key == Some(key)
  }

  /** Message m is an event of the project under the key. */
  predicate Carries(s: State, m: nat, project: string, key: string) {
    && m < |s.q.entries| && s.q.entries[m].Good?
    && s.q.entries[m].event.project == project && s.q.entries[m].event.key == key
  }

  ghost predicate AnyStoreAcked(s: State, project: string, key: string) {
    exists m :: m in s.storeAcked && Carries(s, m, project, key)
  }

  ghost predicate OnStream(s: State, project: string, key: string) {
    exists m: nat :: Carries(s, m, project, key)
  }

  /** An item's own time, or else the time it was received. */
  function TimeOf(item: Item, receivedAt: int): int {
    if item.timestamp.Some? then item.timestamp.value else receivedAt
  }

  /** An SDK event has at most one row, which carries the event as it was tracked, and exactly one as soon as any
      message of it was acknowledged on the store path; a send that reported success has put it on the stream. */
  lemma EndToEnd(pg: Server, acts: seq<Action>, sid: nat, k: nat)
    requires sid in Run(pg, acts).sends && k < |Run(pg, acts).sends[sid].items|
    ensures var s := Run(pg, acts);
            var d := s.sends[sid];
            var stored := RowsOf(s, d.project, d.items[k].key);
            && |stored| <= 1
            && (forall i :: i in stored ==>
                  s.db.rows[i].name == TrimSpace(d.items[k].name) && s.db.rows[i].user == NullIf(d.items[k].user)
                  && Trimmed(s.db.rows[i].name, d.items[k].name) && s.db.rows[i].properties == d.items[k].properties
                  && s.db.rows[i].timestamp == TimeOf(d.items[k], s.db.rows[i].receivedAt))
            && (AnyStoreAcked(s, d.project, d.items[k].key) ==> |stored| == 1)
            && (d.ok ==> OnStream(s, d.project, d.items[k].key))
  {
    RunInv(pg, acts);
    var s := Run(pg, acts);
    var d := s.sends[sid];
    var item := d.items[k];
    KnownItem(s, sid, k);
    hide Run, Inv, RowsOf, AnyStoreAcked, OnStream, TrimSpace, Trimmed;
    TrimSpaceMeans(item.name);
    OneRow(s, d.project, item.key);
    forall i | i in RowsOf(s, d.project, item.key)
      ensures s.db.rows[i].name == TrimSpace(item.name) && s.db.rows[i].user == NullIf(item.user)
      ensures s.db.rows[i].properties == item.properties
      ensures s.db.rows[i].timestamp == TimeOf(item, s.db.rows[i].receivedAt)
    {
      StoredFrom(s, i, (d.project, item));
    }
  }

  /** An item of a send is tracked, and on the stream if the send reported success. */
  lemma KnownItem(s: State, sid: nat, k: nat)
    requires Inv(s) && sid in s.sends && k < |s.sends[sid].items|
    ensures var d := s.sends[sid];
            var source := (d.project, d.items[k]);
            && source.1.key != "" && source.1.key in s.tracked && s.tracked[source.1.key] == source
            && (d.ok ==> OnStream(s, d.project, source.1.key))
  {
    var d := s.sends[sid];
    assert SendOk(s, d);
    if d.ok {
      assert ItemPublished(s, (d.project, d.items[k]));
      var m :| 0 <= m < |s.q.entries| && s.q.entries[m].Good? && From((d.project, d.items[k]), s.q.entries[m].event);
      assert Carries(s, m, d.project, d.items[k].key);
    }
  }

  /** A (project, key) pair has at most one row, and one if a message of it was acknowledged on the store path. */
  lemma OneRow(s: State, project: string, key: string)
    requires Inv(s) && key != ""
    ensures |RowsOf(s, project, key)| <= 1
    ensures AnyStoreAcked(s, project, key) ==> |RowsOf(s, project, key)| == 1
  {
    var stored := RowsOf(s, project, key);
    forall i, j | i in stored && j in stored
      ensures i == j
    {
      assert SameKey(s.db.rows[i], s.db.rows[j]);
    }
    AtMostOne(stored);
    hide Inv;
    if AnyStoreAcked(s, project, key) {
      var m :| m in s.storeAcked && Carries(s, m, project, key);
      AckedIsStored(s, m);
      var i := StoredAs(s, m);
      assert i in stored;
    }
  }

  lemma AckedIsStored(s: State, m: nat)
    requires Inv(s) && m in s.storeAcked
    ensures Stored(s, m)
  {
  }

  /** A row under a tracked key is the row of an event built from the tracked item. */
  lemma StoredFrom(s: State, i: string, source: (string, Item))
    requires Inv(s) && source.1.key in s.tracked && s.tracked[source.1.key] == source
    requires i in RowsOf(s, source.0, source.1.key)
    ensures s.db.rows[i].name == TrimSpace(source.1.name) && s.db.rows[i].user == NullIf(source.1.user)
    ensures s.db.rows[i].properties == source.1.properties
    ensures s.db.rows[i].timestamp == TimeOf(source.1, s.db.rows[i].receivedAt)
  {
    assert HasOrigin(s, s.db.rows[i]);
    var m :| 0 <= m < |s.q.entries| && s.q.entries[m].Good? && Holds(s.db.rows[i], s.q.entries[m].event);
    var e := s.q.entries[m].event;
    assert IsIssued(s, e) && e.key == source.1.key;
  }

  lemma AtMostOne<T>(a: set<T>)
    requires forall x, y :: x in a && y in a ==> x == y
    ensures |a| <= 1
  {
    if x :| x in a {
      assert a == {x};
    }
  }

  /** The row that stands for a stored message: it has the message's class. */
  lemma StoredAs(s: State, m: nat) returns (i: string)
    requires Inv(s) && Stored(s, m)
    ensures i in s.db.rows && ClassOf(s.db.rows[i]) == ClassOf(RowOf(s.q.entries[m].event))
    ensures s.q.entries[m].event.key != "" ==>
              s.db.rows[i].project == s.q.entries[m].event.project && s.db.rows[i].key == Some(s.q.entries[m].event.key)
  {
    var e := s.q.entries[m].event;
    if e.key != "" && HasKey(s.db.rows, e.project, e.key) {
      i :| i in s.db.rows && s.db.rows[i].project == e.project && s.db.rows[i].key == Some(e.key);
    } else {
      i := e.id;
      assert HasOrigin(s, s.db.rows[i]);
      var n :| 0 <= n < |s.q.entries| && s.q.entries[n].Good? && Holds(s.db.rows[i], s.q.entries[n].event);
      assert IsIssued(s, e) && IsIssued(s, s.q.entries[n].event);
    }
  }

  // ----- confluence

  function Published(s: State): set<Event> {
    set m | 0 <= m < |s.q.entries| && s.q.entries[m].Good? :: s.q.entries[m].event
  }

  function PublishedClasses(s: State): set<Class> {
    set e | e in Published(s) :: ClassOf(RowOf(e))
  }

  function StoredClasses(s: State): set<Class> {
    set i | i in s.db.rows :: ClassOf(s.db.rows[i])
  }

  /** Every published event was acknowledged on the store path. */
  ghost predicate Drained(s: State) {
    forall m :: 0 <= m < |s.q.entries| && s.q.entries[m].Good? ==> m in s.storeAcked
  }

  /** Only published classes are ever stored, and a drained stream has stored all of them, whatever direct writes
      succeeded. */
  lemma StoredClassesArePublished(pg: Server, acts: seq<Action>)
    ensures StoredClasses(Run(pg, acts)) <= PublishedClasses(Run(pg, acts))
    ensures Drained(Run(pg, acts)) ==> StoredClasses(Run(pg, acts)) == PublishedClasses(Run(pg, acts))
  {
    RunInv(pg, acts);
    var s := Run(pg, acts);
    forall c | c in StoredClasses(s)
      ensures c in PublishedClasses(s)
    {
      StoredIsPublished(s, c);
    }
    if Drained(s) {
      hide Inv, Holds;
      forall c | c in PublishedClasses(s)
        ensures c in StoredClasses(s)
      {
        var e :| e in Published(s) && ClassOf(RowOf(e)) == c;
        var m :| 0 <= m < |s.q.entries| && s.q.entries[m].Good? && s.q.entries[m].event == e;
        var i := StoredAs(s, m);
      }
    }
  }

  lemma StoredIsPublished(s: State, c: Class)
    requires Inv(s) && c in StoredClasses(s)
    ensures c in PublishedClasses(s)
  {
    var i :| i in s.db.rows && ClassOf(s.db.rows[i]) == c;
    assert HasOrigin(s, s.db.rows[i]);
    hide Inv;
    var m :| 0 <= m < |s.q.entries| && s.q.entries[m].Good? && Holds(s.db.rows[i], s.q.entries[m].event);
    assert s.q.entries[m].event in Published(s);
  }

  /** Some published event is to be delivered as p. */
  ghost predicate IsWanted(s: State, p: Pair) {
    exists e, sub :: e in Published(s) && sub in s.subs && Delivers(p, sub, e)
  }

  /** Some published event makes its user active as a says. */
  ghost predicate IsMarked(s: State, a: Active) {
    exists e :: e in Published(s) && Marks(a, e)
  }

  /** The webhook pairs and the active user of message m are in their tables, as far as its statements took effect. */
  ghost predicate Settled(s: State, m: nat) {
    && m < |s.q.entries| && s.q.entries[m].Good?
    && (m !in s.missed.enqueue ==>
          forall p, sub :: sub in s.subs && Delivers(p, sub, s.q.entries[m].event) ==> p in s.db.pairs)
    && (m !in s.missed.dau ==> forall a :: Marks(a, s.q.entries[m].event) ==> a in s.db.dau)
  }

  /** The side tables hold only what published events call for; a message acknowledged on the store path has put its
      share there unless one of its own statements was missed, so a drained stream with none missed has put all. */
  lemma SideTablesWanted(pg: Server, acts: seq<Action>)
    ensures var s := Run(pg, acts);
            && s.subs == pg.subs
            && (forall p :: p in s.db.pairs ==> IsWanted(s, p)) && (forall a :: a in s.db.dau ==> IsMarked(s, a))
            && (forall m :: m in s.storeAcked ==> Settled(s, m))
            && (Drained(s) && s.missed.enqueue == {} ==> forall p :: IsWanted(s, p) ==> p in s.db.pairs)
            && (Drained(s) && s.missed.dau == {} ==> forall a :: IsMarked(s, a) ==> a in s.db.dau)
  {
    RunInv(pg, acts);
    ExecKeeps(Init(pg), acts);
    var s := Run(pg, acts);
    assert SideInv(s) && AckInv(s);
    hide Run, Inv, Delivers, Marks;
    forall m | m in s.storeAcked
      ensures Settled(s, m)
    {
      assert SideEffects(s, m, 3);
      SideEffectsSettle(s, m);
    }
    forall p | p in s.db.pairs
      ensures IsWanted(s, p)
    {
      assert PairHasOrigin(s, p);
      var m :| 0 <= m < |s.q.entries| && s.q.entries[m].Good? && p in PairsOf(s.subs, s.q.entries[m].event);
      PairsMean(s.subs, p, s.q.entries[m].event);
      assert s.q.entries[m].event in Published(s);
    }
    forall a | a in s.db.dau
      ensures IsMarked(s, a)
    {
      assert ActiveHasOrigin(s, a);
      var m :| 0 <= m < |s.q.entries| && s.q.entries[m].Good? && a in ActiveOf(s.q.entries[m].event);
      ActiveMeans(a, s.q.entries[m].event);
      assert s.q.entries[m].event in Published(s);
    }
    if Drained(s) {
      DrainedHasAll(s);
    }
  }

  lemma SideEffectsSettle(s: State, m: nat)
    requires m < |s.q.entries| && s.q.entries[m].Good? && SideEffects(s, m, 3)
    ensures Settled(s, m)
  {
    var e := s.q.entries[m].event;
    forall p, sub | m !in s.missed.enqueue && sub in s.subs && Delivers(p, sub, e)
      ensures p in s.db.pairs
    {
      PairsMean(s.subs, p, e);
    }
    forall a | m !in s.missed.dau && Marks(a, e)
      ensures a in s.db.dau
    {
      ActiveMeans(a, e);
    }
  }

  lemma DrainedHasAll(s: State)
    requires Drained(s) && forall m :: m in s.storeAcked ==> Settled(s, m)
    ensures s.missed.enqueue == {} ==> forall p :: IsWanted(s, p) ==> p in s.db.pairs
    ensures s.missed.dau == {} ==> forall a :: IsMarked(s, a) ==> a in s.db.dau
  {
    hide Delivers, Marks;
    forall p | s.missed.enqueue == {} && IsWanted(s, p)
      ensures p in s.db.pairs
    {
      var e, sub :| e in Published(s) && sub in s.subs && Delivers(p, sub, e);
      var m :| 0 <= m < |s.q.entries| && s.q.entries[m].Good? && s.q.entries[m].event == e;
      assert Settled(s, m);
    }
    forall a | s.missed.dau == {} && IsMarked(s, a)
      ensures a in s.db.dau
    {
      var e :| e in Published(s) && Marks(a, e);
      var m :| 0 <= m < |s.q.entries| && s.q.entries[m].Good? && s.q.entries[m].event == e;
      assert Settled(s, m);
    }
  }

  /** Two drained runs over the same subscriptions that published the same events agree on the stored classes, the
      webhook pairs and the daily active users, however their handlers and workers were scheduled. */
  lemma Confluence(pg: Server, acts: seq<Action>, acts': seq<Action>)
    requires Published(Run(pg, acts)) == Published(Run(pg, acts'))
    requires Drained(Run(pg, acts)) && Drained(Run(pg, acts'))
    ensures var s, s' := Run(pg, acts), Run(pg, acts');
            && StoredClasses(s) == StoredClasses(s')
            && (s.missed.enqueue == {} == s'.missed.enqueue ==> s.db.pairs == s'.db.pairs)
            && (s.missed.dau == {} == s'.missed.dau ==> s.db.dau == s'.db.dau)
  {
    StoredClassesArePublished(pg, acts);
    StoredClassesArePublished(pg, acts');
    SideTablesWanted(pg, acts);
    SideTablesWanted(pg, acts');
    var s, s' := Run(pg, acts), Run(pg, acts');
    hide Run, Drained, Published, Delivers, Marks;
    forall p
      ensures IsWanted(s, p) == IsWanted(s', p)
    {
    }
    forall a
      ensures IsMarked(s, a) == IsMarked(s', a)
    {
    }
  }

  // ----- counters

  function DeliveriesFor(s: State, k: CountKey): set<nat> {
    set t | 0 <= t < |s.q.log| && CountsFor(s, t, k)
  }

  function StoreAckedFor(s: State, k: CountKey): set<nat> {
    set m | m in s.storeAcked && m < |s.q.entries| && s.q.entries[m].Good? && Tallies(k, s.q.entries[m].event)
  }

  /** A daily counter lies between the matching messages acknowledged on the store path with no upsert missed, and the
      deliveries of matching messages. */
  lemma CounterSandwich(pg: Server, acts: seq<Action>, k: CountKey)
    ensures var s := Run(pg, acts);
            && CountAt(s.db.counts, k) <= |DeliveriesFor(s, k)|
            && |StoreAckedFor(s, k) - s.missed.count| <= CountAt(s.db.counts, k)
  {
    RunInv(pg, acts);
    var s := Run(pg, acts);
    SubsetSize(CountedFor(s, k), DeliveriesFor(s, k));
    forall m | m in StoreAckedFor(s, k) - s.missed.count
      ensures exists t :: t in CountedFor(s, k) && t < |s.q.log| && s.q.log[t] == m
    {
      assert SideEffects(s, m, 3);
      var t :| t in s.counted && t < |s.q.log| && s.q.log[t] == m;
      assert t in CountedFor(s, k);
    }
    ImageSize(s.q.log, CountedFor(s, k), StoreAckedFor(s, k) - s.missed.count);
  }

  /** A set of messages that all occur among some deliveries is no larger than they are. */
  lemma {:induction false} ImageSize(log: seq<nat>, ts: set<nat>, ms: set<nat>)
    requires forall m :: m in ms ==> exists t :: t in ts && t < |log| && log[t] == m
    ensures |ms| <= |ts|
  {
    if m :| m in ms {
      var t :| t in ts && t < |log| && log[t] == m;
      forall m' | m' in ms - {m}
        ensures exists t' :: t' in ts - {t} && t' < |log| && log[t'] == m'
      {
        var t' :| t' in ts && t' < |log| && log[t'] == m';
        assert t' in ts - {t};
      }
      ImageSize(log, ts - {t}, ms - {m});
    }
  }

  // ----- delivery counts

  /** No worker is ever told a larger count than the true number of deliveries, so the retry-limit branch is taken,
      and its dead-letter row written, only for messages delivered at least three times. */
  lemma DeadLettersAreDue(pg: Server, acts: seq<Action>)
    ensures var s := Run(pg, acts);
            && (forall t :: t in s.flights && s.flights[t].Waiting? ==>
                  t < |s.q.log| && s.flights[t].count <= Times(s.q.log, s.q.log[t]))
            && (forall t :: t in s.flights && s.flights[t].AtDeadInsert? && s.flights[t].reason.MaxRetries? ==>
                  t < |s.q.log| && Times(s.q.log, s.q.log[t]) >= 3)
            && (forall k :: 0 <= k < |s.db.dead| ==> DeadOk(s, s.db.dead[k]))
  {
    RunInv(pg, acts);
    var s := Run(pg, acts);
    forall t | t in s.flights
      ensures FlightOk(s, t, s.flights[t])
    {
    }
  }

  /** A dead letter names the project_id of a payload that does not decode to an event, if it has one, and no project
      otherwise; so the dead letter of a published event never names one. */
  lemma DeadLetterProjects(pg: Server, acts: seq<Action>, k: nat)
    requires k < |Run(pg, acts).db.dead|
    ensures var d := Run(pg, acts).db.dead[k]; d.project == if d.payload.Bad? then d.payload.header else None
  {
    RunInv(pg, acts);
    assert DeadOk(Run(pg, acts), Run(pg, acts).db.dead[k]);
  }

  lemma OrdinalPositive(log: seq<nat>, t: nat)
    requires t < |log|
    ensures Ordinal(log, t) == Times(log[..t], log[t]) + 1
  {
    assert log[..t + 1][..t] == log[..t];
  }

  lemma OrdinalIncreases(log: seq<nat>, t: nat, u: nat)
    requires t < u < |log| && log[t] == log[u]
    ensures Ordinal(log, t) < Ordinal(log, u)
  {
    OrdinalPositive(log, u);
    TimesMonotone(log[..u], t + 1, log[t]);
    assert log[..u][..t + 1] == log[..t + 1];
  }

  function HandledOf(s: State, m: nat): set<nat> {
    set t | t in s.handled && t < |s.q.log| && s.q.log[t] == m
  }

  /** A message whose own delivery counts were told right enters handleMessage at most twice. */
  lemma HandledAtMostTwice(pg: Server, acts: seq<Action>, m: nat)
    ensures m !in Run(pg, acts).missed.told ==> |HandledOf(Run(pg, acts), m)| <= 2
  {
    RunInv(pg, acts);
    var s := Run(pg, acts);
    if m !in s.missed.told {
      var ts := HandledOf(s, m);
      forall t | t in ts
        ensures 1 <= Ordinal(s.q.log, t) <= 2
      {
        OrdinalPositive(s.q.log, t);
      }
      forall t, u | t in ts && u in ts && t < u
        ensures Ordinal(s.q.log, t) < Ordinal(s.q.log, u)
      {
        OrdinalIncreases(s.q.log, t, u);
      }
      TwoOrdinals(s.q.log, ts);
    }
  }

  /** Increasing ordinals of one or two leave room for two deliveries. */
  lemma TwoOrdinals(log: seq<nat>, ts: set<nat>)
    requires forall t :: t in ts ==> t < |log| && 1 <= Ordinal(log, t) <= 2
    requires forall t, u :: t in ts && u in ts && t < u ==> Ordinal(log, t) < Ordinal(log, u)
    ensures |ts| <= 2
  {
    var firsts := set t | t in ts && Ordinal(log, t) == 1;
    var seconds := set t | t in ts && Ordinal(log, t) == 2;
    assert ts == firsts + seconds;
    AtMostOne(firsts);
    AtMostOne(seconds);
  }
}
