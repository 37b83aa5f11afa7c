/** internal/events/store.go, EnqueueDeliveries of internal/webhooks/store.go and the dead-letter INSERT: the
    statements that write the tables. `o` is what becomes of the statement unless the server refuses it. */
module EventStore {
  import opened Options
  import opened Events

  class Postgres {
    var db: Tables
    const subs: set<Subscription>
    const refuses: Refusals

    constructor (pg: Server)
      ensures db == NO_ROWS && subs == pg.subs && refuses == pg.refuses
    {
      db := NO_ROWS;
      subs := pg.subs;
      refuses := pg.refuses;
    }

    method Store(e: Event, o: Outcome) returns (err: bool)
      modifies this
      ensures var f := FateOf(refuses.store(e), o);
              && err == f.Error()
              && db == if f.Applied() then old(db).(rows := Insert(old(db.rows), e)) else old(db)
      ensures !err ==> Conflicts(db.rows, e)
      ensures o.Applied() && !refuses.store(e) && !Conflicts(old(db.rows), e) ==>
                && e.id in db.rows
                && var r := db.rows[e.id];
                   && r.id == e.id && r.project == e.project && r.name == e.name && r.properties == e.properties
                   && r.user == (if e.user == "" then None else Some(e.user))
                   && r.key == (if e.key == "" then None else Some(e.key))
                   && r.timestamp == e.timestamp && r.receivedAt == e.receivedAt
    {
      InsertMeans(db.rows, e);
      var f := FateOf(refuses.store(e), o);
      if f.Applied() {
        db := db.(rows := Insert(db.rows, e));
      }
      err := f.Error();
    }

    /** One transaction: all the rows become visible, or none. `accepted` says which statements the server took. */
    method BatchStore(evts: seq<Event>, begun: bool, accepted: seq<bool>, commit: Outcome) returns (err: bool)
      requires |accepted| == |evts|
      modifies this
      ensures var taken := begun && false !in accepted && !AnyRefused(refuses, evts);
              && (err <==> !taken || commit.Error())
              && db == if taken && commit.Applied() then old(db).(rows := InsertAll(old(db.rows), evts)) else old(db)
      ensures !err ==> forall e :: e in evts ==> Conflicts(db.rows, e)
      ensures !err ==> forall k | 0 <= k < |evts| && IsFirst(old(db.rows), evts, k) ::
                         evts[k].id in db.rows && Holds(db.rows[evts[k].id], evts[k])
    {
      hide Insert, Conflicts, Holds, IsFirst;
      err := true;
      if !begun {
        return;
      }
      var rows := db.rows;
      var i := 0;
      while i < |evts|
        invariant i <= |evts|
        invariant false !in accepted[..i] && forall j :: 0 <= j < i ==> !refuses.store(evts[j])
        invariant rows == InsertAll(db.rows, evts[..i])
      {
        if !accepted[i] || refuses.store(evts[i]) {
          return;
        }
        assert evts[..i + 1][..i] == evts[..i];
        rows := Insert(rows, evts[i]);
        i := i + 1;
      }
      assert evts[..i] == evts && accepted[..i] == accepted;
      if commit.Applied() {
        db := db.(rows := rows);
      }
      err := commit.Error();
      BatchInserted(old(db.rows), evts);
    }

    method EnqueueDeliveries(e: Event, o: Outcome) returns (err: bool)
      modifies this
      ensures err == o.Error()
      ensures db == if o.Applied() then old(db).(pairs := old(db.pairs) + PairsOf(subs, e)) else old(db)
      ensures !err ==> PairsOf(subs, e) <= db.pairs
      ensures forall p :: p in db.pairs <==>
                p in old(db.pairs) || (o.Applied() && exists s :: s in subs && Delivers(p, s, e))
    {
      forall p
        ensures p in PairsOf(subs, e) <==> exists s :: s in subs && Delivers(p, s, e)
      {
        PairsMean(subs, p, e);
      }
      if o.Applied() {
        db := db.(pairs := db.pairs + PairsOf(subs, e));
      }
      err := o.Error();
    }

    method UpsertDailyCount(e: Event, o: Outcome) returns (err: bool)
      modifies this
      ensures err == o.Error()
      ensures db == if o.Applied() then old(db).(counts := Bump(old(db.counts), CountKeyOf(e))) else old(db)
      ensures forall k :: CountAt(db.counts, k) ==
                          CountAt(old(db.counts), k) + if o.Applied() && Tallies(k, e) then 1 else 0
    {
      forall k
        ensures CountAt(Bump(db.counts, CountKeyOf(e)), k) == CountAt(db.counts, k) + if Tallies(k, e) then 1 else 0
      {
        BumpMeans(db.counts, CountKeyOf(e), k);
        CountKeyMeans(k, e);
      }
      if o.Applied() {
        db := db.(counts := Bump(db.counts, CountKeyOf(e)));
      }
      err := o.Error();
    }

    /** Anonymous events send no statement at all. */
    method UpsertDailyActiveUser(e: Event, o: Outcome) returns (err: bool)
      modifies this
      ensures err == (e.user != "" && o.Error())
      ensures db == if o.Applied() then old(db).(dau := old(db.dau) + ActiveOf(e)) else old(db)
      ensures !err ==> ActiveOf(e) <= db.dau
      ensures forall a :: a in db.dau <==> a in old(db.dau) || (o.Applied() && Marks(a, e))
    {
      forall a
        ensures a in ActiveOf(e) <==> Marks(a, e)
      {
        ActiveMeans(a, e);
      }
      err := false;
      if e.user == "" {
        return;
      }
      if o.Applied() {
        db := db.(dau := db.dau + {Active(e.project, Day(e.timestamp), e.user)});
      }
      err := o.Error();
    }

    method InsertDeadLetter(row: DeadLetter, o: Outcome) returns (err: bool)
      modifies this
      ensures var f := FateOf(refuses.dead(row.payload), o);
              && err == f.Error()
              && db == if f.Applied() then old(db).(dead := old(db.dead) + [row]) else old(db)
      ensures !err ==> row in db.dead
    {
      var f := FateOf(refuses.dead(row.payload), o);
      if f.Applied() {
        db := db.(dead := db.dead + [row]);
      }
      err := f.Error();
    }
  }
}
