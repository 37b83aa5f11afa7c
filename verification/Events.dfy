/** internal/events and the tables of migrations 1-3: what one SQL statement does to the stored rows. */
module Events {
  import opened Options

  const DAY_MS := 86400000

  datatype Event = Event(
    id: string, project: string, name: string, user: string, properties: Option<string>,
    key: string, timestamp: int, receivedAt: int)

  /** A row of `events`; empty user and key are stored as NULL. */
  datatype Row = Row(
    id: string, project: string, name: string, user: Option<string>, properties: Option<string>,
    key: Option<string>, timestamp: int, receivedAt: int)

  type Rows = map<string, Row>

  /** A stream payload: a marshalled event, or bytes that do not decode to one. `header` is the non-empty
      "project_id" member of such bytes, when they have one. */
  datatype Payload = Good(event: Event) | Bad(raw: string, header: Option<string>)

  datatype Reason = DecodeFailed | MaxRetries

  datatype DeadLetter = DeadLetter(project: Option<string>, payload: Payload, reason: Reason, attempts: nat)

  datatype CountKey = CountKey(project: string, name: string, day: int)
  datatype Active = Active(project: string, day: int, user: string)

  datatype Subscription = Subscription(id: string, project: string, filter: Option<string>, active: bool)

  /** What Postgres never accepts, whatever its state: an event for a row of `events`, a payload for a row of
      `dead_letter_events`. TEXT and JSONB refuse U+0000, for example, which no validation keeps out of an event. */
  datatype Refusals = Refusals(store: Event -> bool, dead: Payload -> bool)

  /** The database a run meets: its subscriptions and what it refuses. */
  datatype Server = Server(subs: set<Subscription>, refuses: Refusals)

  /** A refused statement has no effect and reports an error. */
  function FateOf(refused: bool, o: Outcome): Outcome {
    if refused then NotDone else o
  }

  predicate AnyRefused(refuses: Refusals, evts: seq<Event>) {
    exists i :: 0 <= i < |evts| && refuses.store(evts[i])
  }

  /** Neither table takes the payload. */
  predicate Hopeless(refuses: Refusals, p: Payload) {
    refuses.dead(p) && (p.Good? ==> refuses.store(p.event))
  }

  /** The columns of `webhook_deliveries` under its unique index. */
  datatype Pair = Pair(sub: string, event: string)

  datatype Tables = Tables(
    rows: Rows, counts: map<CountKey, nat>, dau: set<Active>, pairs: set<Pair>, dead: seq<DeadLetter>)

  const NO_ROWS := Tables(map[], map[], {}, {}, [])

  /** An event's class: its (project, key), or its ID when it has no key. */
  datatype Class = ByKey(project: string, key: string) | ById(id: string)

  function NullIf(s: string): Option<string> {
    if s == "" then None else Some(s)
  }

  function RowOf(e: Event): Row {
    Row(e.id, e.project, e.name, NullIf(e.user), e.properties, NullIf(e.key), e.timestamp, e.receivedAt)
  }

  function ClassOf(r: Row): Class {
    if r.key.Some? then ByKey(r.project, r.key.value) else ById(r.id)
  }

  function Day(timestamp: int): int {
    timestamp / DAY_MS
  }

  function CountKeyOf(e: Event): CountKey {
    CountKey(e.project, e.name, Day(e.timestamp))
  }

  predicate HasKey(rows: Rows, project: string, key: string) {
    exists i :: i in rows && rows[i].project == project && rows[i].key == Some(key)
  }

  /** A row with the event's ID or with its (project, key) exists. */
  predicate Conflicts(rows: Rows, e: Event) {
    e.id in rows || (e.key != "" && HasKey(rows, e.project, e.key))
  }

  predicate SameKey(a: Row, b: Row) {
    a.key.Some? && a.project == b.project && a.key == b.key
  }

  /** What the primary key and the partial unique index of migration 1 enforce. */
  ghost predicate Integrity(rows: Rows) {
    && (forall i :: i in rows ==> rows[i].id == i)
    && (forall i, j | i in rows && j in rows && SameKey(rows[i], rows[j]) :: i == j)
  }

  /** INSERT INTO events ... ON CONFLICT DO NOTHING. */
  function Insert(rows: Rows, e: Event): (r: Rows)
    ensures Conflicts(r, e)
    ensures forall i :: i in rows ==> i in r && r[i] == rows[i]
    ensures Integrity(rows) ==> Integrity(r)
  {
    if Conflicts(rows, e) then rows
    else
      assert e.key != "" ==> rows[e.id := RowOf(e)][e.id].key == Some(e.key);
      rows[e.id := RowOf(e)]
  }

  function InsertAll(rows: Rows, evts: seq<Event>): Rows
    decreases |evts|
  {
    if evts == [] then rows else Insert(InsertAll(rows, evts[..|evts| - 1]), evts[|evts| - 1])
  }

  /** INSERT ... ON CONFLICT DO UPDATE SET count = count + 1. */
  function Bump(counts: map<CountKey, nat>, k: CountKey): map<CountKey, nat> {
    counts[k := CountAt(counts, k) + 1]
  }

  function CountAt(counts: map<CountKey, nat>, k: CountKey): nat {
    if k in counts then counts[k] else 0
  }

  function ActiveOf(e: Event): set<Active> {
    if e.user == "" then {} else {Active(e.project, Day(e.timestamp), e.user)}
  }

  predicate Matches(s: Subscription, e: Event) {
    s.project == e.project && s.active && (s.filter.None? || s.filter == Some(e.name))
  }

  /** The pairs INSERT ... SELECT ... FROM webhook_subscriptions produces for one event. */
  function PairsOf(subs: set<Subscription>, e: Event): set<Pair> {
    set s | s in subs && Matches(s, e) :: Pair(s.id, e.id)
  }

  /** The project a dead letter is filed under. A published event is marshalled under the member name
      "ProjectID", which is not the "project_id" the dead-letter code looks for. */
  function HeaderProject(p: Payload): Option<string> {
    match p
    case Good(_) => None
    case Bad(_, header) => header
  }

  ghost predicate SubRows(rows: Rows, rows': Rows) {
    forall i :: i in rows ==> i in rows' && rows'[i] == rows[i]
  }

  // ----- what the columns hold

  /** Column by column, the row an event gets: empty user and key are NULL. */
  predicate Holds(r: Row, e: Event) {
    && r.id == e.id && r.project == e.project && r.name == e.name && r.properties == e.properties
    && (if e.user == "" then r.user == None else r.user == Some(e.user))
    && (if e.key == "" then r.key == None else r.key == Some(e.key))
    && r.timestamp == e.timestamp && r.receivedAt == e.receivedAt
  }

  /** The row leaves no room for one of the event: it has its ID, or its project and its nonempty key. */
  predicate StandsFor(r: Row, e: Event) {
    r.id == e.id || (e.key != "" && r.project == e.project && r.key == Some(e.key))
  }

  lemma ConflictsMean(rows: Rows, e: Event)
    requires Integrity(rows)
    ensures Conflicts(rows, e) <==> exists i :: i in rows && StandsFor(rows[i], e)
  {
    if e.id in rows {
      assert StandsFor(rows[e.id], e);
    }
    if e.key != "" && HasKey(rows, e.project, e.key) {
      var i :| i in rows && rows[i].project == e.project && rows[i].key == Some(e.key);
      assert StandsFor(rows[i], e);
    }
  }

  /** Without a conflict one row is added, which holds the event; with one nothing changes. */
  lemma InsertMeans(rows: Rows, e: Event)
    ensures var r := Insert(rows, e);
            if Conflicts(rows, e) then r == rows
            else r.Keys == rows.Keys + {e.id} && Holds(r[e.id], e)
  {
  }

  /** The UTC day, counted from 1970-01-01, on which a millisecond falls. */
  predicate FallsOn(timestamp: int, day: int) {
    day * 86_400_000 <= timestamp < (day + 1) * 86_400_000
  }

  /** The event is one of those a daily counter counts. */
  predicate Tallies(k: CountKey, e: Event) {
    k.project == e.project && k.name == e.name && FallsOn(e.timestamp, k.day)
  }

  /** The event makes its user active on a day. */
  predicate Marks(a: Active, e: Event) {
    e.user != "" && a.project == e.project && a.user == e.user && FallsOn(e.timestamp, a.day)
  }

  /** The event is to be delivered to an active subscription of its project without a filter or with its name. */
  predicate Delivers(p: Pair, s: Subscription, e: Event) {
    && p.sub == s.id && p.event == e.id
    && s.active && s.project == e.project && (s.filter.Some? ==> s.filter.value == e.name)
  }

  lemma DayMeans(timestamp: int, day: int)
    ensures Day(timestamp) == day <==> FallsOn(timestamp, day)
  {
  }

  lemma CountKeyMeans(k: CountKey, e: Event)
    ensures CountKeyOf(e) == k <==> Tallies(k, e)
  {
    DayMeans(e.timestamp, k.day);
  }

  lemma ActiveMeans(a: Active, e: Event)
    ensures a in ActiveOf(e) <==> Marks(a, e)
  {
    DayMeans(e.timestamp, a.day);
  }

  lemma PairsMean(subs: set<Subscription>, p: Pair, e: Event)
    ensures p in PairsOf(subs, e) <==> exists s :: s in subs && Delivers(p, s, e)
  {
    if s :| s in subs && Delivers(p, s, e) {
      assert Matches(s, e);
    }
    if p in PairsOf(subs, e) {
      var s :| s in subs && Matches(s, e) && Pair(s.id, e.id) == p;
      assert Delivers(p, s, e);
    }
  }

  /** An upsert raises one counter by one, from zero if there was none. */
  lemma BumpMeans(counts: map<CountKey, nat>, k: CountKey, x: CountKey)
    ensures CountAt(Bump(counts, k), x) == CountAt(counts, x) + if x == k then 1 else 0
  {
  }

  lemma ConflictsStable(rows: Rows, rows': Rows, e: Event)
    requires SubRows(rows, rows') && Conflicts(rows, e)
    ensures Conflicts(rows', e)
  {
  }

  lemma {:induction false} InsertAllKeeps(rows: Rows, evts: seq<Event>)
    ensures SubRows(rows, InsertAll(rows, evts))
    ensures Integrity(rows) ==> Integrity(InsertAll(rows, evts))
    decreases |evts|
  {
    if evts != [] {
      InsertAllKeeps(rows, evts[..|evts| - 1]);
    }
  }

  /** After a batch insert no event of the batch can be inserted again. */
  lemma {:induction false} InsertAllConflicts(rows: Rows, evts: seq<Event>, k: nat)
    requires k < |evts|
    ensures Conflicts(InsertAll(rows, evts), evts[k])
    decreases |evts|
  {
    var n := |evts| - 1;
    if k < n {
      InsertAllConflicts(rows, evts[..n], k);
      assert evts[..n][k] == evts[k];
      ConflictsStable(InsertAll(rows, evts[..n]), InsertAll(rows, evts), evts[k]);
    }
  }

  /** Every row a batch insert adds holds one of its events. */
  lemma {:induction false} InsertAllOrigin(rows: Rows, evts: seq<Event>, i: string)
    requires i in InsertAll(rows, evts) && i !in rows
    ensures exists k :: 0 <= k < |evts| && Holds(InsertAll(rows, evts)[i], evts[k])
    decreases |evts|
  {
    var n := |evts| - 1;
    var before := InsertAll(rows, evts[..n]);
    if i in before {
      InsertAllOrigin(rows, evts[..n], i);
      var k :| 0 <= k < n && Holds(before[i], evts[..n][k]);
      assert Holds(InsertAll(rows, evts)[i], evts[k]);
    } else {
      assert Holds(InsertAll(rows, evts)[i], evts[n]);
    }
  }

  /** Two events that cannot both have a row. */
  predicate Clash(a: Event, b: Event) {
    a.id == b.id || (a.key != "" && a.project == b.project && a.key == b.key)
  }

  lemma InsertClash(rows: Rows, e: Event, x: Event)
    ensures Conflicts(Insert(rows, e), x) && !Conflicts(rows, x) ==> Clash(e, x)
  {
    if x.key != "" && HasKey(Insert(rows, e), x.project, x.key) && !HasKey(rows, x.project, x.key) {
      var i :| i in Insert(rows, e) && Insert(rows, e)[i].project == x.project && Insert(rows, e)[i].key == Some(x.key);
      assert i == e.id;
    }
  }

  lemma {:induction false} InsertAllClash(rows: Rows, evts: seq<Event>, x: Event)
    requires Conflicts(InsertAll(rows, evts), x) && !Conflicts(rows, x)
    ensures exists j :: 0 <= j < |evts| && Clash(evts[j], x)
    decreases |evts|
  {
    hide Insert, Conflicts, Clash;
    if evts == [] {
    } else {
      var n := |evts| - 1;
      if Conflicts(InsertAll(rows, evts[..n]), x) {
        InsertAllClash(rows, evts[..n], x);
        var j :| 0 <= j < n && Clash(evts[..n][j], x);
        assert Clash(evts[j], x);
      } else {
        InsertClash(InsertAll(rows, evts[..n]), evts[n], x);
      }
    }
  }

  /** Event k of a batch conflicts neither with a row nor with an earlier event of the batch. */
  predicate IsFirst(rows: Rows, evts: seq<Event>, k: nat)
    requires k < |evts|
  {
    !Conflicts(rows, evts[k]) && forall j :: 0 <= j < k ==> !Clash(evts[j], evts[k])
  }

  /** Such an event gets its row. */
  lemma {:induction false} FirstOfBatchWins(rows: Rows, evts: seq<Event>, k: nat)
    requires k < |evts| && IsFirst(rows, evts, k)
    ensures evts[k].id in InsertAll(rows, evts) && Holds(InsertAll(rows, evts)[evts[k].id], evts[k])
    decreases |evts|
  {
    var n := |evts| - 1;
    var before := InsertAll(rows, evts[..n]);
    if k < n {
      assert evts[..n][k] == evts[k] && forall j :: 0 <= j < k ==> evts[..n][j] == evts[j];
      FirstOfBatchWins(rows, evts[..n], k);
    } else {
      if Conflicts(before, evts[n]) {
        InsertAllClash(rows, evts[..n], evts[n]);
        assert false;
      }
      InsertMeans(before, evts[n]);
    }
  }

  /** What a batch insert leaves of its events. */
  lemma BatchInserted(rows: Rows, evts: seq<Event>)
    ensures forall e :: e in evts ==> Conflicts(InsertAll(rows, evts), e)
    ensures forall k | 0 <= k < |evts| && IsFirst(rows, evts, k) ::
              evts[k].id in InsertAll(rows, evts) && Holds(InsertAll(rows, evts)[evts[k].id], evts[k])
  {
    hide Conflicts, Holds, InsertAll, IsFirst;
    forall e | e in evts
      ensures Conflicts(InsertAll(rows, evts), e)
    {
      var k :| 0 <= k < |evts| && evts[k] == e;
      InsertAllConflicts(rows, evts, k);
    }
    forall k | 0 <= k < |evts| && IsFirst(rows, evts, k)
      ensures evts[k].id in InsertAll(rows, evts) && Holds(InsertAll(rows, evts)[evts[k].id], evts[k])
    {
      FirstOfBatchWins(rows, evts, k);
    }
  }
}
