/** What every step of the pipeline keeps. */
module PipelineInvariant {
  import opened Events
  import opened Queue
  import opened Pipeline

  // ----- facts that only ever become true

  ghost predicate IsPublished(s: State, e: Event) {
    Good(e) in s.q.entries
  }

  /** Message m is an event that conflicts with a stored row: its ID or its (project, key) is in the table. */
  predicate Stored(s: State, m: nat) {
    m < |s.q.entries| && s.q.entries[m].Good? && Conflicts(s.db.rows, s.q.entries[m].event)
  }

  ghost predicate DeadLettered(s: State, m: nat) {
    m < |s.q.entries| && exists k :: 0 <= k < |s.db.dead| && s.db.dead[k].payload == s.q.entries[m]
  }

  ghost predicate Enqueued(s: State, m: nat) {
    m < |s.q.entries| && s.q.entries[m].Good? && PairsOf(s.subs, s.q.entries[m].event) <= s.db.pairs
  }

  ghost predicate MarkedActive(s: State, m: nat) {
    m < |s.q.entries| && s.q.entries[m].Good? && ActiveOf(s.q.entries[m].event) <= s.db.dau
  }

  ghost predicate Tallied(s: State, m: nat) {
    exists t :: t in s.counted && t < |s.q.log| && s.q.log[t] == m
  }

  /** A message past the first k side statements of handleMessage has their effects, unless one was missed. */
  ghost predicate SideEffects(s: State, m: nat, k: nat) {
    && (k >= 1 && m !in s.missed.enqueue ==> Enqueued(s, m))
    && (k >= 2 && m !in s.missed.count ==> Tallied(s, m))
    && (k >= 3 && m !in s.missed.dau ==> MarkedActive(s, m))
  }

  /** An event built from a tracked item. */
  predicate From(source: (string, Item), e: Event) {
    var (project, item) := source;
    && e.project == project && e.key == item.key && e.name == TrimSpace(item.name)
    && e.user == item.user && e.properties == item.properties
    && e.timestamp == if item.timestamp.Some? then item.timestamp.value else e.receivedAt
  }

  /** Everything that can only grow has grown. */
  ghost predicate Grows(s: State, s': State) {
    && s.q.entries <= s'.q.entries && s.q.log <= s'.q.log && s.q.next <= s'.q.next
    && SubRows(s.db.rows, s'.db.rows) && s.db.dead <= s'.db.dead
    && s.db.pairs <= s'.db.pairs && s.db.dau <= s'.db.dau
    && s.subs == s'.subs && s.refuses == s'.refuses
    && s.q.acked <= s'.q.acked && s.storeAcked <= s'.storeAcked
    && s.counted <= s'.counted && s.handled <= s'.handled
    && (forall i :: i in s.issued ==> i in s'.issued && s'.issued[i] == s.issued[i])
    && (forall k :: k in s.tracked ==> k in s'.tracked && s'.tracked[k] == s.tracked[k])
    && s.missed.enqueue <= s'.missed.enqueue && s.missed.count <= s'.missed.count
    && s.missed.dau <= s'.missed.dau && s.missed.told <= s'.missed.told
  }

  // ----- the invariant, part by part

  ghost predicate RowsInv(s: State) {
    && Integrity(s.db.rows)
    && forall i :: i in s.db.rows ==> HasOrigin(s, s.db.rows[i])
  }

  ghost predicate HasOrigin(s: State, r: Row) {
    exists m :: 0 <= m < |s.q.entries| && s.q.entries[m].Good? && Holds(r, s.q.entries[m].event)
  }

  ghost predicate IssuedInv(s: State) {
    && "" in s.usedKeys
    && (forall i :: i in s.issued ==>
          s.issued[i].id == i && s.issued[i].key in s.usedKeys
          && (s.issued[i].key in s.tracked ==> From(s.tracked[s.issued[i].key], s.issued[i])))
    && (forall k :: k in s.tracked ==> k != "" && k in s.usedKeys)
  }

  predicate IsIssued(s: State, e: Event) {
    e.id in s.issued && s.issued[e.id] == e
  }

  ghost predicate PublishedInv(s: State) {
    forall m :: 0 <= m < |s.q.entries| && s.q.entries[m].Good? ==> IsIssued(s, s.q.entries[m].event)
  }

  /** A request has published its first events, all of them before the direct write. */
  ghost predicate RequestOk(s: State, r: Request) {
    && (forall k :: 0 <= k < |r.events| ==> IsIssued(s, r.events[k]))
    && (r.phase.Publishing? ==> r.phase.pos <= |r.events|)
    && (r.phase.Publishing? && !r.phase.failed ==> forall k :: 0 <= k < r.phase.pos ==> IsPublished(s, r.events[k]))
    && (r.phase.Written? ==> forall k :: 0 <= k < |r.events| ==> IsPublished(s, r.events[k]))
    && (r.send.Some? ==>
          && r.send.value in s.sends && |s.sends[r.send.value].items| == |r.events|
          && forall k :: 0 <= k < |r.events| ==>
               From((s.sends[r.send.value].project, s.sends[r.send.value].items[k]), r.events[k]))
  }

  ghost predicate RequestsInv(s: State) {
    forall r :: r in s.requests ==> RequestOk(s, s.requests[r])
  }

  ghost predicate ItemPublished(s: State, source: (string, Item)) {
    exists m :: 0 <= m < |s.q.entries| && s.q.entries[m].Good? && From(source, s.q.entries[m].event)
  }

  /** Every item of a successful send is on the stream. */
  ghost predicate SendOk(s: State, d: Send) {
    forall k :: 0 <= k < |d.items| ==>
      && d.items[k].key in s.tracked && s.tracked[d.items[k].key] == (d.project, d.items[k])
      && (d.ok ==> ItemPublished(s, (d.project, d.items[k])))
  }

  ghost predicate SendsInv(s: State) {
    forall i :: i in s.sends ==> SendOk(s, s.sends[i])
  }

  predicate Uncounted(g: Stage) {
    g.Claimed? || g.Waiting? || g.AtStore? || g.AtEnqueue? || g.AtCount?
  }

  /** How many side statements of handleMessage a flight has passed. */
  function Passed(g: Stage): nat {
    match g
    case AtCount => 1
    case AtDau => 2
    case AtAck => 3
    case _ => 0
  }

  /** The position of delivery t among the deliveries of its message. */
  function Ordinal(log: seq<nat>, t: nat): nat
    requires t < |log|
  {
    Times(log[..t + 1], log[t])
  }

  ghost predicate FlightOk(s: State, t: nat, g: Stage) {
    && t < |s.q.log| && s.q.log[t] < |s.q.entries|
    && (Uncounted(g) ==> t !in s.counted)
    && (g.Waiting? && s.q.log[t] !in s.missed.told && g.count < MAX_RETRIES ==> Ordinal(s.q.log, t) <= 2)
    && (g.Waiting? ==> g.count <= Times(s.q.log, s.q.log[t]))
    && (g.AtStore? || g.AtEnqueue? || g.AtCount? || g.AtDau? || g.AtAck? ==> s.q.entries[s.q.log[t]].Good?)
    && (g.AtEnqueue? || g.AtCount? || g.AtDau? || g.AtAck? ==> Stored(s, s.q.log[t]))
    && SideEffects(s, s.q.log[t], Passed(g))
    && (g.AtDeadInsert? && g.reason.DecodeFailed? ==> s.q.entries[s.q.log[t]].Bad?)
    && (g.AtDeadInsert? && g.reason.MaxRetries? ==> Times(s.q.log, s.q.log[t]) >= MAX_RETRIES)
    && (g.AtDeadAck? ==> DeadLettered(s, s.q.log[t]))
  }

  ghost predicate FlightsInv(s: State) {
    forall t :: t in s.flights ==> FlightOk(s, t, s.flights[t])
  }

  ghost predicate AckInv(s: State) {
    && (forall m :: m in s.q.acked ==> Stored(s, m) || DeadLettered(s, m))
    && (forall m :: m in s.storeAcked ==> m in s.q.acked && Stored(s, m) && SideEffects(s, m, 3))
  }

  /** A dead-letter row holds a stream payload under its header's project, and blames the retry limit only for a
      message delivered that often. */
  ghost predicate DeadOk(s: State, d: DeadLetter) {
    && d.project == HeaderProject(d.payload)
    && exists m :: 0 <= m < |s.q.entries| && s.q.entries[m] == d.payload
                   && (d.reason.MaxRetries? ==> Times(s.q.log, m) >= MAX_RETRIES)
                   && (d.reason.DecodeFailed? ==> d.payload.Bad?)
  }

  ghost predicate DeadInv(s: State) {
    forall k :: 0 <= k < |s.db.dead| ==> DeadOk(s, s.db.dead[k])
  }

  predicate CountsFor(s: State, t: nat, k: CountKey) {
    t < |s.q.log| && s.q.log[t] < |s.q.entries| && s.q.entries[s.q.log[t]].Good?
    && Tallies(k, s.q.entries[s.q.log[t]].event)
  }

  function CountedFor(s: State, k: CountKey): set<nat> {
    set t | t in s.counted && CountsFor(s, t, k)
  }

  /** Each counter is the number of deliveries that bumped it. */
  ghost predicate CountInv(s: State) {
    && (forall t :: t in s.counted ==> t < |s.q.log| && s.q.log[t] < |s.q.entries|)
    && (forall k :: CountAt(s.db.counts, k) == |CountedFor(s, k)|)
  }

  ghost predicate PairHasOrigin(s: State, p: Pair) {
    exists m :: 0 <= m < |s.q.entries| && s.q.entries[m].Good? && p in PairsOf(s.subs, s.q.entries[m].event)
  }

  ghost predicate ActiveHasOrigin(s: State, a: Active) {
    exists m :: 0 <= m < |s.q.entries| && s.q.entries[m].Good? && a in ActiveOf(s.q.entries[m].event)
  }

  ghost predicate SideInv(s: State) {
    && (forall p :: p in s.db.pairs ==> PairHasOrigin(s, p))
    && (forall a :: a in s.db.dau ==> ActiveHasOrigin(s, a))
  }

  /** Only the first two deliveries of a message enter handleMessage while its counts are told right. */
  ghost predicate HandledInv(s: State) {
    forall t :: t in s.handled ==> t < |s.q.log| && (s.q.log[t] !in s.missed.told ==> Ordinal(s.q.log, t) <= 2)
  }

  ghost predicate Inv(s: State) {
    && GroupInv(s.q) && RowsInv(s) && IssuedInv(s) && PublishedInv(s) && RequestsInv(s) && SendsInv(s)
    && FlightsInv(s) && AckInv(s) && DeadInv(s) && CountInv(s) && SideInv(s) && HandledInv(s)
  }
}
