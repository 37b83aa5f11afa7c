/** The path of an event from the SDK to the tables, as a state machine whose steps are single requests to Redis
    or Postgres. Each stream delivery is a process of its own (a flight) with its own program counter, so a run
    may interleave any number of workers in any way and lose any flight at any point. */
module Pipeline {
  import opened Options
  import opened Events
  import opened Queue

  /** Where a delivered message stands in reclaimAndProcess, handleMessage and deadLetter. `count` is the delivery
      count the worker was told. */
  datatype Stage =
    | Claimed
    | Waiting(count: nat)
    | AtStore | AtEnqueue | AtCount | AtDau | AtAck
    | AtDeadInsert(reason: Reason, told: nat) | AtDeadAck

  /** One element of an ingest request. */
  datatype Item = Item(name: string, user: string, properties: Option<string>, key: string, timestamp: Option<int>)

  datatype Phase = Publishing(pos: nat, failed: bool) | Written

  /** A request inside the ingest handler; `send` is the SDK send it belongs to. */
  datatype Request = Request(events: seq<Event>, phase: Phase, send: Option<nat>)

  /** A batch inside the SDK: POSTed any number of times, `ok` once a 202 came back. */
  datatype Send = Send(project: string, items: seq<Item>, ok: bool)

  /** The messages one of whose enqueue, counter or active-user statements had no effect, and those some reclaim was
      told another count of than the true number of deliveries. */
  datatype Misses = Misses(enqueue: set<nat>, count: set<nat>, dau: set<nat>, told: set<nat>)

  /** `issued` maps an event ID to the event built under it; `tracked` an SDK key to its send's project and item;
      `counted` and `handled` hold the deliveries that bumped a counter and that entered handleMessage;
      `storeAcked` the messages acknowledged at the end of handleMessage. */
  datatype State = State(
    db: Tables, q: Group, subs: set<Subscription>, refuses: Refusals,
    flights: map<nat, Stage>, requests: map<nat, Request>, sends: map<nat, Send>,
    issued: map<string, Event>, tracked: map<string, (string, Item)>, usedKeys: set<string>,
    counted: set<nat>, handled: set<nat>, storeAcked: set<nat>, missed: Misses)

  function Init(pg: Server): State {
    State(NO_ROWS, NO_ENTRIES, pg.subs, pg.refuses, map[], map[], map[], map[], map[], {""}, {}, {}, {},
          Misses({}, {}, {}, {}))
  }

  datatype Action =
    | Track(sid: nat, project: string, items: seq<Item>)
    | Post(r: nat, sid: nat, ids: seq<string>, now: int)
    | Accept(r: nat, project: string, items: seq<Item>, ids: seq<string>, now: int)
    | Inject(raw: string, header: Option<string>)
    | XAdd(r: nat, o: Outcome)
    | DirectWrite(r: nat, o: Outcome)
    | Reply(r: nat, arrives: bool)
    | Drop(r: nat)
    | Take(now: int, got: bool)
    | Claim(m: nat, now: int, got: bool)
    | Query(t: nat, batch: seq<nat>, ok: bool)
    | Begin(t: nat)
    | Do(t: nat, o: Outcome)
    | Crash(t: nat)

  // ----- the ingest handler

  predicate IsSpace(c: char) {
    || '\t' <= c <= '\r' || c == ' ' || c == '\U{85}' || c == '\U{A0}' || c == '\U{1680}'
    || '\U{2000}' <= c <= '\U{200A}' || c == '\U{2028}' || c == '\U{2029}' || c == '\U{202F}' || c == '\U{205F}'
    || c == '\U{3000}'
  }

  function TrimSpace(s: string): string
    decreases |s|
  {
    if s != "" && IsSpace(s[0]) then TrimSpace(s[1..])
    else if s != "" && IsSpace(s[|s| - 1]) then TrimSpace(s[..|s| - 1])
    else s
  }

  function BuildEvent(item: Item, project: string, id: string, now: int): Event {
    Event(id, project, TrimSpace(item.name), item.user, item.properties, item.key,
          if item.timestamp.Some? then item.timestamp.value else now, now)
  }

  function BuildAll(items: seq<Item>, project: string, ids: seq<string>, now: int): (evts: seq<Event>)
    requires |ids| == |items|
  {
    seq(|items|, i requires 0 <= i < |items| => BuildEvent(items[i], project, ids[i], now))
  }

  /** t is s without the white space around it: all that is cut off is white space, and t neither starts nor ends with
      any. */
  ghost predicate Trimmed(t: string, s: string) {
    && (t != "" ==> !IsSpace(t[0]) && !IsSpace(t[|t| - 1]))
    && exists i, j :: CutAt(t, s, i, j)
  }

  ghost predicate CutAt(t: string, s: string, i: int, j: int) {
    && 0 <= i <= j <= |s| && t == s[i..j]
    && (forall k :: 0 <= k < i || j <= k < |s| ==> IsSpace(s[k]))
  }

  lemma {:induction false} TrimSpaceMeans(s: string)
    ensures Trimmed(TrimSpace(s), s)
    decreases |s|
  {
    hide IsSpace;
    if s != "" && IsSpace(s[0]) {
      TrimSpaceMeans(s[1..]);
      var i, j :| CutAt(TrimSpace(s), s[1..], i, j);
      assert s[1..][i..j] == s[i + 1..j + 1] && forall k :: 1 <= k < |s| ==> s[k] == s[1..][k - 1];
      assert CutAt(TrimSpace(s), s, i + 1, j + 1);
    } else if s != "" && IsSpace(s[|s| - 1]) {
      var n := |s| - 1;
      TrimSpaceMeans(s[..n]);
      var i, j :| CutAt(TrimSpace(s), s[..n], i, j);
      assert s[..n][i..j] == s[i..j] && forall k :: 0 <= k < n ==> s[k] == s[..n][k];
      assert CutAt(TrimSpace(s), s, i, j);
    } else {
      assert s == s[0..|s|];
      assert CutAt(s, s, 0, |s|);
    }
  }

  /** What an accepted request makes of an item: the name trimmed, the server's ID and clock, and the item's own time if
      it has one; the rest as it came. */
  lemma BuildAllMeans(items: seq<Item>, project: string, ids: seq<string>, now: int, i: nat)
    requires |ids| == |items| && i < |items|
    ensures var e, item := BuildAll(items, project, ids, now)[i], items[i];
            && e.id == ids[i] && e.project == project && Trimmed(e.name, item.name) && e.user == item.user
            && e.properties == item.properties && e.key == item.key && e.receivedAt == now
            && (item.timestamp.None? ==> e.timestamp == now)
            && (item.timestamp.Some? ==> e.timestamp == item.timestamp.value)
  {
    TrimSpaceMeans(items[i].name);
  }

  /** Event IDs are fresh random UUIDs; a batch has between one and a hundred events. */
  ghost predicate CanAccept(s: State, r: nat, items: seq<Item>, ids: seq<string>) {
    && r !in s.requests
    && 1 <= |items| <= 100
    && |ids| == |items|
    && (forall i, j :: 0 <= i < j < |ids| ==> ids[i] != ids[j])
    && (forall i :: 0 <= i < |ids| ==> ids[i] !in s.issued)
  }

  ghost function NewRequest(s: State, r: nat, project: string, items: seq<Item>, ids: seq<string>, now: int,
                            send: Option<nat>): State
    requires CanAccept(s, r, items, ids)
  {
    var evts := BuildAll(items, project, ids, now);
    s.(requests := s.requests[r := Request(evts, Publishing(0, false), send)],
       issued := s.issued + IssuedBy(items, project, ids, now),
       usedKeys := s.usedKeys + set i | 0 <= i < |items| :: items[i].key)
  }

  function IssuedBy(items: seq<Item>, project: string, ids: seq<string>, now: int): map<string, Event>
    requires |ids| == |items|
  {
    map i | i in ids :: BuildEvent(items[IndexOf(ids, i)], project, i, now)
  }

  function IndexOf<T(==)>(xs: seq<T>, x: T): (k: nat)
    requires x in xs
    ensures k < |xs| && xs[k] == x
  {
    if xs[0] == x then 0 else 1 + IndexOf(xs[1..], x)
  }

  /** crypto.randomUUID(): a tracked key was never used before. */
  ghost predicate CanTrack(s: State, sid: nat, items: seq<Item>) {
    && sid !in s.sends
    && (forall i :: 0 <= i < |items| ==> items[i].key !in s.usedKeys)
    && (forall i, j :: 0 <= i < j < |items| ==> items[i].key != items[j].key)
  }

  ghost function DoTrack(s: State, sid: nat, project: string, items: seq<Item>): State
    requires CanTrack(s, sid, items)
  {
    var keys := seq(|items|, i requires 0 <= i < |items| => items[i].key);
    s.(sends := s.sends[sid := Send(project, items, false)],
       tracked := s.tracked + map k | k in keys :: (project, items[IndexOf(keys, k)]),
       usedKeys := s.usedKeys + set k | k in keys)
  }

  predicate CanXAdd(s: State, r: nat) {
    r in s.requests && s.requests[r].phase.Publishing? && s.requests[r].phase.pos < |s.requests[r].events|
  }

  function DoXAdd(s: State, r: nat, o: Outcome): State
    requires CanXAdd(s, r)
  {
    var q := s.requests[r];
    s.(q := if o.Applied() then Append(s.q, Good(q.events[q.phase.pos])) else s.q,
       requests := s.requests[r := q.(phase := Publishing(q.phase.pos + 1, q.phase.failed || o.Error()))])
  }

  /** The direct write happens only when every XADD was confirmed. */
  predicate CanWrite(s: State, r: nat) {
    r in s.requests && s.requests[r].phase == Publishing(|s.requests[r].events|, false)
  }

  function DoWrite(s: State, r: nat, o: Outcome): State
    requires CanWrite(s, r)
  {
    s.(db := if o.Applied() then s.db.(rows := InsertAll(s.db.rows, s.requests[r].events)) else s.db,
       requests := s.requests[r := s.requests[r].(phase := Written)])
  }

  predicate CanReply(s: State, r: nat) {
    r in s.requests && s.requests[r].phase.Written?
  }

  function DoReply(s: State, r: nat, arrives: bool): State
    requires CanReply(s, r)
  {
    var send := s.requests[r].send;
    s.(sends := if arrives && send.Some? && send.value in s.sends
                then s.sends[send.value := s.sends[send.value].(ok := true)] else s.sends,
       requests := s.requests - {r})
  }

  // ----- the worker

  function DoTake(s: State, now: int, got: bool): State {
    if s.q.next < |s.q.entries|
    then s.(q := Deliver(s.q, now), flights := if got then s.flights[|s.q.log| := Waiting(0)] else s.flights)
    else s
  }

  function DoClaim(s: State, m: nat, now: int, got: bool): State {
    if m in s.q.pending
    then s.(q := Redeliver(s.q, m, now), flights := if got then s.flights[|s.q.log| := Claimed] else s.flights)
    else s
  }

  predicate Flying(s: State, t: nat) {
    t in s.flights && t < |s.q.log| && s.q.log[t] < |s.q.entries|
  }

  function MessageOf(s: State, t: nat): nat
    requires Flying(s, t)
  {
    s.q.log[t]
  }

  function PayloadOf(s: State, t: nat): Payload
    requires Flying(s, t)
  {
    s.q.entries[s.q.log[t]]
  }

  function DoQuery(s: State, t: nat, ids: seq<nat>, ok: bool): State
    requires Flying(s, t)
  {
    var m := MessageOf(s, t);
    var count := if ok then Report(s.q.pending, ids, m) else 0;
    s.(flights := s.flights[t := Waiting(count)],
       missed := s.missed.(told := s.missed.told + if count != Times(s.q.log, m) then {m} else {}))
  }

  /** The retry limit, then decodeEvent. */
  function DoBegin(s: State, t: nat): State
    requires Flying(s, t) && s.flights[t].Waiting?
  {
    var count := s.flights[t].count;
    if count >= MAX_RETRIES then s.(flights := s.flights[t := AtDeadInsert(MaxRetries, count)])
    else s.(handled := s.handled + {t},
            flights := s.flights[t := if PayloadOf(s, t).Bad? then AtDeadInsert(DecodeFailed, count) else AtStore])
  }

  /** A message that decoded to an event. */
  predicate Handling(s: State, t: nat) {
    Flying(s, t) && PayloadOf(s, t).Good?
  }

  function EventOf(s: State, t: nat): Event
    requires Handling(s, t)
  {
    PayloadOf(s, t).event
  }

  /** events.Store: an error ends the handling and leaves the message pending. */
  function DoStore(s: State, t: nat, o: Outcome): State
    requires Handling(s, t)
  {
    s.(db := if o.Applied() then s.db.(rows := Insert(s.db.rows, EventOf(s, t))) else s.db,
       flights := if o.Error() then s.flights - {t} else s.flights[t := AtEnqueue])
  }

  function MissedBy(missed: set<nat>, m: nat, o: Outcome): set<nat> {
    if o.Applied() then missed else missed + {m}
  }

  function DoEnqueue(s: State, t: nat, o: Outcome): State
    requires Handling(s, t)
  {
    s.(db := if o.Applied() then s.db.(pairs := s.db.pairs + PairsOf(s.subs, EventOf(s, t))) else s.db,
       flights := s.flights[t := AtCount],
       missed := s.missed.(enqueue := MissedBy(s.missed.enqueue, MessageOf(s, t), o)))
  }

  function DoCount(s: State, t: nat, o: Outcome): State
    requires Handling(s, t)
  {
    s.(db := if o.Applied() then s.db.(counts := Bump(s.db.counts, CountKeyOf(EventOf(s, t)))) else s.db,
       flights := s.flights[t := AtDau],
       counted := if o.Applied() then s.counted + {t} else s.counted,
       missed := s.missed.(count := MissedBy(s.missed.count, MessageOf(s, t), o)))
  }

  function DoDau(s: State, t: nat, o: Outcome): State
    requires Handling(s, t)
  {
    s.(db := if o.Applied() then s.db.(dau := s.db.dau + ActiveOf(EventOf(s, t))) else s.db,
       flights := s.flights[t := AtAck],
       missed := s.missed.(dau := MissedBy(s.missed.dau, MessageOf(s, t), o)))
  }

  function DoAck(s: State, t: nat, o: Outcome): State
    requires Handling(s, t)
  {
    s.(q := if o.Applied() then Acknowledge(s.q, MessageOf(s, t)) else s.q,
       flights := s.flights - {t},
       storeAcked := if o.Applied() then s.storeAcked + {MessageOf(s, t)} else s.storeAcked)
  }

  function DeadLetterOf(s: State, t: nat): DeadLetter
    requires Flying(s, t) && s.flights[t].AtDeadInsert?
  {
    DeadLetter(HeaderProject(PayloadOf(s, t)), PayloadOf(s, t), s.flights[t].reason, s.flights[t].told)
  }

  /** The INSERT of deadLetter: an error leaves the message pending. */
  function DoDeadInsert(s: State, t: nat, o: Outcome): State
    requires Flying(s, t) && s.flights[t].AtDeadInsert?
  {
    s.(db := if o.Applied() then s.db.(dead := s.db.dead + [DeadLetterOf(s, t)]) else s.db,
       flights := if o.Error() then s.flights - {t} else s.flights[t := AtDeadAck])
  }

  function DoDeadAck(s: State, t: nat, o: Outcome): State
    requires Flying(s, t)
  {
    s.(q := if o.Applied() then Acknowledge(s.q, MessageOf(s, t)) else s.q, flights := s.flights - {t})
  }

  /** The statement the flight's program counter points at. */
  function DoStep(s: State, t: nat, o: Outcome): State
    requires Flying(s, t)
  {
    match s.flights[t]
    case Claimed => s
    case Waiting(_) => s
    case AtDeadInsert(_, _) => DoDeadInsert(s, t, FateOf(s.refuses.dead(PayloadOf(s, t)), o))
    case AtDeadAck => DoDeadAck(s, t, o)
    case AtStore => if Handling(s, t) then DoStore(s, t, FateOf(s.refuses.store(EventOf(s, t)), o)) else s
    case AtEnqueue => if Handling(s, t) then DoEnqueue(s, t, o) else s
    case AtCount => if Handling(s, t) then DoCount(s, t, o) else s
    case AtDau => if Handling(s, t) then DoDau(s, t, o) else s
    case AtAck => if Handling(s, t) then DoAck(s, t, o) else s
  }

  // ----- runs

  ghost function ApplyIngest(s: State, a: Action): State {
    match a
    case Track(sid, project, items) => if CanTrack(s, sid, items) then DoTrack(s, sid, project, items) else s
    case Post(r, sid, ids, now) =>
      if sid in s.sends && CanAccept(s, r, s.sends[sid].items, ids)
      then NewRequest(s, r, s.sends[sid].project, s.sends[sid].items, ids, now, Some(sid)) else s
    case Accept(r, project, items, ids, now) =>
      if CanAccept(s, r, items, ids) && (forall i :: 0 <= i < |items| ==> items[i].key !in s.tracked)
      then NewRequest(s, r, project, items, ids, now, None) else s
    case Inject(raw, header) => s.(q := Append(s.q, Bad(raw, header)))
    case XAdd(r, o) => if CanXAdd(s, r) then DoXAdd(s, r, o) else s
    case DirectWrite(r, o) =>
      if CanWrite(s, r) then DoWrite(s, r, FateOf(AnyRefused(s.refuses, s.requests[r].events), o)) else s
    case Reply(r, arrives) => if CanReply(s, r) then DoReply(s, r, arrives) else s
    case Drop(r) => s.(requests := s.requests - {r})
    case _ => s
  }

  function ApplyWorker(s: State, a: Action): State {
    match a
    case Take(now, got) => DoTake(s, now, got)
    case Claim(m, now, got) => DoClaim(s, m, now, got)
    case Query(t, ids, ok) => if Flying(s, t) && s.flights[t].Claimed? then DoQuery(s, t, ids, ok) else s
    case Begin(t) => if Flying(s, t) && s.flights[t].Waiting? then DoBegin(s, t) else s
    case Do(t, o) => if Flying(s, t) then DoStep(s, t, o) else s
    case Crash(t) => s.(flights := s.flights - {t})
    case _ => s
  }

  predicate OfWorker(a: Action) {
    a.Take? || a.Claim? || a.Query? || a.Begin? || a.Do? || a.Crash?
  }

  /** An action that is not possible in s leaves s as it is. */
  ghost function Apply(s: State, a: Action): State {
    if OfWorker(a) then ApplyWorker(s, a) else ApplyIngest(s, a)
  }

  ghost function Exec(s: State, acts: seq<Action>): State
    decreases |acts|
  {
    if acts == [] then s else Apply(Exec(s, acts[..|acts| - 1]), acts[|acts| - 1])
  }

  /** The state a run against one database ends in. */
  ghost function Run(pg: Server, acts: seq<Action>): State {
    Exec(Init(pg), acts)
  }

  lemma {:induction false} ExecConcat(s: State, a: seq<Action>, b: seq<Action>)
    ensures Exec(s, a + b) == Exec(Exec(s, a), b)
    decreases |b|
  {
    hide Apply;
    if b == [] {
      assert a + b == a;
    } else {
      var n := |b| - 1;
      ExecConcat(s, a, b[..n]);
      assert (a + b)[..|a + b| - 1] == a + b[..n];
    }
  }

  lemma ExecOne(s: State, acts: seq<Action>, a: Action)
    ensures Exec(s, acts + [a]) == Apply(Exec(s, acts), a)
  {
  }
}
