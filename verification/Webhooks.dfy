/** internal/webhooks: delivery rows, the lease taken by ClaimDueDeliveries, and the bounded retries, as a state
    machine. Each claimed row in a dispatcher's memory is a claim of its own, so a run may interleave any number of
    dispatchers in any way, and lose any claim to a crash. Times are nanoseconds of one shared clock. */
module Webhooks {
  import opened Options
  import opened Numbers

  const MAX_ATTEMPTS := 5
  const BASE_BACKOFF := 1_000_000_000
  const MAX_BACKOFF := 3_600_000_000_000

  datatype Status = Pending | Delivered | Failed

  datatype Delivery = Delivery(sub: string, event: string, status: Status, attempts: nat, nextRetryAt: int)

  type Table = map<string, Delivery>

  /** A claimed row in memory: the attempts it had, the end of its lease, and the outcome of its POST. */
  datatype Claim = Claim(id: string, attempts: nat, lease: int, posted: Option<bool>)

  /** `posts` counts the HTTP POSTs of each delivery, `lost` those of them whose result never reached the row;
      `ids` are the delivery IDs ever used. */
  datatype State = State(
    now: int, rows: Table, claims: map<nat, Claim>, posts: map<string, nat>, ids: set<string>,
    lost: map<string, nat>)

  const INIT := State(0, map[], map[], map[], {}, map[])

  // ----- backoff

  /** One second doubled per earlier attempt, at most one hour. */
  function Backoff(attempts: int): int {
    var d := BASE_BACKOFF * if attempts >= 1 then Pow2(attempts - 1) else 1;
    if d > MAX_BACKOFF then MAX_BACKOFF else d
  }

  method NextBackoff(attempts: int) returns (d: int)
    ensures d == Backoff(attempts)
  {
    d := BASE_BACKOFF;
    var i := 1;
    while i < attempts && d < MAX_BACKOFF
      invariant 1 <= i && (i <= attempts || i == 1)
      invariant d == Backoff(i)
    {
      d := d * 2;
      i := i + 1;
      if d > MAX_BACKOFF {
        d := MAX_BACKOFF;
      }
    }
    if i < attempts {
      Pow2Monotone(i - 1, attempts - 1);
    }
  }

  // ----- row updates

  /** The pending rows whose time has come. */
  predicate Due(rows: Table, id: string, now: int) {
    id in rows && rows[id].status.Pending? && rows[id].nextRetryAt <= now
  }

  function Take(rows: Table, id: string, until: int): Table
    requires id in rows
  {
    rows[id := rows[id].(nextRetryAt := until)]
  }

  /** UPDATE ... WHERE id = ...: no row, no effect. */
  function MarkDelivered(rows: Table, id: string): Table {
    if id in rows then rows[id := rows[id].(status := Delivered)] else rows
  }

  function RescheduleOrFail(rows: Table, id: string, attempts: nat, nextRetryAt: int, markFailed: bool): Table {
    if id in rows
    then rows[id := rows[id].(attempts := attempts, nextRetryAt := nextRetryAt,
                              status := if markFailed then Failed else Pending)]
    else rows
  }

  /** The write that ends an attempt: delivered, or one more failed attempt, whether the POST failed or the secret
      did not decrypt. */
  function WriteResult(rows: Table, c: Claim, now: int): Table {
    if c.posted == Some(true) then MarkDelivered(rows, c.id)
    else if c.attempts + 1 >= MAX_ATTEMPTS then RescheduleOrFail(rows, c.id, c.attempts + 1, now, true)
    else RescheduleOrFail(rows, c.id, c.attempts + 1, now + Backoff(c.attempts + 1), false)
  }

  // ----- what an attempt leaves in its row

  /** The wait after the n-th failed attempt, in nanoseconds. */
  predicate Waits(n: nat, wait: int) {
    && (n == 1 ==> wait == 1_000_000_000) && (n == 2 ==> wait == 2_000_000_000)
    && (n == 3 ==> wait == 4_000_000_000) && (n == 4 ==> wait == 8_000_000_000)
  }

  /** A failed attempt of a row with fewer than five: the fifth fails it for good, an earlier one makes it due exactly
      one, two, four or eight seconds later. */
  predicate FailedAttempt(r: Delivery, r': Delivery, attempts: nat, end: int) {
    && r'.sub == r.sub && r'.event == r.event && r'.attempts == attempts + 1
    && (if attempts + 1 == 5 then r'.status.Failed?
        else r'.status.Pending? && Waits(attempts + 1, r'.nextRetryAt - end))
  }

  /** The write of an attempt changes its own row only: a delivered one in its status alone, and after a failure, of the
      POST or of the decryption, as said above. */
  lemma WriteResultMeans(rows: Table, c: Claim, now: int)
    requires c.attempts < 5
    ensures var rows' := WriteResult(rows, c, now);
            && rows'.Keys == rows.Keys && (forall id :: id in rows && id != c.id ==> rows'[id] == rows[id])
            && (c.id in rows ==>
                  if c.posted == Some(true) then rows'[c.id] == rows[c.id].(status := Delivered)
                  else FailedAttempt(rows[c.id], rows'[c.id], c.attempts, now))
  {
    BackoffInSeconds();
    hide Backoff;
  }

  lemma BackoffInSeconds()
    ensures Backoff(1) == 1_000_000_000 && Backoff(2) == 2_000_000_000
    ensures Backoff(3) == 4_000_000_000 && Backoff(4) == 8_000_000_000
  {
    assert Pow2(1) == 2 && Pow2(2) == 2 * Pow2(1) && Pow2(3) == 2 * Pow2(2);
  }

  /** The wait starts at a second, doubles, and stops at an hour. */
  lemma BackoffGrows(n: int)
    ensures n <= 1 ==> Backoff(n) == 1_000_000_000
    ensures n >= 1 ==>
              Backoff(n + 1) == if 2 * Backoff(n) > 3_600_000_000_000 then 3_600_000_000_000 else 2 * Backoff(n)
  {
  }

  /** A pending row is due from its time on and not before. */
  lemma DueExactly(rows: Table, id: string, t: int)
    requires id in rows && rows[id].status.Pending?
    ensures Due(rows, id, t) <==> rows[id].nextRetryAt <= t
  {
  }

  // ----- steps

  datatype Action =
    | Tick(d: nat)
    | Enqueue(id: string, sub: string, event: string)
    | Remove(id: string)
    | Grab(t: nat, id: string, until: int)
    | Skip(t: nat)
    | Post(t: nat, delivered: bool)
    | Write(t: nat, o: Outcome)
    | Crash(t: nat)

  function CountOf(counts: map<string, nat>, id: string): nat {
    if id in counts then counts[id] else 0
  }

  function PostsOf(s: State, id: string): nat {
    CountOf(s.posts, id)
  }

  function LostOf(s: State, id: string): nat {
    CountOf(s.lost, id)
  }

  /** The result of c's POST, if it made one, never reaches the row. */
  function Forget(lost: map<string, nat>, c: Claim): map<string, nat> {
    if c.posted.Some? then lost[c.id := CountOf(lost, c.id) + 1] else lost
  }

  predicate Exists(rows: Table, sub: string, event: string) {
    exists i :: i in rows && rows[i].sub == sub && rows[i].event == event
  }

  function DoWrite(s: State, t: nat, o: Outcome): State
    requires t in s.claims
  {
    s.(rows := if o.Applied() then WriteResult(s.rows, s.claims[t], s.now) else s.rows,
       claims := s.claims - {t}, lost := if o.Applied() then s.lost else Forget(s.lost, s.claims[t]))
  }

  /** An action that is not possible leaves s as it is. */
  function Apply(s: State, a: Action): State {
    match a
    case Tick(d) => s.(now := s.now + d)
    case Enqueue(id, sub, event) =>
      if id in s.ids || Exists(s.rows, sub, event) then s
      else s.(rows := s.rows[id := Delivery(sub, event, Pending, 0, s.now)], ids := s.ids + {id})
    case Remove(id) => s.(rows := s.rows - {id})
    case Grab(t, id, until) =>
      if t in s.claims || !Due(s.rows, id, s.now) then s
      else s.(rows := Take(s.rows, id, until), claims := s.claims[t := Claim(id, s.rows[id].attempts, until, None)])
    case Skip(t) => if t in s.claims && s.claims[t].posted.None? then s.(claims := s.claims - {t}) else s
    case Post(t, delivered) =>
      if t in s.claims && s.claims[t].posted.None?
      then s.(claims := s.claims[t := s.claims[t].(posted := Some(delivered))],
              posts := s.posts[s.claims[t].id := PostsOf(s, s.claims[t].id) + 1])
      else s
    case Write(t, o) => if t in s.claims then DoWrite(s, t, o) else s
    case Crash(t) =>
      s.(claims := s.claims - {t}, lost := if t in s.claims then Forget(s.lost, s.claims[t]) else s.lost)
  }

  function Exec(s: State, acts: seq<Action>): State
    decreases |acts|
  {
    if acts == [] then s else Apply(Exec(s, acts[..|acts| - 1]), acts[|acts| - 1])
  }

  function Run(acts: seq<Action>): State {
    Exec(INIT, acts)
  }

  // ----- two ways to run dispatchers safely

  /** Every result is written before its claim runs out. */
  predicate WritesInTime(s: State, a: Action) {
    a.Write? && a.t in s.claims ==> s.now < s.claims[a.t].lease
  }

  ghost predicate Timely(acts: seq<Action>) {
    forall k :: 0 <= k < |acts| ==> WritesInTime(Run(acts[..k]), acts[k])
  }

  /** No row is claimed while a claim on it is in memory, as with one dispatcher that finishes its batch first. */
  predicate GrabsFree(s: State, a: Action) {
    a.Grab? ==> forall t :: t in s.claims ==> s.claims[t].id != a.id
  }

  ghost predicate Exclusive(acts: seq<Action>) {
    forall k :: 0 <= k < |acts| ==> GrabsFree(Run(acts[..k]), acts[k])
  }

  // ----- the invariant

  predicate RowOk(r: Delivery) {
    r.attempts <= MAX_ATTEMPTS && (r.status.Failed? <==> r.attempts == MAX_ATTEMPTS)
  }

  /** The row still is as the claim left it. */
  predicate Current(s: State, c: Claim) {
    c.id in s.rows ==>
      s.rows[c.id].status.Pending? && s.rows[c.id].attempts == c.attempts && s.rows[c.id].nextRetryAt == c.lease
  }

  /** The claims that may write: all of them in an exclusive run, the unexpired ones otherwise. */
  predicate Entitled(s: State, exclusive: bool, t: nat) {
    t in s.claims && (exclusive || s.now < s.claims[t].lease)
  }

  ghost predicate Inv(s: State, exclusive: bool) {
    && (forall id :: id in s.rows ==> id in s.ids && RowOk(s.rows[id]))
    && (forall t :: t in s.claims ==> s.claims[t].attempts < MAX_ATTEMPTS && s.claims[t].id in s.ids)
    && (forall t :: Entitled(s, exclusive, t) ==> Current(s, s.claims[t]))
    && (forall t, u | Entitled(s, exclusive, t) && Entitled(s, exclusive, u) && s.claims[t].id == s.claims[u].id ::
          t == u)
  }

  /** What the next action must obey for the invariant to survive. */
  ghost predicate Safe(s: State, exclusive: bool, a: Action) {
    if exclusive then GrabsFree(s, a) else WritesInTime(s, a)
  }

  /** Rows that are not pending are as they were, if they still exist. */
  ghost predicate TerminalKept(s: State, s': State) {
    forall id :: id in s.rows && !s.rows[id].status.Pending? && id in s'.rows ==> s'.rows[id] == s.rows[id]
  }

  lemma GrabKeeps(s: State, exclusive: bool, t: nat, id: string, until: int)
    requires Inv(s, exclusive) && (exclusive ==> GrabsFree(s, Grab(t, id, until)))
    ensures Inv(Apply(s, Grab(t, id, until)), exclusive) && TerminalKept(s, Apply(s, Grab(t, id, until)))
  {
    var s' := Apply(s, Grab(t, id, until));
    if s' != s {
      // An entitled claim on this row would have kept it undue.
      assert forall u :: u != t && Entitled(s', exclusive, u) ==> Entitled(s, exclusive, u) && s.claims[u].id != id;
    }
  }

  lemma WriteKeeps(s: State, exclusive: bool, t: nat, o: Outcome)
    requires Inv(s, exclusive) && Entitled(s, exclusive, t)
    ensures Inv(DoWrite(s, t, o), exclusive) && TerminalKept(s, DoWrite(s, t, o))
  {
    var s' := DoWrite(s, t, o);
    var c := s.claims[t];
    assert Current(s, c);
    forall u | Entitled(s', exclusive, u)
      ensures Current(s', s'.claims[u])
    {
      assert Entitled(s, exclusive, u) && s.claims[u].id != c.id;
      assert Current(s, s.claims[u]);
    }
  }

  /** Time may pass, rows and claims may go, and POSTs may be answered. */
  ghost predicate Fades(s: State, s': State) {
    && s.now <= s'.now && s'.ids == s.ids
    && (forall id :: id in s'.rows ==> id in s.rows && s'.rows[id] == s.rows[id])
    && (forall t :: t in s'.claims ==> t in s.claims && s'.claims[t] == s.claims[t].(posted := s'.claims[t].posted))
  }

  lemma FadesKeeps(s: State, s': State, exclusive: bool)
    requires Inv(s, exclusive) && Fades(s, s')
    ensures Inv(s', exclusive) && TerminalKept(s, s')
  {
    hide RowOk;
    forall u | Entitled(s', exclusive, u)
      ensures Entitled(s, exclusive, u) && s'.claims[u].id == s.claims[u].id && Current(s', s'.claims[u])
    {
      assert Current(s, s.claims[u]);
    }
  }

  lemma Fading(s: State, a: Action)
    requires a.Tick? || a.Remove? || a.Skip? || a.Post? || a.Crash?
    ensures Fades(s, Apply(s, a))
  {
    hide PostsOf, Forget;
  }

  lemma EnqueueKeeps(s: State, exclusive: bool, id: string, sub: string, event: string)
    requires Inv(s, exclusive)
    ensures Inv(Apply(s, Enqueue(id, sub, event)), exclusive) && TerminalKept(s, Apply(s, Enqueue(id, sub, event)))
  {
    hide Exists;
    var s' := Apply(s, Enqueue(id, sub, event));
    forall u | Entitled(s', exclusive, u)
      ensures Entitled(s, exclusive, u) && Current(s', s'.claims[u])
    {
      assert Current(s, s.claims[u]);
    }
  }

  lemma ApplyKeeps(s: State, exclusive: bool, a: Action)
    requires Inv(s, exclusive) && Safe(s, exclusive, a)
    ensures Inv(Apply(s, a), exclusive) && TerminalKept(s, Apply(s, a))
  {
    if a.Grab? {
      GrabKeeps(s, exclusive, a.t, a.id, a.until);
    } else if a.Write? {
      if a.t in s.claims {
        WriteKeeps(s, exclusive, a.t, a.o);
      }
    } else if a.Enqueue? {
      EnqueueKeeps(s, exclusive, a.id, a.sub, a.event);
    } else {
      hide Apply, Inv, Fades;
      Fading(s, a);
      FadesKeeps(s, Apply(s, a), exclusive);
    }
  }

  ghost predicate Orderly(acts: seq<Action>, exclusive: bool) {
    if exclusive then Exclusive(acts) else Timely(acts)
  }

  lemma InitInv(exclusive: bool)
    ensures Inv(INIT, exclusive)
  {
  }

  lemma {:induction false} RunInv(acts: seq<Action>, exclusive: bool)
    requires Orderly(acts, exclusive)
    ensures Inv(Run(acts), exclusive)
    decreases |acts|
  {
    hide Apply, Inv, GrabsFree, WritesInTime;
    if acts == [] {
      InitInv(exclusive);
    } else {
      var n := |acts| - 1;
      assert forall k :: 0 <= k < n ==> acts[..n][..k] == acts[..k] && acts[..n][k] == acts[k];
      RunInv(acts[..n], exclusive);
      assert Safe(Run(acts[..n]), exclusive, acts[n]);
      ApplyKeeps(Run(acts[..n]), exclusive, acts[n]);
    }
  }

  // ----- the results

  /** In a timely run no two unexpired claims hold the same delivery; in an exclusive run no two claims do. */
  lemma LeaseHolds(acts: seq<Action>, exclusive: bool, t: nat, u: nat)
    requires Orderly(acts, exclusive)
    requires Entitled(Run(acts), exclusive, t) && Entitled(Run(acts), exclusive, u) && t != u
    ensures Run(acts).claims[t].id != Run(acts).claims[u].id
  {
    RunInv(acts, exclusive);
  }

  /** Whatever dispatchers do, attempts never exceed five, a pending row has some left and a failed one has used all;
      in a timely or exclusive run a row is failed exactly when it has used all five. */
  lemma AttemptsBounded(acts: seq<Action>, id: string)
    requires id in Run(acts).rows
    ensures var r := Run(acts).rows[id];
            && r.attempts <= 5
            && (r.status.Pending? ==> r.attempts < 5) && (r.status.Failed? ==> r.attempts == 5)
            && (Timely(acts) || Exclusive(acts) ==> (r.status.Failed? <==> r.attempts == 5))
  {
    AlwaysLimited(acts);
    if Timely(acts) {
      RunInv(acts, false);
      assert RowOk(Run(acts).rows[id]);
    } else if Exclusive(acts) {
      RunInv(acts, true);
      assert RowOk(Run(acts).rows[id]);
    }
  }

  predicate Limited(s: State) {
    && (forall id :: id in s.rows ==>
          && s.rows[id].attempts <= MAX_ATTEMPTS
          && (s.rows[id].status.Pending? ==> s.rows[id].attempts < MAX_ATTEMPTS)
          && (s.rows[id].status.Failed? ==> s.rows[id].attempts == MAX_ATTEMPTS))
    && (forall t :: t in s.claims ==> s.claims[t].attempts < MAX_ATTEMPTS)
  }

  lemma {:induction false} AlwaysLimited(acts: seq<Action>)
    ensures Limited(Run(acts))
    decreases |acts|
  {
    hide Apply, Limited;
    if acts == [] {
      assert Limited(INIT) by {
        InitLimited();
      }
    } else {
      AlwaysLimited(acts[..|acts| - 1]);
      StaysLimited(Run(acts[..|acts| - 1]), acts[|acts| - 1]);
    }
  }

  lemma InitLimited()
    ensures Limited(INIT)
  {
  }

  lemma StaysLimited(s: State, a: Action)
    requires Limited(s)
    ensures Limited(Apply(s, a))
  {
    hide Exists, Backoff, PostsOf, Forget;
  }

  /** A delivered or failed row never changes again: it stays as it is until its subscription is deleted. */
  lemma {:induction false} TerminalRowsFinal(acts: seq<Action>, more: seq<Action>, exclusive: bool, id: string)
    requires Orderly(acts + more, exclusive)
    requires id in Run(acts).rows && !Run(acts).rows[id].status.Pending?
    ensures id in Run(acts + more).rows ==> Run(acts + more).rows[id] == Run(acts).rows[id]
    decreases |more|
  {
    hide Apply, Exec, Orderly;
    if more == [] {
      assert acts + more == acts;
    } else {
      var before := acts + more[..|more| - 1];
      assert acts + more == before + [more[|more| - 1]];
      OrderlyPrefix(before, more[|more| - 1], exclusive);
      TerminalRowsFinal(acts, more[..|more| - 1], exclusive, id);
      if id !in Run(before).rows {
        assert id in Run(acts).ids by {
          OrderlyPrefixes(acts, more, exclusive);
          RunInv(acts, exclusive);
        }
        ExecAppend(INIT, acts, more[..|more| - 1]);
        IdsKept(Run(acts), more[..|more| - 1], id);
        AbsentStays(Run(before), more[|more| - 1], id);
      }
    }
  }

  /** The last step of an orderly run starts from a good state and keeps the terminal rows. */
  lemma OrderlyPrefix(before: seq<Action>, a: Action, exclusive: bool)
    requires Orderly(before + [a], exclusive)
    ensures Orderly(before, exclusive) && Run(before + [a]) == Apply(Run(before), a)
    ensures TerminalKept(Run(before), Run(before + [a]))
  {
    var all := before + [a];
    assert all[..|before|] == before && all[|before|] == a;
    assert forall k :: 0 <= k < |before| ==> before[..k] == all[..k] && before[k] == all[k];
    assert Orderly(before, exclusive);
    RunInv(before, exclusive);
    ApplyKeeps(Run(before), exclusive, a);
  }

  lemma AbsentStays(s: State, a: Action, id: string)
    requires id in s.ids && id !in s.rows
    ensures id !in Apply(s, a).rows
  {
  }

  lemma {:induction false} OrderlyPrefixes(acts: seq<Action>, more: seq<Action>, exclusive: bool)
    requires Orderly(acts + more, exclusive)
    ensures Orderly(acts, exclusive)
    decreases |more|
  {
    if more == [] {
      assert acts + more == acts;
    } else {
      assert acts + more == acts + more[..|more| - 1] + [more[|more| - 1]];
      OrderlyPrefix(acts + more[..|more| - 1], more[|more| - 1], exclusive);
      OrderlyPrefixes(acts, more[..|more| - 1], exclusive);
    }
  }

  lemma {:induction false} IdsKept(s: State, acts: seq<Action>, id: string)
    requires id in s.ids
    ensures id in Exec(s, acts).ids
    decreases |acts|
  {
    if acts != [] {
      IdsKept(s, acts[..|acts| - 1], id);
    }
  }

  /** The claim window of a dispatcher whose HTTP timeout is ten seconds. */
  const WINDOW := 50_000_000_000

  /** Two dispatchers claim one delivery; the first writes after its lease has run out. */
  function LateRun(): seq<Action> {
    [Enqueue("d", "s", "e"), Grab(0, "d", WINDOW), Tick(WINDOW), Grab(1, "d", 2 * WINDOW), Post(1, true),
     Write(1, Done), Post(0, false), Write(0, Done)]
  }

  lemma {:induction false} ExecAppend(s: State, acts: seq<Action>, more: seq<Action>)
    ensures Exec(s, acts + more) == Exec(Exec(s, acts), more)
    decreases |more|
  {
    if more == [] {
      assert acts + more == acts;
    } else {
      ExecAppend(s, acts, more[..|more| - 1]);
      assert (acts + more)[..|acts + more| - 1] == acts + more[..|more| - 1];
    }
  }

  lemma ExecOne(s: State, a: Action)
    ensures Exec(s, [a]) == Apply(s, a)
  {
  }

  /** Without either discipline the lease does not protect the row: a claim that outlives its lease writes over
      another dispatcher's result, and a delivered row is pending again. */
  lemma LateWriteReopens()
    ensures "d" in Run(LateRun()[..6]).rows && Run(LateRun()[..6]).rows["d"].status.Delivered?
    ensures "d" in Run(LateRun()).rows && Run(LateRun()).rows["d"].status.Pending?
    ensures !Timely(LateRun()) && !Exclusive(LateRun())
  {
    var acts := LateRun();
    var s1 := Apply(INIT, acts[0]);
    var s2 := Apply(s1, acts[1]);
    var s3 := Apply(s2, acts[2]);
    var s4 := Apply(s3, acts[3]);
    var s5 := Apply(s4, acts[4]);
    var s6 := Apply(s5, acts[5]);
    var s7 := Apply(s6, acts[6]);
    var s8 := Apply(s7, acts[7]);
    assert s1.rows["d"].nextRetryAt == 0 && s2.claims[0].lease == WINDOW && s3.now == WINDOW;
    assert Due(s3.rows, "d", s3.now);
    assert s4.claims[1].attempts == 0;
    Prefixes(acts);
    assert Run(acts[..3]) == s3 && Run(acts[..6]) == s6 && Run(acts[..7]) == s7 && Run(acts) == s8;
    assert !GrabsFree(Run(acts[..3]), acts[3]) by {
      assert s3.claims[0].id == "d";
    }
    assert !WritesInTime(Run(acts[..7]), acts[7]);
  }

  /** Claim t with the outcome of its POST filled in. */
  function Answered(s: State, t: nat, posted: Option<bool>): State
    requires t in s.claims
  {
    s.(claims := s.claims[t := s.claims[t].(posted := posted)])
  }

  ghost predicate ResultIsSafe(s: State, t: nat, posted: Option<bool>, o: Outcome)
    requires t in s.claims
  {
    TerminalKept(s, DoWrite(Answered(s, t, posted), t, o))
  }

  /** In any state, disciplined or not, a claim's result leaves terminal rows alone whatever it is, exactly when its
      row is pending or gone: the guard the UPDATEs lack. */
  lemma WriteIsSafeExactlyOnPending(s: State, t: nat)
    requires t in s.claims
    ensures (forall posted, o :: ResultIsSafe(s, t, posted, o)) <==>
            (s.claims[t].id in s.rows ==> s.rows[s.claims[t].id].status.Pending?)
  {
    var id := s.claims[t].id;
    if id in s.rows && !s.rows[id].status.Pending? {
      var other := Some(s.rows[id].status.Failed?);
      var s' := DoWrite(Answered(s, t, other), t, Done);
      assert s'.rows[id].status != s.rows[id].status;
      assert !ResultIsSafe(s, t, other, Done);
    }
  }

  /** The states along a run of eight actions. */
  lemma Prefixes(acts: seq<Action>)
    requires |acts| == 8
    ensures forall k :: 0 <= k < 8 ==> Run(acts[..k + 1]) == Apply(Run(acts[..k]), acts[k])
    ensures Run(acts[..0]) == INIT && acts[..8] == acts
  {
    forall k | 0 <= k < 8
      ensures Run(acts[..k + 1]) == Apply(Run(acts[..k]), acts[k])
    {
      assert acts[..k + 1][..k] == acts[..k];
    }
  }

  // ----- bounded work

  /** The POSTs of a delivery never exceed the attempts its row has used, plus those whose result was lost, plus the
      one whose result is the delivery itself or is still in memory. */
  ghost predicate PostsInv(s: State) {
    && (forall id :: IdPostsOk(s, id))
    && (forall t :: t in s.claims ==> ClaimPostsOk(s, s.claims[t]))
  }

  ghost predicate IdPostsOk(s: State, id: string) {
    && (id !in s.ids ==> PostsOf(s, id) == 0)
    && PostsOf(s, id) <= MAX_ATTEMPTS + LostOf(s, id)
    && (id in s.rows && Unposted(s, id) ==>
          PostsOf(s, id) <= s.rows[id].attempts + LostOf(s, id) + if s.rows[id].status.Delivered? then 1 else 0)
  }

  predicate ClaimPostsOk(s: State, c: Claim) {
    PostsOf(s, c.id) <= c.attempts + LostOf(s, c.id) + if c.posted.Some? then 1 else 0
  }

  predicate PostedOn(s: State, t: nat, id: string) {
    t in s.claims && s.claims[t].id == id && s.claims[t].posted.Some?
  }

  ghost predicate Unposted(s: State, id: string) {
    forall t :: !PostedOn(s, t, id)
  }

  lemma PostsGrab(s: State, t: nat, id: string, until: int)
    requires Inv(s, true) && PostsInv(s) && GrabsFree(s, Grab(t, id, until))
    ensures PostsInv(Apply(s, Grab(t, id, until)))
  {
    var s' := Apply(s, Grab(t, id, until));
    if s' != s {
      forall x
        ensures IdPostsOk(s', x)
      {
        assert IdPostsOk(s, x);
        assert forall u :: PostedOn(s, u, x) ==> PostedOn(s', u, x);
      }
      assert Unposted(s, id) && IdPostsOk(s, id);
    }
  }

  lemma PostsPost(s: State, t: nat, delivered: bool)
    requires Inv(s, true) && PostsInv(s)
    ensures PostsInv(Apply(s, Post(t, delivered)))
  {
    var s' := Apply(s, Post(t, delivered));
    if s' != s {
      assert Entitled(s, true, t);
      var id := s.claims[t].id;
      assert ClaimPostsOk(s, s.claims[t]);
      forall u | u in s'.claims
        ensures ClaimPostsOk(s', s'.claims[u])
      {
        assert Entitled(s, true, u);
        assert ClaimPostsOk(s, s.claims[u]);
      }
      forall x
        ensures IdPostsOk(s', x)
      {
        assert IdPostsOk(s, x);
        assert PostedOn(s', t, id);
        assert forall u :: PostedOn(s, u, x) ==> PostedOn(s', u, x);
      }
    }
  }

  lemma PostsWrite(s: State, t: nat, o: Outcome)
    requires Inv(s, true) && PostsInv(s) && t in s.claims
    ensures PostsInv(DoWrite(s, t, o))
  {
    var s' := DoWrite(s, t, o);
    var c := s.claims[t];
    assert Entitled(s, true, t) && Current(s, c) && ClaimPostsOk(s, c);
    forall x
      ensures IdPostsOk(s', x)
    {
      assert IdPostsOk(s, x);
      if x != c.id {
        assert forall u :: PostedOn(s, u, x) ==> PostedOn(s', u, x);
      }
    }
    forall u | u in s'.claims
      ensures ClaimPostsOk(s', s'.claims[u])
    {
      assert ClaimPostsOk(s, s.claims[u]);
    }
  }

  lemma PostsOther(s: State, a: Action)
    requires Inv(s, true) && PostsInv(s) && !a.Grab? && !a.Post? && !a.Write? && !a.Crash?
    ensures PostsInv(Apply(s, a))
  {
    var s' := Apply(s, a);
    forall x
      ensures IdPostsOk(s', x)
    {
      assert IdPostsOk(s, x);
      assert forall u :: PostedOn(s, u, x) ==> PostedOn(s', u, x);
    }
    forall u | u in s'.claims
      ensures ClaimPostsOk(s', s'.claims[u])
    {
      assert ClaimPostsOk(s, s.claims[u]);
    }
  }

  lemma PostsCrash(s: State, t: nat)
    requires Inv(s, true) && PostsInv(s)
    ensures PostsInv(Apply(s, Crash(t)))
  {
    var s' := Apply(s, Crash(t));
    if t in s.claims {
      var c := s.claims[t];
      assert Entitled(s, true, t) && Current(s, c) && ClaimPostsOk(s, c);
      forall x
        ensures IdPostsOk(s', x)
      {
        assert IdPostsOk(s, x);
        if x != c.id || c.posted.None? {
          assert forall u :: PostedOn(s, u, x) ==> PostedOn(s', u, x);
        }
      }
      forall u | u in s'.claims
        ensures ClaimPostsOk(s', s'.claims[u])
      {
        assert ClaimPostsOk(s, s.claims[u]);
      }
    } else {
      assert s.claims - {t} == s.claims;
    }
  }

  lemma PostsStep(s: State, a: Action)
    requires Inv(s, true) && PostsInv(s) && GrabsFree(s, a)
    ensures PostsInv(Apply(s, a))
  {
    match a
    case Grab(t, id, until) => PostsGrab(s, t, id, until);
    case Post(t, delivered) => PostsPost(s, t, delivered);
    case Write(t, o) => if t in s.claims { PostsWrite(s, t, o); }
    case Crash(t) => PostsCrash(s, t);
    case _ => PostsOther(s, a);
  }

  lemma {:induction false} RunPosts(acts: seq<Action>)
    requires Exclusive(acts)
    ensures PostsInv(Run(acts))
    decreases |acts|
  {
    hide Apply, Inv, GrabsFree;
    if acts != [] {
      var n := |acts| - 1;
      assert forall k :: 0 <= k < n ==> acts[..n][..k] == acts[..k] && acts[..n][k] == acts[k];
      RunPosts(acts[..n]);
      RunInv(acts[..n], true);
      assert GrabsFree(Run(acts[..n]), acts[n]);
      PostsStep(Run(acts[..n]), acts[n]);
    }
  }

  /** With one dispatcher each delivery is POSTed at most five times, plus once for every POST of its own whose result
      was lost to a crash or a failed write. */
  lemma AtMostFivePosts(acts: seq<Action>, id: string)
    requires Exclusive(acts)
    ensures PostsOf(Run(acts), id) <= 5 + LostOf(Run(acts), id)
  {
    RunPosts(acts);
    assert IdPostsOk(Run(acts), id);
  }

  /** The attempts the pending rows have left. */
  ghost function Budget(rows: Table): nat
    decreases rows.Keys
  {
    if rows == map[] then 0
    else
      var id :| id in rows;
      LeftFor(rows[id]) + Budget(rows - {id})
  }

  function LeftFor(r: Delivery): nat {
    if r.status.Pending? && r.attempts <= MAX_ATTEMPTS then MAX_ATTEMPTS - r.attempts else 0
  }

  lemma {:induction false} BudgetSplit(rows: Table, id: string)
    requires id in rows
    ensures Budget(rows) == LeftFor(rows[id]) + Budget(rows - {id})
    decreases rows.Keys
  {
    var x :| x in rows && Budget(rows) == LeftFor(rows[x]) + Budget(rows - {x});
    if x != id {
      BudgetSplit(rows - {x}, id);
      BudgetSplit(rows - {id}, x);
      assert rows - {x} - {id} == rows - {id} - {x};
    }
  }

  /** Every unskipped attempt whose write takes effect uses up budget: the attempts left over all pending rows drop. */
  lemma AttemptsUseBudget(acts: seq<Action>, exclusive: bool, t: nat, o: Outcome)
    requires Orderly(acts, exclusive) && Entitled(Run(acts), exclusive, t) && o.Applied()
    requires Run(acts).claims[t].id in Run(acts).rows
    ensures Budget(DoWrite(Run(acts), t, o).rows) < Budget(Run(acts).rows)
  {
    RunInv(acts, exclusive);
    var s := Run(acts);
    var s' := DoWrite(s, t, o);
    var id := s.claims[t].id;
    assert Current(s, s.claims[t]) && RowOk(s.rows[id]);
    BudgetSplit(s.rows, id);
    BudgetSplit(s'.rows, id);
    assert s'.rows - {id} == s.rows - {id};
  }

  // ----- the wait before the next POST

  /** Nobody holds the delivery, and until r it is not due. */
  predicate Resting(s: State, id: string, r: int) {
    s.now < r ==>
      && id in s.ids && (forall t :: t in s.claims ==> s.claims[t].id != id)
      && (id in s.rows ==> s.rows[id].status.Pending? && s.rows[id].nextRetryAt >= r)
  }

  /** Nobody holds the delivery, and nobody can claim it again. */
  predicate Over(s: State, id: string) {
    && id in s.ids && (forall t :: t in s.claims ==> s.claims[t].id != id)
    && (id in s.rows ==> !s.rows[id].status.Pending?)
  }

  lemma RestingStays(s: State, a: Action, id: string, r: int)
    requires Resting(s, id, r)
    ensures Resting(Apply(s, a), id, r) && s.now <= Apply(s, a).now
  {
    hide Exists, Backoff, PostsOf, Forget;
  }

  lemma OverStays(s: State, a: Action, id: string)
    requires Over(s, id)
    ensures Over(Apply(s, a), id)
  {
    hide Exists, Backoff, PostsOf, Forget;
  }

  lemma {:induction false} RestsOn(s: State, acts: seq<Action>, id: string, r: int)
    ensures Resting(s, id, r) ==> Resting(Exec(s, acts), id, r)
    ensures Over(s, id) ==> Over(Exec(s, acts), id)
    decreases |acts|
  {
    hide Apply, Resting, Over;
    if acts != [] {
      var mid, a := Exec(s, acts[..|acts| - 1]), acts[|acts| - 1];
      RestsOn(s, acts[..|acts| - 1], id, r);
      if Resting(s, id, r) {
        RestingStays(mid, a, id, r);
      }
      if Over(s, id) {
        OverStays(mid, a, id);
      }
    }
  }

  lemma {:induction false} ClockGrows(s: State, acts: seq<Action>)
    ensures s.now <= Exec(s, acts).now
    decreases |acts|
  {
    if acts != [] {
      ClockGrows(s, acts[..|acts| - 1]);
    }
  }

  /** The write of the only claim on a delivery leaves it at rest or over. */
  lemma WriteRests(s: State, t: nat, o: Outcome, wait: int)
    requires Inv(s, true) && t in s.claims && o.Applied() && Waits(s.claims[t].attempts + 1, wait)
    ensures var s', c := DoWrite(s, t, o), s.claims[t];
            if c.id in s.rows && c.posted != Some(true) && c.attempts + 1 < 5
            then Resting(s', c.id, s.now + wait)
            else Over(s', c.id)
  {
    var s', c := DoWrite(s, t, o), s.claims[t];
    WriteResultMeans(s.rows, c, s.now);
    assert Entitled(s, true, t);
    forall u | u in s'.claims
      ensures s'.claims[u].id != c.id
    {
      assert Entitled(s, true, u);
    }
    hide WriteResult;
  }

  lemma ExclusivePrefix(acts: seq<Action>, k: nat)
    requires Exclusive(acts) && k <= |acts|
    ensures Exclusive(acts[..k])
  {
    forall i | 0 <= i < k
      ensures GrabsFree(Run(acts[..k][..i]), acts[..k][i])
    {
      assert acts[..k][..i] == acts[..i];
    }
  }

  predicate PostsOn(s: State, u: nat, id: string) {
    u in s.claims && s.claims[u].id == id && s.claims[u].posted.None?
  }

  /** In an exclusive run a delivery is POSTed again after an attempt was recorded only if the attempt failed and was
      not the fifth, and then no sooner than one, two, four or eight seconds after the first to the fourth failure. */
  lemma NextPostWaits(acts: seq<Action>, k: nat, l: nat, t: nat, o: Outcome, u: nat)
    requires Exclusive(acts) && k < l <= |acts| && acts[k] == Write(t, o) && o.Applied()
    requires t in Run(acts[..k]).claims && PostsOn(Run(acts[..l]), u, Run(acts[..k]).claims[t].id)
    ensures var c, wait := Run(acts[..k]).claims[t], Run(acts[..l]).now - Run(acts[..k]).now;
            && c.posted != Some(true) && c.attempts < 4
            && (c.attempts == 0 ==> wait >= 1_000_000_000) && (c.attempts == 1 ==> wait >= 2_000_000_000)
            && (c.attempts == 2 ==> wait >= 4_000_000_000) && (c.attempts == 3 ==> wait >= 8_000_000_000)
  {
    hide Exec, Apply, Inv, DoWrite, Exclusive, Resting, Over;
    var s, id, n := Run(acts[..k]), Run(acts[..k]).claims[t].id, Run(acts[..k]).claims[t].attempts;
    var wait := if n == 0 then 1_000_000_000 else if n == 1 then 2_000_000_000
                else if n == 2 then 4_000_000_000 else 8_000_000_000;
    ExclusivePrefix(acts, k);
    RunInv(acts[..k], true);
    WriteRests(s, t, o, wait);
    RunAfter(acts, k, l);
    WriteApplies(s, t, o);
    RestsOn(DoWrite(s, t, o), acts[k + 1..l], id, s.now + wait);
    PostEndsRest(Run(acts[..l]), u, id, s.now + wait);
  }

  lemma RunAfter(acts: seq<Action>, k: nat, l: nat)
    requires k < l <= |acts|
    ensures Run(acts[..l]) == Exec(Apply(Run(acts[..k]), acts[k]), acts[k + 1..l])
  {
    hide Apply;
    assert acts[..l] == acts[..k] + ([acts[k]] + acts[k + 1..l]);
    ExecAppend(INIT, acts[..k], [acts[k]] + acts[k + 1..l]);
    ExecAppend(Run(acts[..k]), [acts[k]], acts[k + 1..l]);
    ExecOne(Run(acts[..k]), acts[k]);
  }

  lemma WriteApplies(s: State, t: nat, o: Outcome)
    requires t in s.claims
    ensures Apply(s, Write(t, o)) == DoWrite(s, t, o)
  {
  }

  lemma PostEndsRest(s: State, u: nat, id: string, r: int)
    requires PostsOn(s, u, id)
    ensures !Over(s, id) && (Resting(s, id, r) ==> s.now >= r)
  {
  }

  /** So two POSTs of one delivery with a recorded failure in between are at least as far apart. */
  lemma PostsApart(acts: seq<Action>, j: nat, k: nat, l: nat, t: nat, o: Outcome, u: nat)
    requires Exclusive(acts) && j <= k < l <= |acts| && acts[k] == Write(t, o) && o.Applied()
    requires t in Run(acts[..k]).claims && PostsOn(Run(acts[..l]), u, Run(acts[..k]).claims[t].id)
    ensures var n, apart := Run(acts[..k]).claims[t].attempts, Run(acts[..l]).now - Run(acts[..j]).now;
            && (n == 0 ==> apart >= 1_000_000_000) && (n == 1 ==> apart >= 2_000_000_000)
            && (n == 2 ==> apart >= 4_000_000_000) && (n == 3 ==> apart >= 8_000_000_000)
  {
    NextPostWaits(acts, k, l, t, o, u);
    assert acts[..k] == acts[..j] + acts[j..k];
    ExecAppend(INIT, acts[..j], acts[j..k]);
    ClockGrows(Run(acts[..j]), acts[j..k]);
  }
}
