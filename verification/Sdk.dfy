/** The SDK's send as a run of the pipeline machine: each POST of a batch is a request of the send, and a result of
    success is the machine's `ok`, which EndToEnd turns into exactly one stored row per event. */
module Sdk {
  import opened Options
  import opened Events
  import opened Queue
  import opened Pipeline
  import opened PipelineTheorems
  import opened Ingest
  import Batcher
  import Numbers

  /** What becomes of one POST: it never reaches a handler, is turned away by the limiter or by validation, or is
      handled; `os` and `w` are then the fates of its XADDs and its direct write, and `arrives` says whether the
      response reaches the SDK. */
  datatype PostFate =
    | Unreachable
    | Limited(retryAfter: Option<int>)
    | Refused
    | Handled(r: nat, ids: seq<string>, now: int, os: seq<Outcome>, w: Outcome, arrives: bool)

  /** The items the server decodes from a body; the SDK sends no timestamps. */
  function ItemsOf(body: seq<Batcher.Payload>): seq<Item> {
    seq(|body|, i requires 0 <= i < |body| =>
      Item(body[i].event, body[i].userId, body[i].properties, body[i].idempotencyKey, None))
  }

  /** All bodies of one send decode to the same items. */
  lemma SameItems(a: seq<Batcher.Payload>, b: seq<Batcher.Payload>, batch: seq<Batcher.QueuedEvent>)
    requires Batcher.Carries(a, batch) && Batcher.Carries(b, batch)
    ensures ItemsOf(a) == ItemsOf(b)
  {
  }

  /** The response the SDK gets to see. */
  function ResponseTo(f: PostFate): Batcher.Response {
    match f
    case Unreachable => Batcher.NetworkError
    case Limited(retryAfter) => Batcher.Http(429, retryAfter)
    case Refused => Batcher.Http(400, None)
    case Handled(_, _, _, os, _, arrives) =>
      if !arrives then Batcher.NetworkError
      else if AnyError(os) then Batcher.Http(500, None)
      else Batcher.Http(202, None)
  }

  function ResponsesTo(fs: seq<PostFate>): seq<Batcher.Response> {
    seq(|fs|, i requires 0 <= i < |fs| => ResponseTo(fs[i]))
  }

  function PostSchedule(sid: nat, f: PostFate): seq<Action> {
    if f.Handled? then [Post(f.r, sid, f.ids, f.now)] + IngestSchedule(f.r, f.os, f.w, f.arrives) else []
  }

  function SendSchedule(sid: nat, fs: seq<PostFate>): seq<Action>
    decreases |fs|
  {
    if fs == [] then [] else SendSchedule(sid, fs[..|fs| - 1]) + PostSchedule(sid, fs[|fs| - 1])
  }

  /** The server can do f to a POST of the send: a handled batch is one it accepts, under new event IDs. */
  ghost predicate Possible(s: State, sid: nat, f: PostFate) {
    sid in s.sends && (f.Handled? ==> CanAccept(s, f.r, s.sends[sid].items, f.ids) && |f.os| == |s.sends[sid].items|)
  }

  ghost predicate AllPossible(s: State, sid: nat, fs: seq<PostFate>) {
    forall k :: 0 <= k < |fs| ==> Possible(Exec(s, SendSchedule(sid, fs[..k])), sid, fs[k])
  }

  lemma PossiblePrefix(s: State, sid: nat, fs: seq<PostFate>)
    requires fs != [] && AllPossible(s, sid, fs)
    ensures AllPossible(s, sid, fs[..|fs| - 1])
    ensures Possible(Exec(s, SendSchedule(sid, fs[..|fs| - 1])), sid, fs[|fs| - 1])
  {
    hide Possible, Exec;
    var n := |fs| - 1;
    forall k | 0 <= k < n
      ensures Possible(Exec(s, SendSchedule(sid, fs[..n][..k])), sid, fs[..n][k])
    {
      assert fs[..n][..k] == fs[..k];
      assert Possible(Exec(s, SendSchedule(sid, fs[..k])), sid, fs[k]);
    }
  }

  predicate Confirms(f: PostFate) {
    f.Handled? && f.arrives && !AnyError(f.os)
  }

  predicate AnyConfirms(fs: seq<PostFate>) {
    exists k :: 0 <= k < |fs| && Confirms(fs[k])
  }

  lemma ConfirmsMeans(f: PostFate)
    ensures Confirms(f) <==> Batcher.Classify(ResponseTo(f)).Accepted?
  {
  }

  /** One POST marks the send ok exactly when its 202 arrives. */
  lemma PostRuns(s: State, sid: nat, f: PostFate)
    requires Possible(s, sid, f)
    ensures var s' := Exec(s, PostSchedule(sid, f));
            && sid in s'.sends && s'.sends[sid] == s.sends[sid].(ok := s.sends[sid].ok || Confirms(f))
  {
    if f.Handled? {
      var post := Post(f.r, sid, f.ids, f.now);
      var s1 := Apply(s, post);
      AcceptedPost(s, sid, f);
      PossibleSize(s, sid, f);
      ExecOne(s, [], post);
      assert Exec(s, []) == s && [] + [post] == [post];
      ExecConcat(s, [post], IngestSchedule(f.r, f.os, f.w, f.arrives));
      hide Apply, Exec, IngestSchedule, BuildAll, Possible;
      HandlerConfirms(s1, sid, f);
    }
  }

  /** The handler of a POST confirms its send exactly when every XADD was confirmed and the 202 arrives. */
  lemma HandlerConfirms(s: State, sid: nat, f: PostFate)
    requires f.Handled? && sid in s.sends && f.r in s.requests
    requires s.requests[f.r] == Request(s.requests[f.r].events, Publishing(0, false), Some(sid))
    requires |f.os| == |s.requests[f.r].events|
    ensures var s' := Exec(s, IngestSchedule(f.r, f.os, f.w, f.arrives));
            sid in s'.sends && s'.sends[sid] == s.sends[sid].(ok := s.sends[sid].ok || Confirms(f))
  {
    hide Exec, IngestSchedule, AnyError, InsertAll, Appended;
    IngestRuns(s, f.r, f.os, f.w, f.arrives);
  }

  lemma PossibleSize(s: State, sid: nat, f: PostFate)
    requires Possible(s, sid, f) && f.Handled?
    ensures sid in s.sends
    ensures var d := s.sends[sid];
            |f.os| == |f.ids| == |d.items| == |BuildAll(d.items, d.project, f.ids, f.now)|
  {
  }

  lemma AcceptedPost(s: State, sid: nat, f: PostFate)
    requires Possible(s, sid, f) && f.Handled?
    ensures var s', d := Apply(s, Post(f.r, sid, f.ids, f.now)), s.sends[sid];
            && s'.sends == s.sends && f.r in s'.requests
            && s'.requests[f.r] == Request(BuildAll(d.items, d.project, f.ids, f.now), Publishing(0, false), Some(sid))
  {
  }

  lemma {:induction false} SendRuns(s: State, sid: nat, fs: seq<PostFate>)
    requires sid in s.sends && AllPossible(s, sid, fs)
    ensures var s' := Exec(s, SendSchedule(sid, fs));
            && sid in s'.sends
            && s'.sends[sid] == s.sends[sid].(ok := s.sends[sid].ok || AnyConfirms(fs))
    decreases |fs|
  {
    hide Apply, Confirms, PostSchedule, Possible, AllPossible;
    if fs != [] {
      var n := |fs| - 1;
      PossiblePrefix(s, sid, fs);
      SendRuns(s, sid, fs[..n]);
      var mid := Exec(s, SendSchedule(sid, fs[..n]));
      PostRuns(mid, sid, fs[n]);
      ExecConcat(s, SendSchedule(sid, fs[..n]), PostSchedule(sid, fs[n]));
      ConfirmsMore(fs);
    }
  }

  lemma ConfirmsMore(fs: seq<PostFate>)
    requires fs != []
    ensures AnyConfirms(fs) <==> AnyConfirms(fs[..|fs| - 1]) || Confirms(fs[|fs| - 1])
  {
    hide Confirms;
    var n := |fs| - 1;
    if k :| 0 <= k < |fs| && Confirms(fs[k]) {
      assert k < n ==> fs[..n][k] == fs[k];
    }
    if k :| 0 <= k < n && Confirms(fs[..n][k]) {
      assert fs[k] == fs[..n][k];
    }
  }

  /** The POSTs of a send are those its retry loop makes. */
  predicate IsSend(c: Batcher.Config, fs: seq<PostFate>) {
    |fs| == Batcher.LastAttempt(ResponsesTo(fs), c.maxRetries, 0) + 1
  }

  /** Some POST is confirmed if and only if the last one is, which is when the SDK reports the batch as sent. */
  lemma ResultIsLast(c: Batcher.Config, batch: seq<Batcher.QueuedEvent>, fs: seq<PostFate>)
    requires IsSend(c, fs) && batch != []
    ensures AnyConfirms(fs) <==>
            Batcher.DeliveryOf(c, batch, ResponsesTo(fs)).result.sent == |batch|
  {
    hide Confirms;
    var replies, n := ResponsesTo(fs), |fs| - 1;
    Batcher.LastAttemptMeans(replies, c.maxRetries, 0, n);
    forall k | 0 <= k < |fs|
      ensures Confirms(fs[k]) <==> Batcher.Classify(Batcher.Reply(replies, k)).Accepted?
    {
      ConfirmsMeans(fs[k]);
    }
  }

  /** The SDK posts again only after a request or response that got lost or a failed XADD; the limiter's refusal ends
      the send and its wait is what the caller is told. */
  lemma OnlyTroubleIsRetried(c: Batcher.Config, batch: seq<Batcher.QueuedEvent>, fs: seq<PostFate>, k: nat)
    requires IsSend(c, fs) && k < |fs|
    ensures var lost := fs[k].Unreachable? || (fs[k].Handled? && (!fs[k].arrives || AnyError(fs[k].os)));
            var wait := Batcher.DeliveryOf(c, batch, ResponsesTo(fs)).result.rateLimitSeconds;
            && (k < |fs| - 1 ==> lost)
            && (k == |fs| - 1 && lost ==> |fs| >= c.maxRetries)
            && (fs[k].Limited? ==>
                  && k == |fs| - 1 && wait.Some?
                  && (fs[k].retryAfter.Some? && fs[k].retryAfter.value > 0 ==> wait == fs[k].retryAfter))
            && (k == |fs| - 1 && !fs[k].Limited? ==> wait == None)
  {
    hide Numbers.Pow2;
    Batcher.DeliveryAccounts(c, batch, ResponsesTo(fs));
    assert Batcher.Reply(ResponsesTo(fs), k) == ResponseTo(fs[k]);
  }

  /** The SDK reports a batch as sent exactly when the machine's send is ok. */
  lemma SentMeansOk(s: State, sid: nat, batch: seq<Batcher.QueuedEvent>, c: Batcher.Config, fs: seq<PostFate>)
    requires sid in s.sends && !s.sends[sid].ok && AllPossible(s, sid, fs) && IsSend(c, fs) && batch != []
    ensures var s' := Exec(s, SendSchedule(sid, fs));
            && sid in s'.sends
            && (s'.sends[sid].ok <==> Batcher.DeliveryOf(c, batch, ResponsesTo(fs)).result.sent == |batch|)
  {
    SendRuns(s, sid, fs);
    ResultIsLast(c, batch, fs);
    hide Exec, Confirms;
  }

  // ----- what a reported success is worth

  /** A send stays, with its events; once ok it stays ok. */
  predicate Stays(s: State, s': State, sid: nat) {
    sid in s.sends ==>
      && sid in s'.sends && s'.sends[sid].project == s.sends[sid].project && s'.sends[sid].items == s.sends[sid].items
      && (s.sends[sid].ok ==> s'.sends[sid].ok)
  }

  lemma SendStays(s: State, a: Action, sid: nat)
    ensures Stays(s, Apply(s, a), sid)
  {
    if OfWorker(a) {
      WorkerKeepsSends(s, a);
    }
    hide ApplyWorker;
  }

  lemma WorkerKeepsSends(s: State, a: Action)
    requires OfWorker(a)
    ensures ApplyWorker(s, a).sends == s.sends
  {
    hide DoStep, Deliver, Redeliver, Report, Times;
    if a.Do? && Flying(s, a.t) {
      StepKeepsSends(s, a.t, a.o);
    }
  }

  lemma StepKeepsSends(s: State, t: nat, o: Outcome)
    requires Flying(s, t)
    ensures DoStep(s, t, o).sends == s.sends
  {
    hide DoEnqueue, DoCount, DoDau, Insert, HeaderProject, Acknowledge, FateOf;
    if Handling(s, t) {
      SideKeepsSends(s, t, o);
    }
  }

  lemma SideKeepsSends(s: State, t: nat, o: Outcome)
    requires Handling(s, t)
    ensures DoEnqueue(s, t, o).sends == DoCount(s, t, o).sends == DoDau(s, t, o).sends == s.sends
  {
    hide PairsOf, ActiveOf, Bump, CountKeyOf, MissedBy;
  }

  lemma {:induction false} SendsStay(s: State, acts: seq<Action>, sid: nat)
    ensures Stays(s, Exec(s, acts), sid)
    decreases |acts|
  {
    hide Apply;
    if acts != [] {
      SendsStay(s, acts[..|acts| - 1], sid);
      SendStays(Exec(s, acts[..|acts| - 1]), acts[|acts| - 1], sid);
    }
  }

  /** The keys of the batch are new, each event's its own: random UUIDs. */
  ghost predicate Fresh(s: State, sid: nat, batch: seq<Batcher.QueuedEvent>) {
    && sid !in s.sends && Batcher.DistinctKeys(batch)
    && forall i :: 0 <= i < |batch| ==> batch[i].idempotencyKey !in s.usedKeys
  }

  lemma FreshCanTrack(s: State, sid: nat, batch: seq<Batcher.QueuedEvent>, body: seq<Batcher.Payload>)
    requires Fresh(s, sid, batch) && Batcher.Carries(body, batch)
    ensures CanTrack(s, sid, ItemsOf(body))
  {
  }

  /** After a send that the SDK reports as successful, whatever happens next, each of its events is on the stream and
      has at most one row, which carries that event, and exactly one as soon as a message of it is acknowledged on the
      store path. `bodies` is what the send put on the wire, and all that the server learns of the batch. */
  lemma SentIsStoredOnce(pg: Server, before: seq<Action>, sid: nat, project: string,
                         batch: seq<Batcher.QueuedEvent>, bodies: seq<seq<Batcher.Payload>>, c: Batcher.Config,
                         fs: seq<PostFate>, more: seq<Action>, k: nat)
    requires Fresh(Run(pg, before), sid, batch) && k < |batch|
    requires IsSend(c, fs) && Batcher.Posted([], bodies, batch, |fs|)
    requires AllPossible(Run(pg, before + [Track(sid, project, ItemsOf(bodies[0]))]), sid, fs)
    requires Batcher.DeliveryOf(c, batch, ResponsesTo(fs)).result.sent == |batch|
    ensures var s := Run(pg, before + [Track(sid, project, ItemsOf(bodies[0]))] + SendSchedule(sid, fs) + more);
            var e := batch[k];
            var stored := RowsOf(s, project, e.idempotencyKey);
            && |stored| <= 1
            && (forall i :: i in stored ==> StoredAs(s.db.rows[i], e))
            && OnStream(s, project, e.idempotencyKey)
            && (AnyStoreAcked(s, project, e.idempotencyKey) ==> |stored| == 1)
            && sid in s.sends && forall j :: 0 <= j < |bodies| ==> ItemsOf(bodies[j]) == s.sends[sid].items
  {
    hide Apply, CanTrack, Fresh, AllPossible, IsSend, RowsOf, AnyStoreAcked, OnStream, TrimSpace, Trimmed;
    var items := ItemsOf(bodies[0]);
    var track := Track(sid, project, items);
    FreshCanTrack(Run(pg, before), sid, batch, bodies[0]);
    ExecOne(Init(pg), before, track);
    Tracked(Run(pg, before), sid, project, items);
    var s1 := Run(pg, before + [track]);
    SentMeansOk(s1, sid, batch, c, fs);
    var acts := before + [track] + SendSchedule(sid, fs);
    ExecConcat(Init(pg), before + [track], SendSchedule(sid, fs));
    SendsStay(s1, SendSchedule(sid, fs), sid);
    ExecConcat(Init(pg), acts, more);
    SendsStay(Run(pg, acts), more, sid);
    EndToEnd(pg, acts + more, sid, k);
    forall j | 0 <= j < |bodies|
      ensures ItemsOf(bodies[j]) == items
    {
      SameItems(bodies[j], bodies[0], batch);
    }
  }

  /** A row holds an SDK event: its name trimmed, its user or NULL, its properties, and the time it was received. */
  ghost predicate StoredAs(r: Row, e: Batcher.QueuedEvent) {
    && Trimmed(r.name, e.event) && r.user == (if e.userId == "" then None else Some(e.userId))
    && r.properties == e.properties && r.timestamp == r.receivedAt
  }

  lemma Tracked(s: State, sid: nat, project: string, items: seq<Item>)
    requires CanTrack(s, sid, items)
    ensures var s' := Apply(s, Track(sid, project, items));
            sid in s'.sends && s'.sends[sid] == Send(project, items, false)
  {
  }

  // ----- oversized batches

  /** No handler accepts more than a hundred events, so no POST of a larger batch is ever handled. */
  lemma OversizedIsNeverHandled(s: State, sid: nat, f: PostFate)
    requires Possible(s, sid, f) && |s.sends[sid].items| > 100
    ensures !f.Handled?
  {
  }

  /** A batch above a hundred events is lost whole: nothing of it is published, nothing is reported sent, and the first
      400 ends the send. */
  lemma OversizedIsLost(s: State, sid: nat, batch: seq<Batcher.QueuedEvent>, body: seq<Batcher.Payload>,
                        c: Batcher.Config, fs: seq<PostFate>)
    requires Batcher.Carries(body, batch) && |batch| > 100
    requires sid in s.sends && s.sends[sid].items == ItemsOf(body)
    requires AllPossible(s, sid, fs) && IsSend(c, fs)
    ensures Exec(s, SendSchedule(sid, fs)) == s
    ensures Batcher.DeliveryOf(c, batch, ResponsesTo(fs)).result.sent == 0
    ensures forall k | 0 <= k < |fs| && fs[k].Refused? :: k == |fs| - 1
  {
    hide Exec, Possible, AllPossible, Batcher.ResultOf, Numbers.Pow2;
    NoneHandled(s, sid, fs);
    var replies, n := ResponsesTo(fs), |fs| - 1;
    Batcher.LastAttemptMeans(replies, c.maxRetries, 0, n);
    forall k | 0 <= k < |fs| && fs[k].Refused?
      ensures k == n
    {
      assert Batcher.Reply(replies, k) == Batcher.Http(400, None);
    }
    assert Batcher.Reply(replies, n) == ResponseTo(fs[n]);
    NotSent(|batch|, Batcher.Classify(ResponseTo(fs[n])));
  }

  lemma NotSent(size: nat, r: Batcher.PostResult)
    requires !r.Accepted?
    ensures Batcher.ResultOf(size, r).sent == 0
  {
  }

  lemma {:induction false} NoneHandled(s: State, sid: nat, fs: seq<PostFate>)
    requires sid in s.sends && |s.sends[sid].items| > 100 && AllPossible(s, sid, fs)
    ensures Exec(s, SendSchedule(sid, fs)) == s && forall k :: 0 <= k < |fs| ==> !fs[k].Handled?
    decreases |fs|
  {
    hide Apply, Possible, AllPossible, IngestSchedule;
    if fs != [] {
      PossiblePrefix(s, sid, fs);
      NoneHandled(s, sid, fs[..|fs| - 1]);
      OversizedIsNeverHandled(s, sid, fs[|fs| - 1]);
      assert SendSchedule(sid, fs) == SendSchedule(sid, fs[..|fs| - 1]);
    }
  }
}
