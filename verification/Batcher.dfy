/** sdk/src/batcher.ts and sdk/src/retry.ts: the queue, the one flush in flight, and the retried POST of a batch. */
module Batcher {
  import opened Options
  import opened Numbers

  const BASE_DELAY_MS := 1000
  const DEFAULT_RETRY_AFTER := 60

  datatype QueuedEvent =
    QueuedEvent(event: string, userId: string, properties: Option<string>, idempotencyKey: string)

  /** A member of the body's events array. */
  datatype Payload = Payload(event: string, userId: string, properties: Option<string>, idempotencyKey: string)

  /** What one fetch comes to; `retryAfter` is the header as parseInt reads it, None for NaN. */
  datatype Response = NetworkError | Http(status: int, retryAfter: Option<int>)

  datatype PostResult = Accepted | Retryable | RateLimited(seconds: int) | Fatal

  datatype FlushResult = FlushResult(sent: nat, failed: nat, rateLimitSeconds: Option<int>)

  /** How the send of one batch went. */
  datatype Delivery = Delivery(result: FlushResult, posts: nat, slept: nat)

  datatype Config = Config(maxQueueSize: int, maxRetries: int)

  function Payloads(batch: seq<QueuedEvent>): seq<Payload> {
    seq(|batch|, i requires 0 <= i < |batch| =>
      Payload(batch[i].event, batch[i].userId, batch[i].properties, batch[i].idempotencyKey))
  }

  /** A body's events are the batch's, each with its user and properties and under its own key. */
  predicate Carries(body: seq<Payload>, batch: seq<QueuedEvent>) {
    && |body| == |batch|
    && forall i :: 0 <= i < |batch| ==>
         && body[i].event == batch[i].event && body[i].userId == batch[i].userId
         && body[i].properties == batch[i].properties && body[i].idempotencyKey == batch[i].idempotencyKey
  }

  /** What a send adds to the bodies the endpoint was sent: n more, each carrying the batch. */
  predicate Posted(before: seq<seq<Payload>>, after: seq<seq<Payload>>, batch: seq<QueuedEvent>, n: nat) {
    && |after| == |before| + n && after[..|before|] == before
    && forall k :: |before| <= k < |after| ==> Carries(after[k], batch)
  }

  function Classify(r: Response): PostResult {
    match r
    case NetworkError => Retryable
    case Http(status, retryAfter) =>
      if 200 <= status < 300 then Accepted
      else if status == 429 then
        RateLimited(if retryAfter.Some? && retryAfter.value > 0 then retryAfter.value else DEFAULT_RETRY_AFTER)
      else if status >= 500 then Retryable
      else Fatal
  }

  /** 2xx succeeds; 429 backs off by its Retry-After if that is a positive number and by a minute otherwise; a network
      error and a status of 500 or more are worth a retry; nothing else is. */
  lemma ClassifyMeans(r: Response)
    ensures var result := Classify(r);
            && (result.Accepted? <==> r.Http? && 200 <= r.status <= 299)
            && (result.RateLimited? <==> r.Http? && r.status == 429)
            && (result.Retryable? <==> Temporary(r))
            && (result.RateLimited? ==>
                  if r.retryAfter.Some? && r.retryAfter.value >= 1 then result.seconds == r.retryAfter.value
                  else result.seconds == 60)
  {
  }

  // ----- retries

  /** The response to the k-th POST of a send; a script that has run out is a dead network. */
  function Reply(replies: seq<Response>, k: nat): Response {
    if k < |replies| then replies[k] else NetworkError
  }

  /** The POST that ends the loop, from attempt k on. */
  function LastAttempt(replies: seq<Response>, maxAttempts: int, k: nat): nat
    decreases maxAttempts - k
  {
    if Classify(Reply(replies, k)).Retryable? && k < maxAttempts - 1
    then LastAttempt(replies, maxAttempts, k + 1) else k
  }

  function Allowed(maxAttempts: int): nat {
    if maxAttempts < 1 then 1 else maxAttempts
  }

  /** The loop stops at the first response that is not retryable, or at the last attempt allowed. */
  lemma {:induction false} LastAttemptMeans(replies: seq<Response>, maxAttempts: int, k: nat, n: nat)
    requires k < Allowed(maxAttempts)
    ensures LastAttempt(replies, maxAttempts, k) == n <==>
            && k <= n < Allowed(maxAttempts)
            && (forall i :: k <= i < n ==> Classify(Reply(replies, i)).Retryable?)
            && (Classify(Reply(replies, n)).Retryable? ==> n == Allowed(maxAttempts) - 1)
    decreases maxAttempts - k
  {
    if Classify(Reply(replies, k)).Retryable? && k < maxAttempts - 1 {
      LastAttemptMeans(replies, maxAttempts, k + 1, n);
    }
  }

  function ResultOf(size: nat, r: PostResult): FlushResult {
    match r
    case Accepted => FlushResult(size, 0, None)
    case RateLimited(seconds) => FlushResult(0, size, Some(seconds))
    case _ => FlushResult(0, size, None)
  }

  function DeliveryOf(c: Config, batch: seq<QueuedEvent>, replies: seq<Response>): Delivery {
    var n := LastAttempt(replies, c.maxRetries, 0);
    Delivery(ResultOf(|batch|, Classify(Reply(replies, n))), n + 1, BASE_DELAY_MS * (Pow2(n) - 1))
  }

  /** Everything in a batch is sent or everything failed. It was sent exactly when some response within the limit was a
      success and only retryable ones came before it; otherwise the last response says why not, and the waits between
      the POSTs are 1, 2, 4, ... seconds. */
  lemma DeliveryAccounts(c: Config, batch: seq<QueuedEvent>, replies: seq<Response>)
    ensures var d := DeliveryOf(c, batch, replies);
            var last := Reply(replies, d.posts - 1);
            && (d.result.sent == 0 || d.result.sent == |batch|) && d.result.sent + d.result.failed == |batch|
            && d.posts >= 1 && (d.posts == 1 || d.posts <= c.maxRetries)
            && (forall i :: 0 <= i < d.posts - 1 ==> Temporary(Reply(replies, i)))
            && (Temporary(last) ==> d.posts >= c.maxRetries)
            && (d.result.rateLimitSeconds.Some? <==> last.Http? && last.status == 429)
            && (d.result.rateLimitSeconds.Some? ==>
                  d.result.rateLimitSeconds.value ==
                  if last.retryAfter.Some? && last.retryAfter.value > 0 then last.retryAfter.value else 60)
            && d.slept == 1000 * (Pow2(d.posts - 1) - 1)
            && (batch != [] ==> (d.result.sent == |batch| <==> SucceedsWithin(replies, Allowed(c.maxRetries))))
  {
    var n := LastAttempt(replies, c.maxRetries, 0);
    LastAttemptMeans(replies, c.maxRetries, 0, n);
    forall i
      ensures Classify(Reply(replies, i)).Retryable? <==> Temporary(Reply(replies, i))
    {
    }
    if SucceedsWithin(replies, Allowed(c.maxRetries)) {
      var k :| 0 <= k < Allowed(c.maxRetries) && SucceedsAt(replies, k);
      LastAttemptMeans(replies, c.maxRetries, 0, k);
    }
    if Classify(Reply(replies, n)).Accepted? {
      assert SucceedsAt(replies, n);
    }
  }

  /** No answer, or an answer with a status of 500 or more. */
  predicate Temporary(r: Response) {
    r.NetworkError? || r.status >= 500
  }

  predicate SucceedsAt(replies: seq<Response>, k: nat) {
    && Reply(replies, k).Http? && 200 <= Reply(replies, k).status < 300
    && forall i :: 0 <= i < k ==> Temporary(Reply(replies, i))
  }

  predicate SucceedsWithin(replies: seq<Response>, limit: nat) {
    exists k :: 0 <= k < limit && SucceedsAt(replies, k)
  }

  // ----- the batcher over time

  /** `enqueued`, `flushed` and `deliveries` are histories: all events ever queued, all batches a flush took, and how
      the settled ones went. */
  datatype State = State(
    queue: seq<QueuedEvent>, inFlight: Option<seq<QueuedEvent>>, timer: bool,
    enqueued: seq<QueuedEvent>, flushed: seq<seq<QueuedEvent>>, deliveries: seq<Delivery>)

  const START := State([], None, true, [], [], [])

  datatype Op = Enqueue(e: QueuedEvent) | Flush | Tick | Settle(replies: seq<Response>) | Destroy

  function FlushStep(s: State): State {
    if s.inFlight.Some? || s.queue == [] then s
    else s.(queue := [], inFlight := Some(s.queue), flushed := s.flushed + [s.queue])
  }

  function Apply(c: Config, s: State, op: Op): State {
    match op
    case Enqueue(e) =>
      var s' := s.(queue := s.queue + [e], enqueued := s.enqueued + [e]);
      if |s'.queue| >= c.maxQueueSize then FlushStep(s') else s'
    case Flush => FlushStep(s)
    case Tick => if s.timer then FlushStep(s) else s
    case Settle(replies) =>
      if s.inFlight.None? then s
      else s.(inFlight := None, deliveries := s.deliveries + [DeliveryOf(c, s.inFlight.value, replies)])
    case Destroy => s.(timer := false)
  }

  function Run(c: Config, ops: seq<Op>): State
    decreases |ops|
  {
    if ops == [] then START else Apply(c, Run(c, ops[..|ops| - 1]), ops[|ops| - 1])
  }

  function Flatten(batches: seq<seq<QueuedEvent>>): seq<QueuedEvent>
    decreases |batches|
  {
    if batches == [] then [] else Flatten(batches[..|batches| - 1]) + batches[|batches| - 1]
  }

  predicate Inv(c: Config, s: State) {
    && s.enqueued == Flatten(s.flushed) + s.queue
    && |s.flushed| == |s.deliveries| + (if s.inFlight.Some? then 1 else 0)
    && (s.inFlight.Some? ==> s.inFlight.value == s.flushed[|s.flushed| - 1])
    && (forall i :: 0 <= i < |s.flushed| ==> s.flushed[i] != [])
    && (forall i :: 0 <= i < |s.deliveries| ==> Settled(c, s.flushed[i], s.deliveries[i]))
  }

  predicate Settled(c: Config, batch: seq<QueuedEvent>, d: Delivery) {
    d.result.sent + d.result.failed == |batch| && 1 <= d.posts <= Allowed(c.maxRetries)
  }

  lemma FlushKeeps(c: Config, s: State)
    requires Inv(c, s)
    ensures Inv(c, FlushStep(s))
  {
  }

  lemma ApplyKeeps(c: Config, s: State, op: Op)
    requires Inv(c, s)
    ensures Inv(c, Apply(c, s, op))
  {
    match op
    case Enqueue(e) =>
      var s' := s.(queue := s.queue + [e], enqueued := s.enqueued + [e]);
      assert Inv(c, s');
      FlushKeeps(c, s');
    case Flush => FlushKeeps(c, s);
    case Tick => FlushKeeps(c, s);
    case Settle(replies) =>
      if s.inFlight.Some? {
        DeliveryAccounts(c, s.inFlight.value, replies);
      }
    case Destroy =>
  }

  /** In every state the events ever queued are the flushed batches in order and then the queue; each batch but one in
      flight has been accounted for in full. */
  lemma {:induction false} Conservation(c: Config, ops: seq<Op>)
    ensures Inv(c, Run(c, ops))
    decreases |ops|
  {
    if ops != [] {
      Conservation(c, ops[..|ops| - 1]);
      ApplyKeeps(c, Run(c, ops[..|ops| - 1]), ops[|ops| - 1]);
    }
  }

  /** Once an event is queued, the queue is below its limit unless a flush is in flight. */
  lemma QueueStaysBelowLimit(c: Config, ops: seq<Op>, e: QueuedEvent)
    ensures var s := Run(c, ops + [Enqueue(e)]); s.inFlight.None? ==> |s.queue| < c.maxQueueSize
  {
  }

  // ----- how large a batch gets

  predicate TakesBatch(c: Config, s: State, op: Op) {
    Apply(c, s, op).flushed != s.flushed
  }

  /** The number of events queued since the last batch was taken. */
  function Waiting(c: Config, ops: seq<Op>): nat
    decreases |ops|
  {
    if ops == [] then 0
    else
      var n := |ops| - 1;
      if TakesBatch(c, Run(c, ops[..n]), ops[n]) then 0
      else Waiting(c, ops[..n]) + if ops[n].Enqueue? then 1 else 0
  }

  lemma {:induction false} WaitingIsQueue(c: Config, ops: seq<Op>)
    ensures |Run(c, ops).queue| == Waiting(c, ops)
    decreases |ops|
  {
    if ops != [] {
      var n := |ops| - 1;
      WaitingIsQueue(c, ops[..n]);
    }
  }

  /** A batch exceeds the limit if and only if more events than the limit were queued since the last one was taken: it
      is exactly those events. */
  lemma BatchExceedsLimitExactly(c: Config, ops: seq<Op>, op: Op)
    requires TakesBatch(c, Run(c, ops), op)
    ensures var batch := Apply(c, Run(c, ops), op).flushed[|Run(c, ops).flushed|];
            var queued := Waiting(c, ops) + if op.Enqueue? then 1 else 0;
            |batch| == queued && (|batch| > c.maxQueueSize <==> queued > c.maxQueueSize)
  {
    WaitingIsQueue(c, ops);
  }

  /** The n-th operation filled the queue while a flush was in flight, and no batch was taken since. */
  predicate FilledInFlight(c: Config, ops: seq<Op>, n: nat) {
    && n < |ops| && ops[n].Enqueue?
    && var s := Run(c, ops[..n + 1]);
       s.inFlight.Some? && |s.queue| == c.maxQueueSize && s.flushed == Run(c, ops).flushed
  }

  /** A batch above the limit was already full while the flush before it was in flight. */
  lemma OversizeNeedsFlight(c: Config, ops: seq<Op>, op: Op)
    requires c.maxQueueSize >= 1 && TakesBatch(c, Run(c, ops), op)
    requires |Apply(c, Run(c, ops), op).flushed[|Run(c, ops).flushed|]| > c.maxQueueSize
    ensures exists n :: FilledInFlight(c, ops, n)
  {
    var n := FullQueue(c, ops);
  }

  lemma {:induction false} FullQueue(c: Config, ops: seq<Op>) returns (n: nat)
    requires c.maxQueueSize >= 1 && |Run(c, ops).queue| >= c.maxQueueSize
    ensures FilledInFlight(c, ops, n)
    decreases |ops|
  {
    var last := |ops| - 1;
    var before := Run(c, ops[..last]);
    if |before.queue| >= c.maxQueueSize {
      n := FullQueue(c, ops[..last]);
      assert ops[..last][..n + 1] == ops[..n + 1];
    } else {
      n := last;
      assert ops[..n + 1] == ops;
    }
  }

  /** Whatever the limit, batches of every size occur: events queued during a flush pile up. */
  lemma AnySizeOccurs(c: Config, e: QueuedEvent, size: nat) returns (ops: seq<Op>)
    requires size >= 1
    ensures var s := Run(c, ops); s.inFlight.Some? && |s.inFlight.value| == size
  {
    var piled := PileUp(c, e, size);
    ops := piled + [Settle([]), Flush];
    assert ops[..|ops| - 1] == piled + [Settle([])];
    assert (piled + [Settle([])])[..|piled|] == piled;
  }

  lemma {:induction false} PileUp(c: Config, e: QueuedEvent, size: nat) returns (ops: seq<Op>)
    ensures var s := Run(c, ops); s.inFlight.Some? && |s.queue| == size
  {
    if size == 0 {
      ops := [Enqueue(e), Flush];
      assert ops[..1] == [Enqueue(e)] && ops[..1][..0] == [];
      var first := Apply(c, START, Enqueue(e));
      assert Run(c, ops[..1]) == first && Run(c, ops) == FlushStep(first);
      assert first.inFlight.None? ==> first.queue == [e];
    } else {
      var before := PileUp(c, e, size - 1);
      ops := before + [Enqueue(e)];
      assert ops[..|before|] == before;
    }
  }

  /** A batch the server refuses with a client error is lost at the first POST. */
  lemma ClientErrorLosesBatch(c: Config, batch: seq<QueuedEvent>, replies: seq<Response>)
    requires Reply(replies, 0).Http? && 400 <= Reply(replies, 0).status < 500 && Reply(replies, 0).status != 429
    ensures DeliveryOf(c, batch, replies) == Delivery(FlushResult(0, |batch|, None), 1, 0)
  {
    LastAttemptMeans(replies, c.maxRetries, 0, 0);
  }

  predicate DistinctKeys(events: seq<QueuedEvent>) {
    forall i, j :: 0 <= i < j < |events| ==> events[i].idempotencyKey != events[j].idempotencyKey
  }

  predicate InBatch(batch: seq<QueuedEvent>, key: string) {
    exists i :: 0 <= i < |batch| && batch[i].idempotencyKey == key
  }

  /** With fresh keys no key is in two batches, so a key is POSTed again only by retries of its own batch. */
  lemma KeysStayInOneBatch(c: Config, ops: seq<Op>, i: nat, j: nat, key: string)
    requires var s := Run(c, ops); DistinctKeys(s.enqueued) && i < j < |s.flushed|
    requires InBatch(Run(c, ops).flushed[i], key)
    ensures !InBatch(Run(c, ops).flushed[j], key)
  {
    var s := Run(c, ops);
    Conservation(c, ops);
    var all := Flatten(s.flushed);
    assert forall k :: 0 <= k < |all| ==> s.enqueued[k] == all[k];
    BatchesShareNoKey(s.flushed, i, j, key);
  }

  lemma BatchesShareNoKey(batches: seq<seq<QueuedEvent>>, i: nat, j: nat, key: string)
    requires DistinctKeys(Flatten(batches)) && i < j < |batches| && InBatch(batches[i], key)
    ensures !InBatch(batches[j], key)
  {
    hide InBatch, Flatten;
    assert |Flatten(batches[..i])| + |batches[i]| <= |Flatten(batches[..j])| by {
      BatchPlace(batches[..j], i);
      assert batches[..j][..i] == batches[..i] && batches[..j][i] == batches[i];
    }
    var a := KeyPlace(batches, i, key);
    if InBatch(batches[j], key) {
      var b := KeyPlace(batches, j, key);
    }
  }

  lemma KeyPlace(batches: seq<seq<QueuedEvent>>, i: nat, key: string) returns (at: nat)
    requires i < |batches| && InBatch(batches[i], key)
    ensures |Flatten(batches[..i])| <= at < |Flatten(batches[..i])| + |batches[i]|
    ensures at < |Flatten(batches)| && Flatten(batches)[at].idempotencyKey == key
  {
    BatchPlace(batches, i);
    var all, start := Flatten(batches), |Flatten(batches[..i])|;
    var x :| 0 <= x < |batches[i]| && batches[i][x].idempotencyKey == key;
    at := start + x;
    assert all[at] == all[start..start + |batches[i]|][x];
  }

  lemma {:induction false} BatchPlace(batches: seq<seq<QueuedEvent>>, i: nat)
    requires i < |batches|
    ensures var all, a := Flatten(batches), |Flatten(batches[..i])|;
            a + |batches[i]| <= |all| && all[a..a + |batches[i]|] == batches[i]
    decreases |batches|
  {
    var n := |batches| - 1;
    if i < n {
      BatchPlace(batches[..n], i);
      assert batches[..n][..i] == batches[..i];
    }
  }

  // ----- the code

  /** The ingest endpoint, with the bodies it was sent. */
  class Endpoint {
    var bodies: seq<seq<Payload>>

    constructor ()
      ensures bodies == []
    {
      bodies := [];
    }

    method Fetch(events: seq<Payload>, response: Response) returns (r: Response)
      modifies this
      ensures bodies == old(bodies) + [events] && r == response
    {
      bodies := bodies + [events];
      r := response;
    }
  }

  function Repeat(body: seq<Payload>, n: nat): seq<seq<Payload>> {
    seq(n, _ => body)
  }

  class AutoBatcher {
    const config: Config
    const endpoint: Endpoint
    var queue: seq<QueuedEvent>
    var timer: bool
    var flushInFlight: Option<seq<QueuedEvent>>
    ghost var enqueued: seq<QueuedEvent>
    ghost var flushed: seq<seq<QueuedEvent>>
    ghost var deliveries: seq<Delivery>

    constructor (config: Config, endpoint: Endpoint)
      ensures this.config == config && this.endpoint == endpoint && Value() == START
    {
      this.config, this.endpoint := config, endpoint;
      queue, timer, flushInFlight := [], true, None;
      enqueued, flushed, deliveries := [], [], [];
    }

    ghost function Value(): State
      reads this
    {
      State(queue, flushInFlight, timer, enqueued, flushed, deliveries)
    }

    method Add(event: QueuedEvent)
      modifies this
      ensures Value() == Apply(config, old(Value()), Enqueue(event))
      ensures var all := old(queue) + [event];
              if |all| >= config.maxQueueSize && old(flushInFlight).None?
              then queue == [] && flushInFlight == Some(all)
              else queue == all && flushInFlight == old(flushInFlight)
      ensures timer == old(timer)
    {
      queue := queue + [event];
      enqueued := enqueued + [event];
      if |queue| >= config.maxQueueSize {
        var _ := StartFlush();
      }
    }

    /** The batch whose result the caller will see, if any; concurrent callers share it. */
    method StartFlush() returns (promised: Option<seq<QueuedEvent>>)
      modifies this
      ensures Value() == FlushStep(old(Value()))
      ensures if old(flushInFlight).None? && old(queue) != []
              then queue == [] && flushInFlight == Some(old(queue))
              else queue == old(queue) && flushInFlight == old(flushInFlight)
      ensures promised == flushInFlight && timer == old(timer)
    {
      if flushInFlight.Some? {
        return flushInFlight;
      }
      var batch := queue;
      queue := [];
      if |batch| == 0 {
        return None;
      }
      flushInFlight := Some(batch);
      flushed := flushed + [batch];
      return flushInFlight;
    }

    method OnTimer()
      modifies this
      ensures Value() == Apply(config, old(Value()), Tick)
      ensures if old(timer) && old(flushInFlight).None? && old(queue) != []
              then queue == [] && flushInFlight == Some(old(queue))
              else queue == old(queue) && flushInFlight == old(flushInFlight)
      ensures timer == old(timer)
    {
      if timer {
        var _ := StartFlush();
      }
    }

    method Stop()
      modifies this
      ensures Value() == Apply(config, old(Value()), Destroy)
      ensures !timer && queue == old(queue) && flushInFlight == old(flushInFlight)
    {
      timer := false;
    }

    /** The flush in flight runs to its end. */
    method FinishFlush(replies: seq<Response>) returns (d: Delivery)
      requires flushInFlight.Some?
      modifies this, endpoint
      ensures Value() == Apply(config, old(Value()), Settle(replies))
      ensures flushInFlight == None && queue == old(queue) && timer == old(timer)
      ensures d == DeliveryOf(config, old(flushInFlight).value, replies)
      ensures Posted(old(endpoint.bodies), endpoint.bodies, old(flushInFlight).value, d.posts)
    {
      d := Send(flushInFlight.value, replies);
      deliveries := deliveries + [d];
      flushInFlight := None;
    }

    /** Sends a given batch past the queue. */
    method SendBatch(events: seq<QueuedEvent>, replies: seq<Response>) returns (d: Delivery)
      modifies endpoint
      ensures if events == []
              then d == Delivery(FlushResult(0, 0, None), 0, 0) && endpoint.bodies == old(endpoint.bodies)
              else && d == DeliveryOf(config, events, replies)
                   && Posted(old(endpoint.bodies), endpoint.bodies, events, d.posts)
    {
      if |events| == 0 {
        return Delivery(FlushResult(0, 0, None), 0, 0);
      }
      d := Send(events, replies);
    }

    /** Every POST of a batch carries the same events under the same keys. */
    method Send(batch: seq<QueuedEvent>, replies: seq<Response>) returns (d: Delivery)
      modifies endpoint
      ensures d == DeliveryOf(config, batch, replies)
      ensures Posted(old(endpoint.bodies), endpoint.bodies, batch, d.posts)
    {
      var payload := Payloads(batch);
      var result, posts, slept := WithRetry(payload, replies, config.maxRetries, BASE_DELAY_MS);
      if result.Accepted? {
        return Delivery(FlushResult(|batch|, 0, None), posts, slept);
      }
      if result.RateLimited? {
        return Delivery(FlushResult(0, |batch|, Some(result.seconds)), posts, slept);
      }
      return Delivery(FlushResult(0, |batch|, None), posts, slept);
    }

    method WithRetry(payload: seq<Payload>, replies: seq<Response>, maxAttempts: int, baseDelay: nat)
        returns (result: PostResult, posts: nat, slept: nat)
      modifies endpoint
      ensures posts == LastAttempt(replies, maxAttempts, 0) + 1
      ensures result == Classify(Reply(replies, posts - 1))
      ensures slept == baseDelay * (Pow2(posts - 1) - 1)
      ensures endpoint.bodies == old(endpoint.bodies) + Repeat(payload, posts)
    {
      var attempt: nat := 0;
      posts, slept := 0, 0;
      while true
        invariant posts == attempt
        invariant LastAttempt(replies, maxAttempts, attempt) == LastAttempt(replies, maxAttempts, 0)
        invariant slept == baseDelay * (Pow2(attempt) - 1)
        invariant endpoint.bodies == old(endpoint.bodies) + Repeat(payload, posts)
        decreases maxAttempts - attempt
      {
        result := PostBatch(payload, Reply(replies, attempt));
        posts := posts + 1;
        if !result.Retryable? || attempt >= maxAttempts - 1 {
          return;
        }
        slept := slept + baseDelay * Pow2(attempt);
        attempt := attempt + 1;
      }
    }

    method PostBatch(events: seq<Payload>, response: Response) returns (result: PostResult)
      modifies endpoint
      ensures result == Classify(response)
      ensures endpoint.bodies == old(endpoint.bodies) + [events]
    {
      var res := endpoint.Fetch(events, response);
      if res.NetworkError? {
        return Retryable;
      }
      if 200 <= res.status < 300 {
        return Accepted;
      }
      if res.status == 429 {
        var parsed := res.retryAfter;
        var seconds := if parsed.Some? && parsed.value > 0 then parsed.value else DEFAULT_RETRY_AFTER;
        return RateLimited(seconds);
      }
      if res.status >= 500 {
        return Retryable;
      }
      return Fatal;
    }
  }
}
