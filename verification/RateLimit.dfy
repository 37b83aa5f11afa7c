/** Limiter.Allow of internal/ratelimit/ratelimit.go: the breaker in front of one script per key. Calls take effect in
    the order in which their scripts run; each reads the clock (nanoseconds) up to three times. */
module RateLimit {
  import opened Options
  import opened Sets
  import B = Breaker
  import W = SlidingWindow

  datatype FailMode = FailClosed | FailOpen

  datatype Config = Config(limits: W.Limits, failMode: FailMode)

  datatype State = State(breaker: B.Fields, windows: map<string, W.Window>)

  const START := State(B.NEW, map[])

  /** One call: the clock when the breaker is asked, when the script is sent, when Redis runs it, and when a failure is
      recorded; whether Redis has dropped the expired key; what became of the script. */
  datatype Visit =
    Visit(key: string, asked: nat, sent: nat, ran: nat, failed: nat, dropped: bool, outcome: Outcome)

  datatype Verdict = Allowed | Limited(retryAfter: int) | CircuitOpen | ScriptFailed

  function Millis(now: nat): (ms: nat)
    ensures ms * 1_000_000 <= now < (ms + 1) * 1_000_000
  {
    now / 1_000_000
  }

  function Digit(d: nat): char
    requires d < 10
  {
    ['0', '1', '2', '3', '4', '5', '6', '7', '8', '9'][d]
  }

  function Decimal(n: nat): (s: string)
    ensures |s| >= 1
    ensures n < 10 <==> |s| == 1
  {
    if n < 10 then [Digit(n)] else Decimal(n / 10) + [Digit(n % 10)]
  }

  /** Different clock readings make different members. */
  lemma {:induction false} DecimalInjective(a: nat, b: nat)
    requires Decimal(a) == Decimal(b)
    ensures a == b
    decreases a
  {
    if a >= 10 && b >= 10 {
      var s, t := Decimal(a), Decimal(b);
      assert s[|s| - 1] == Digit(a % 10) && t[|t| - 1] == Digit(b % 10);
      assert s[..|s| - 1] == Decimal(a / 10) && t[..|t| - 1] == Decimal(b / 10);
      DecimalInjective(a / 10, b / 10);
    } else if a < 10 && b < 10 {
      assert Decimal(a)[0] == Digit(a) && Decimal(b)[0] == Digit(b);
    }
  }

  function RequestOf(v: Visit): W.Request {
    W.Request(Millis(v.sent), Millis(v.ran), Decimal(v.sent), v.dropped)
  }

  function WindowOf(windows: map<string, W.Window>, key: string): W.Window {
    if key in windows then windows[key] else W.EMPTY
  }

  /** Whether the script took effect, whatever the caller got to see. */
  predicate Ran(s: State, v: Visit) {
    B.AllowCall(s.breaker, v.asked).1 && v.outcome.Applied()
  }

  ghost function ScriptOn(c: Config, s: State, v: Visit): (W.Window, W.Reply) {
    W.Script(WindowOf(s.windows, v.key), RequestOf(v), c.limits)
  }

  ghost function AllowStep(c: Config, s: State, v: Visit): (State, Verdict) {
    var (b, ok) := B.AllowCall(s.breaker, v.asked);
    if !ok then (s.(breaker := b), if c.failMode.FailOpen? then Allowed else CircuitOpen)
    else
      var (w, reply) := ScriptOn(c, s, v);
      var windows := if v.outcome.Applied() then s.windows[v.key := w] else s.windows;
      if v.outcome.Error() then
        (State(B.FailureCall(b, v.failed), windows), if c.failMode.FailOpen? then Allowed else ScriptFailed)
      else
        (State(B.SuccessCall(b), windows),
         if reply.Admitted? then Allowed
         else Limited(W.RetryAfter(reply.oldest, Millis(v.sent), c.limits.window)))
  }

  /** The limiter after the first n visits. */
  ghost function After(c: Config, visits: seq<Visit>, n: nat): State
    requires n <= |visits|
  {
    if n == 0 then START else AllowStep(c, After(c, visits, n - 1), visits[n - 1]).0
  }

  ghost function VerdictOn(c: Config, visits: seq<Visit>, i: nat): Verdict
    requires i < |visits|
  {
    AllowStep(c, After(c, visits, i), visits[i]).1
  }

  // ----- the visits whose script ran on one key

  ghost predicate RanAt(c: Config, visits: seq<Visit>, i: nat, key: string) {
    i < |visits| && visits[i].key == key && Ran(After(c, visits, i), visits[i])
  }

  ghost predicate AdmittedAt(c: Config, visits: seq<Visit>, i: nat, key: string) {
    RanAt(c, visits, i, key) && ScriptOn(c, After(c, visits, i), visits[i]).1.Admitted?
  }

  /** Scripts on the key run in the millisecond in which they are sent, and in the order of their readings. */
  ghost predicate Prompt(c: Config, visits: seq<Visit>, key: string) {
    && (forall i, j | 0 <= i < j < |visits| && RanAt(c, visits, i, key) && RanAt(c, visits, j, key) ::
          visits[i].sent <= visits[j].sent)
    && (forall i | 0 <= i < |visits| && RanAt(c, visits, i, key) :: Millis(visits[i].ran) == Millis(visits[i].sent))
  }

  /** Scripts on the key run in the given order, each at most d milliseconds after it is sent. */
  ghost predicate Late(c: Config, visits: seq<Visit>, key: string, d: nat) {
    && (forall i, j | 0 <= i < j < |visits| && RanAt(c, visits, i, key) && RanAt(c, visits, j, key) ::
          visits[i].ran <= visits[j].ran)
    && (forall i | 0 <= i < |visits| && RanAt(c, visits, i, key) ::
          Millis(visits[i].sent) <= Millis(visits[i].ran) <= Millis(visits[i].sent) + d)
  }

  /** No two calls admitted on the key read the same nanosecond. */
  ghost predicate Unshared(c: Config, visits: seq<Visit>, key: string) {
    forall i, j | 0 <= i < j < |visits| && AdmittedAt(c, visits, i, key) && AdmittedAt(c, visits, j, key) ::
      visits[i].sent != visits[j].sent
  }

  /** The first n visits that were admitted on the key with a reading in (t - length, t], counting those whose reply was
      lost. */
  ghost function AdmittedIn(c: Config, visits: seq<Visit>, n: nat, key: string, t: int, length: int): set<nat>
    requires n <= |visits|
  {
    set i: nat | i < n && AdmittedAt(c, visits, i, key) && W.InWindow(Millis(visits[i].sent), t, length)
  }

  ghost function Reached(c: Config, visits: seq<Visit>, n: nat, key: string): (ids: seq<nat>)
    requires n <= |visits|
    ensures forall p :: 0 <= p < |ids| ==> ids[p] < n && RanAt(c, visits, ids[p], key)
    ensures forall p, q :: 0 <= p < q < |ids| ==> ids[p] < ids[q]
  {
    if n == 0 then []
    else Reached(c, visits, n - 1, key) + if RanAt(c, visits, n - 1, key) then [n - 1] else []
  }

  function RequestsOf(visits: seq<Visit>, ids: seq<nat>): seq<W.Request>
    requires forall p :: 0 <= p < |ids| ==> ids[p] < |visits|
  {
    seq(|ids|, p requires 0 <= p < |ids| => RequestOf(visits[ids[p]]))
  }

  /** The requests the key's script has seen. */
  ghost function Requests(c: Config, visits: seq<Visit>, n: nat, key: string): seq<W.Request>
    requires n <= |visits|
  {
    RequestsOf(visits, Reached(c, visits, n, key))
  }

  lemma RequestsMore(c: Config, visits: seq<Visit>, n: nat, key: string)
    requires n < |visits|
    ensures Requests(c, visits, n + 1, key)
         == Requests(c, visits, n, key) + if RanAt(c, visits, n, key) then [RequestOf(visits[n])] else []
  {
  }

  lemma {:induction false} RequestsPrefix(c: Config, visits: seq<Visit>, n: nat, m: nat, key: string)
    requires n <= m <= |visits|
    ensures Requests(c, visits, n, key) <= Requests(c, visits, m, key)
    ensures Reached(c, visits, n, key) <= Reached(c, visits, m, key)
  {
    if n < m {
      RequestsPrefix(c, visits, n, m - 1, key);
      RequestsMore(c, visits, m - 1, key);
    }
  }

  lemma WindowStep(c: Config, s: State, v: Visit, key: string)
    ensures WindowOf(AllowStep(c, s, v).0.windows, key) ==
            if v.key == key && Ran(s, v) then ScriptOn(c, s, v).0 else WindowOf(s.windows, key)
  {
  }

  /** Each key's sorted set is the script's, run on the requests that reached it. */
  lemma {:induction false} WindowsFollow(c: Config, visits: seq<Visit>, n: nat, key: string)
    requires n <= |visits|
    ensures var reqs := Requests(c, visits, n, key);
            WindowOf(After(c, visits, n).windows, key) == W.Run(reqs, |reqs|, c.limits)
  {
    hide AllowStep, W.Script, Ran, WindowOf, RequestOf, Requests;
    if n == 0 {
      NoWindow(c, visits, key);
    } else {
      var reqs := Requests(c, visits, n - 1, key);
      WindowsFollow(c, visits, n - 1, key);
      WindowStep(c, After(c, visits, n - 1), visits[n - 1], key);
      RequestsMore(c, visits, n - 1, key);
      W.RunPrefix(reqs, Requests(c, visits, n, key), |reqs|, c.limits);
    }
  }

  lemma NoWindow(c: Config, visits: seq<Visit>, key: string)
    ensures WindowOf(START.windows, key) == W.EMPTY && Requests(c, visits, 0, key) == []
  {
  }

  /** The place of a visit among the requests of its key. */
  lemma PlaceOf(c: Config, visits: seq<Visit>, n: nat, i: nat, key: string) returns (p: nat)
    requires i < n <= |visits| && RanAt(c, visits, i, key)
    ensures p == |Reached(c, visits, i, key)| < |Reached(c, visits, n, key)| && Reached(c, visits, n, key)[p] == i
    ensures Requests(c, visits, i, key) <= Requests(c, visits, n, key)
  {
    hide RanAt, RequestOf;
    p := |Reached(c, visits, i, key)|;
    RequestsPrefix(c, visits, i, i + 1, key);
    RequestsPrefix(c, visits, i + 1, n, key);
    assert Reached(c, visits, i + 1, key)[p] == i;
  }

  /** A visit whose script ran is decided as the script decides its request. */
  lemma AdmittedAsRequest(c: Config, visits: seq<Visit>, n: nat, i: nat, key: string) returns (p: nat)
    requires i < n <= |visits| && RanAt(c, visits, i, key)
    ensures p == |Reached(c, visits, i, key)| < |Reached(c, visits, n, key)| && Reached(c, visits, n, key)[p] == i
    ensures W.Admits(Requests(c, visits, n, key), p, c.limits) <==> AdmittedAt(c, visits, i, key)
  {
    hide W.Script, RanAt, RequestOf, WindowOf, After, Reached;
    p := PlaceOf(c, visits, n, i, key);
    WindowsFollow(c, visits, i, key);
    W.RunPrefix(Requests(c, visits, i, key), Requests(c, visits, n, key), p, c.limits);
    KeyOf(c, visits, i, key);
  }

  lemma KeyOf(c: Config, visits: seq<Visit>, i: nat, key: string)
    requires RanAt(c, visits, i, key)
    ensures visits[i].key == key
  {
  }

  lemma AdmittedIsLive(c: Config, visits: seq<Visit>, n: nat, m: nat, key: string, t: int, length: int, i: nat)
    requires n <= m <= |visits| && i in AdmittedIn(c, visits, n, key, t, length)
    requires |Reached(c, visits, n, key)| <= |Requests(c, visits, m, key)|
    ensures var p := |Reached(c, visits, i, key)|;
            && p in W.Span(Requests(c, visits, m, key), |Reached(c, visits, n, key)|, t, length, c.limits)
            && p < |Reached(c, visits, m, key)| && Reached(c, visits, m, key)[p] == i
  {
    hide RanAt, AdmittedAt, W.Admits, Decimal;
    AdmittedRan(c, visits, i, key);
    var p := AdmittedAsRequest(c, visits, m, i, key);
    var q := PlaceOf(c, visits, n, i, key);
  }

  lemma LiveIsAdmitted(c: Config, visits: seq<Visit>, n: nat, m: nat, key: string, t: int, length: int, p: nat)
    requires n <= m <= |visits| && |Reached(c, visits, n, key)| <= |Reached(c, visits, m, key)|
    requires p in W.Span(Requests(c, visits, m, key), |Reached(c, visits, n, key)|, t, length, c.limits)
    ensures p < |Reached(c, visits, m, key)|
    ensures Reached(c, visits, m, key)[p] in AdmittedIn(c, visits, n, key, t, length)
  {
    hide RanAt, AdmittedAt, W.Admits, Decimal;
    RequestsPrefix(c, visits, n, m, key);
    var i := Reached(c, visits, m, key)[p];
    assert Reached(c, visits, n, key)[p] == i;
    var q := AdmittedAsRequest(c, visits, m, i, key);
    assert q == p;
  }

  /** The admissions among the first n visits are the admitted requests of the key. */
  lemma AdmittedAreLive(c: Config, visits: seq<Visit>, n: nat, m: nat, key: string, t: int, length: int)
    requires n <= m <= |visits|
    ensures var reqs, k := Requests(c, visits, m, key), |Reached(c, visits, n, key)|;
            k <= |reqs| && |AdmittedIn(c, visits, n, key, t, length)| == |W.Span(reqs, k, t, length, c.limits)|
  {
    hide RanAt, AdmittedAt, AdmittedIn, W.Span;
    RequestsPrefix(c, visits, n, m, key);
    var ids := Reached(c, visits, m, key);
    var admitted := AdmittedIn(c, visits, n, key, t, length);
    var live := W.Span(Requests(c, visits, m, key), |Reached(c, visits, n, key)|, t, length, c.limits);
    forall i | i in admitted
      ensures exists p :: p in live && p < |ids| && ids[p] == i
    {
      AdmittedIsLive(c, visits, n, m, key, t, length, i);
    }
    forall p | p in live
      ensures p < |ids| && ids[p] in admitted
    {
      LiveIsAdmitted(c, visits, n, m, key, t, length, p);
    }
    PickedSize(ids, live, admitted);
  }

  lemma AdmittedRan(c: Config, visits: seq<Visit>, i: nat, key: string)
    requires AdmittedAt(c, visits, i, key)
    ensures RanAt(c, visits, i, key)
  {
  }

  /** Members are readings, and no two admitted requests share one. */
  lemma RequestsStamped(c: Config, visits: seq<Visit>, n: nat, key: string)
    requires n <= |visits| && Unshared(c, visits, key)
    ensures W.Stamped(Requests(c, visits, n, key), c.limits)
  {
    hide RanAt, AdmittedAt, Decimal, W.Admits;
    var reqs, ids := Requests(c, visits, n, key), Reached(c, visits, n, key);
    forall p, q | 0 <= p < |reqs| && 0 <= q < |reqs| && reqs[p].member == reqs[q].member
      ensures visits[ids[p]].sent == visits[ids[q]].sent && reqs[p].now == reqs[q].now
    {
      DecimalInjective(visits[ids[p]].sent, visits[ids[q]].sent);
    }
    forall p, q | 0 <= p < q < |reqs| && W.Admits(reqs, p, c.limits) && W.Admits(reqs, q, c.limits)
      ensures reqs[p].member != reqs[q].member
    {
      AdmittedPlace(c, visits, n, key, p);
      AdmittedPlace(c, visits, n, key, q);
    }
  }

  lemma AdmittedPlace(c: Config, visits: seq<Visit>, n: nat, key: string, p: nat)
    requires n <= |visits| && p < |Requests(c, visits, n, key)|
    requires W.Admits(Requests(c, visits, n, key), p, c.limits)
    ensures AdmittedAt(c, visits, Reached(c, visits, n, key)[p], key)
  {
    hide RanAt, AdmittedAt, W.Admits;
    var i := Reached(c, visits, n, key)[p];
    var q := AdmittedAsRequest(c, visits, n, i, key);
  }

  lemma RequestsPrompt(c: Config, visits: seq<Visit>, n: nat, key: string)
    requires n <= |visits| && Prompt(c, visits, key) && Unshared(c, visits, key)
    ensures W.Ordered(Requests(c, visits, n, key)) && W.NoOverlap(Requests(c, visits, n, key), c.limits)
  {
    RequestsStamped(c, visits, n, key);
    hide RanAt, Decimal, W.Admits, Unshared;
    var reqs, ids := Requests(c, visits, n, key), Reached(c, visits, n, key);
    forall p, q | 0 <= p < q < |reqs|
      ensures reqs[p].now <= reqs[q].now
    {
      assert visits[ids[p]].sent <= visits[ids[q]].sent;
    }
  }

  lemma RequestsLate(c: Config, visits: seq<Visit>, n: nat, key: string, d: nat)
    requires n <= |visits| && Late(c, visits, key, d)
    ensures W.Delayed(Requests(c, visits, n, key), d)
  {
    hide RanAt, Decimal;
    var reqs, ids := Requests(c, visits, n, key), Reached(c, visits, n, key);
    forall p, q | 0 <= p < q < |reqs|
      ensures reqs[p].at <= reqs[q].at
    {
      assert visits[ids[p]].ran <= visits[ids[q]].ran;
    }
  }

  /** A call whose reply arrives is allowed exactly when fewer than limit calls of its key were admitted in the window,
      counting those whose reply was lost; otherwise it is told, in whole seconds, the wait until the oldest of them
      leaves the window. */
  lemma RepliesFollowHistory(c: Config, visits: seq<Visit>, i: nat, key: string)
    requires Prompt(c, visits, key) && Unshared(c, visits, key) && c.limits.window >= 1
    requires RanAt(c, visits, i, key) && !visits[i].outcome.Error()
    ensures var verdict := VerdictOn(c, visits, i);
            var before := AdmittedIn(c, visits, i, key, Millis(visits[i].sent), c.limits.window);
            && (verdict.Allowed? <==> |before| < c.limits.limit)
            && (verdict.Limited? <==> !verdict.Allowed?)
            && (verdict.Limited? && c.limits.limit >= 1 ==>
                  && 1 <= verdict.retryAfter <= (c.limits.window + 999) / 1000
                  && exists j :: 0 <= j < |visits| && IsOldest(visits, before, j)
                                 && W.RoundsUp(verdict.retryAfter,
                                               Millis(visits[j].sent) + c.limits.window - Millis(visits[i].sent)))
  {
    var reqs, now := Requests(c, visits, i + 1, key), Millis(visits[i].sent);
    var p := AnswerOf(c, visits, i, key);
    AdmittedAreLive(c, visits, i, i + 1, key, now, c.limits.window);
    WindowOfLive(reqs, p, now, c.limits);
    hide *;
    if c.limits.limit >= 1 && W.Answer(reqs, p, c.limits).Rejected? {
      var j := WaitForOldest(c, visits, i, key, p);
    }
  }

  lemma WaitForOldest(c: Config, visits: seq<Visit>, i: nat, key: string, p: nat) returns (j: nat)
    requires Prompt(c, visits, key) && Unshared(c, visits, key) && c.limits.window >= 1 && c.limits.limit >= 1
    requires RanAt(c, visits, i, key)
    requires var reqs := Requests(c, visits, i + 1, key);
             && p == |Reached(c, visits, i, key)| < |reqs| && reqs[p].now == Millis(visits[i].sent)
             && W.Answer(reqs, p, c.limits).Rejected?
    ensures var now, window := Millis(visits[i].sent), c.limits.window;
            var seconds := W.RetryAfter(W.Answer(Requests(c, visits, i + 1, key), p, c.limits).oldest, now, window);
            && IsOldest(visits, AdmittedIn(c, visits, i, key, now, window), j)
            && 1 <= seconds <= (window + 999) / 1000
            && W.RoundsUp(seconds, Millis(visits[j].sent) + window - now)
  {
    var reqs := Requests(c, visits, i + 1, key);
    var oldest := W.Answer(reqs, p, c.limits).oldest;
    RequestsPrompt(c, visits, i + 1, key);
    assert i < |visits|;
    hide *;
    W.RejectionDelay(reqs, p, c.limits);
    j := OldestVisit(c, visits, i, key, oldest);
  }

  lemma WindowOfLive(reqs: seq<W.Request>, n: nat, t: int, c: W.Limits)
    requires n <= |reqs|
    ensures W.Live(reqs, n, t, c) == W.Span(reqs, n, t, c.window, c)
  {
  }

  /** An answered visit is its request of the key, which the script decides by what it finds live. */
  lemma AnswerOf(c: Config, visits: seq<Visit>, i: nat, key: string) returns (p: nat)
    requires Prompt(c, visits, key) && Unshared(c, visits, key) && c.limits.window >= 1
    requires RanAt(c, visits, i, key) && !visits[i].outcome.Error()
    ensures var reqs := Requests(c, visits, i + 1, key);
            && p == |Reached(c, visits, i, key)| < |reqs| && reqs[p].now == Millis(visits[i].sent)
            && (W.Answer(reqs, p, c.limits).Admitted? <==>
                |W.Live(reqs, p, reqs[p].now, c.limits)| < c.limits.limit)
            && VerdictOn(c, visits, i) ==
               match W.Answer(reqs, p, c.limits)
               case Admitted => Allowed
               case Rejected(oldest) => Limited(W.RetryAfter(oldest, Millis(visits[i].sent), c.limits.window))
  {
    var reqs := Requests(c, visits, i + 1, key);
    RequestsPrompt(c, visits, i + 1, key);
    RequestsMore(c, visits, i, key);
    WindowsFollow(c, visits, i, key);
    p := PlaceOf(c, visits, i + 1, i, key);
    W.RunPrefix(Requests(c, visits, i, key), reqs, p, c.limits);
    RepliedVerdict(c, After(c, visits, i), visits[i]);
    hide W.Script, W.RetryAfter, W.NoOverlap, AllowStep, RequestOf, Ran, Prompt, Unshared;
    assert ScriptOn(c, After(c, visits, i), visits[i]).1 == W.Answer(reqs, p, c.limits);
    W.CountsWhenDistinct(reqs, p, c.limits);
    W.NextSet(reqs, p, c.limits);
    assert reqs[p].now == Millis(visits[i].sent) by {
      SentAt(visits[i]);
    }
  }

  lemma SentAt(v: Visit)
    ensures RequestOf(v).now == Millis(v.sent)
  {
  }

  /** Visit j has the earliest reading of the set. */
  predicate IsOldest(visits: seq<Visit>, ids: set<nat>, j: nat) {
    && j < |visits| && j in ids
    && forall x :: x in ids && x < |visits| ==> Millis(visits[j].sent) <= Millis(visits[x].sent)
  }

  /** The oldest live request of the key is its oldest admitted visit. */
  lemma OldestVisit(c: Config, visits: seq<Visit>, i: nat, key: string, oldest: int) returns (j: nat)
    requires i < |visits| && RanAt(c, visits, i, key)
    requires var live := W.Live(Requests(c, visits, i + 1, key), |Reached(c, visits, i, key)|, Millis(visits[i].sent),
                                c.limits);
             var reqs := Requests(c, visits, i + 1, key);
             && (exists p :: p in live && p < |reqs| && reqs[p].now == oldest)
             && forall p :: p in live && p < |reqs| ==> oldest <= reqs[p].now
    ensures var before := AdmittedIn(c, visits, i, key, Millis(visits[i].sent), c.limits.window);
            IsOldest(visits, before, j) && Millis(visits[j].sent) == oldest
  {
    hide RanAt, AdmittedAt, AdmittedIn, W.Span, Decimal;
    var t, length := Millis(visits[i].sent), c.limits.window;
    var reqs, k := Requests(c, visits, i + 1, key), |Reached(c, visits, i, key)|;
    RequestsPrefix(c, visits, i, i + 1, key);
    var live := W.Live(reqs, k, t, c.limits);
    var p :| p in live && p < |reqs| && reqs[p].now == oldest;
    LiveIsAdmitted(c, visits, i, i + 1, key, t, length, p);
    j := Reached(c, visits, i + 1, key)[p];
    var before := AdmittedIn(c, visits, i, key, t, length);
    forall x | x in before && x < |visits|
      ensures oldest <= Millis(visits[x].sent)
    {
      AdmittedIsLive(c, visits, i, i + 1, key, t, length, x);
    }
  }

  lemma RepliedVerdict(c: Config, s: State, v: Visit)
    requires Ran(s, v) && !v.outcome.Error()
    ensures var reply := ScriptOn(c, s, v).1;
            AllowStep(c, s, v).1 ==
            if reply.Admitted? then Allowed else Limited(W.RetryAfter(reply.oldest, Millis(v.sent), c.limits.window))
  {
  }

  /** Every answer, by what happened: the breaker refuses an open circuit younger than ten seconds; otherwise the script
      is sent, an error is answered by the fail mode, and a reply as the script decided. Under FailOpen a call is thus
      held up only by a rejection that arrived. */
  lemma VerdictMeans(c: Config, s: State, v: Visit)
    ensures var verdict := AllowStep(c, s, v).1;
            var sent := !(s.breaker.mode.Open? && v.asked - s.breaker.openedAt < 10_000_000_000);
            var answered := sent && v.outcome == Done;
            var reply := ScriptOn(c, s, v).1;
            && (verdict.CircuitOpen? <==> !sent && c.failMode.FailClosed?)
            && (verdict.ScriptFailed? <==> sent && v.outcome != Done && c.failMode.FailClosed?)
            && (verdict.Limited? <==> answered && reply.Rejected?)
            && (verdict.Allowed? <==> if answered then reply.Admitted? else c.failMode.FailOpen?)
            && (c.failMode.FailOpen? ==> verdict.Allowed? || verdict.Limited?)
  {
    hide W.Script;
  }

  /** Three visits in a row whose script fails trip a closed breaker without failures, at the time of the third. */
  lemma ThreeErrorsTrip(c: Config, visits: seq<Visit>, n: nat)
    requires n + 3 <= |visits| && After(c, visits, n).breaker.mode.Closed?
    requires 0 <= After(c, visits, n).breaker.failures
    requires visits[n].outcome.Error() && visits[n + 1].outcome.Error() && visits[n + 2].outcome.Error()
    ensures exists k :: n < k <= n + 3 && After(c, visits, k).breaker == B.Fields(B.Open, 0, visits[k - 1].failed)
    ensures After(c, visits, n).breaker.failures == 0 ==>
              After(c, visits, n + 3).breaker == B.Fields(B.Open, 0, visits[n + 2].failed)
  {
    hide W.Script, ScriptOn;
    var a, b1 := After(c, visits, n).breaker, After(c, visits, n + 1).breaker;
    assert b1 == B.FailureCall(a, visits[n].failed);
    var b2 := After(c, visits, n + 2).breaker;
    assert b1.mode.Closed? ==> b2 == B.FailureCall(b1, visits[n + 1].failed);
    var b3 := After(c, visits, n + 3).breaker;
    assert b1.mode.Closed? && b2.mode.Closed? ==> b3 == B.FailureCall(b2, visits[n + 2].failed);
    if b1.mode.Open? {
      assert After(c, visits, n + 1).breaker == B.Fields(B.Open, 0, visits[n + 1 - 1].failed);
    } else if b2.mode.Open? {
      assert After(c, visits, n + 2).breaker == B.Fields(B.Open, 0, visits[n + 2 - 1].failed);
    } else {
      assert After(c, visits, n + 3).breaker == B.Fields(B.Open, 0, visits[n + 3 - 1].failed);
    }
  }

  // ----- the bound under FailClosed

  /** The calls on a key that were allowed with their script sent in (t - length, t]. */
  ghost function AllowedIn(c: Config, visits: seq<Visit>, key: string, t: int, length: int): set<nat> {
    set i: nat | i < |visits| && visits[i].key == key && VerdictOn(c, visits, i).Allowed?
                 && W.InWindow(Millis(visits[i].sent), t, length)
  }

  /** Under FailClosed, with scripts that run at most d milliseconds after they are sent, every interval as long as the
      window less d holds at most limit allowed calls, whatever errors, lost replies and trips there are. */
  lemma AllowedBound(c: Config, visits: seq<Visit>, key: string, t: int, d: nat)
    requires Late(c, visits, key, d) && Unshared(c, visits, key)
    requires c.limits.window >= 1 && c.limits.limit >= 0 && c.failMode.FailClosed?
    ensures |AllowedIn(c, visits, key, t, c.limits.window - d)| <= c.limits.limit
  {
    var n, length := |visits|, c.limits.window - d;
    hide Late, Unshared, W.Span, W.Delayed, W.Stamped, AllowStep, Ran, RequestOf;
    forall i | i in AllowedIn(c, visits, key, t, length)
      ensures i in AdmittedIn(c, visits, n, key, t, length)
    {
      AllowedReply(c, After(c, visits, i), visits[i]);
    }
    SubsetSize(AllowedIn(c, visits, key, t, length), AdmittedIn(c, visits, n, key, t, length));
    AdmittedAreLive(c, visits, n, n, key, t, length);
    RequestsStamped(c, visits, n, key);
    RequestsLate(c, visits, n, key, d);
    W.DelayedBound(Requests(c, visits, n, key), |Reached(c, visits, n, key)|, t, d, c.limits);
  }

  lemma AllowedReply(c: Config, s: State, v: Visit)
    requires c.failMode.FailClosed? && AllowStep(c, s, v).1.Allowed?
    ensures Ran(s, v) && ScriptOn(c, s, v).1.Admitted?
  {
  }

  // ----- after a trip

  /** While the breaker is open and younger than ten seconds, no call sends a script or changes anything. */
  lemma {:induction false} QuietWhileOpen(c: Config, visits: seq<Visit>, n: nat, m: nat)
    requires n <= m <= |visits| && After(c, visits, n).breaker.mode.Open?
    requires forall i :: n <= i < m ==> visits[i].asked < After(c, visits, n).breaker.openedAt + 10_000_000_000
    ensures After(c, visits, m) == After(c, visits, n)
  {
    if n < m {
      QuietWhileOpen(c, visits, n, m - 1);
    }
  }

  /** A trip at time t is due to a Redis error, and no script is sent before t + 10 s. */
  lemma NoScriptAfterTrip(c: Config, visits: seq<Visit>, trip: nat, m: nat)
    requires trip < m < |visits|
    requires !After(c, visits, trip).breaker.mode.Open? && After(c, visits, trip + 1).breaker.mode.Open?
    requires forall i :: trip < i <= m ==> visits[i].asked < visits[trip].failed + 10_000_000_000
    ensures visits[trip].outcome.Error() && After(c, visits, m) == After(c, visits, trip + 1)
    ensures !Ran(After(c, visits, m), visits[m])
    ensures VerdictOn(c, visits, m) == if c.failMode.FailOpen? then Allowed else CircuitOpen
  {
    hide W.Script;
    QuietWhileOpen(c, visits, trip + 1, m);
  }

  // ----- the code

  class Redis {
    var windows: map<string, W.Window>

    constructor ()
      ensures windows == map[]
    {
      windows := map[];
    }

    /** The Lua script, which Redis runs atomically at time `at`. */
    method RunScript(key: string, now: int, window: int, limit: int, member: string, at: int, dropped: bool)
        returns (reply: W.Reply)
      modifies this
      ensures var request, c := W.Request(now, at, member, dropped), W.Limits(window, limit);
              var (w, r) := W.Script(WindowOf(old(windows), key), request, c);
              windows == old(windows)[key := w] && reply == r
    {
      var w := WindowOf(windows, key);
      var entries := if dropped && w.expireAt.Some? && w.expireAt.value <= at then map[] else w.entries;
      entries := W.Trim(entries, now, window);
      windows := windows[key := w.(entries := entries)];
      if |entries| >= limit {
        var oldest := First(entries);
        return W.Rejected(oldest);
      }
      entries := entries[member := now];
      windows := windows[key := W.Window(entries, Some(at + window))];
      return W.Reply.Admitted;
    }

    /** ZRANGE key 0 0 WITHSCORES */
    method First(entries: map<string, int>) returns (score: int)
      ensures score == W.Oldest(entries)
    {
      if entries == map[] {
        return 0;
      }
      LeastExists(entries);
      var m :| m in entries && forall k :: k in entries ==> entries[m] <= entries[k];
      return entries[m];
    }
  }

  class Limiter {
    const redis: Redis
    const config: Config
    const breaker: B.CircuitBreaker

    constructor (redis: Redis, config: Config)
      ensures this.redis == redis && this.config == config && fresh(breaker) && breaker.Value() == B.NEW
    {
      this.redis, this.config := redis, config;
      breaker := new B.CircuitBreaker();
    }

    ghost function Value(): State
      reads this, redis, breaker
    {
      State(breaker.Value(), redis.windows)
    }

    method Allow(v: Visit) returns (verdict: Verdict)
      modifies redis, breaker
      ensures (Value(), verdict) == AllowStep(config, old(Value()), v)
      ensures config.failMode.FailOpen? ==> verdict.Allowed? || verdict.Limited?
      ensures verdict.Limited? ==> v.outcome == Done
    {
      var ok := breaker.AllowNow(v.asked);
      if !ok {
        if config.failMode == FailOpen {
          return Allowed;
        }
        return CircuitOpen;
      }
      var now := Millis(v.sent);
      var reply := W.Reply.Admitted;
      if v.outcome.Applied() {
        reply := redis.RunScript(v.key, now, config.limits.window, config.limits.limit, Decimal(v.sent), Millis(v.ran),
                                 v.dropped);
      }
      if v.outcome.Error() {
        breaker.RecordFailure(v.failed);
        if config.failMode == FailOpen {
          return Allowed;
        }
        return ScriptFailed;
      }
      breaker.RecordSuccess();
      if reply.Rejected? {
        var reset := reply.oldest + config.limits.window;
        var diff := reset - now;
        if diff < 0 {
          diff := 0;
        }
        return Limited((diff + 999) / 1000);
      }
      return Allowed;
    }
  }
}
