/** subLimiter of internal/webhooks/dispatcher.go: the minimum spacing of attempts per subscription, with eviction of
    old entries. Times are nanoseconds. */
module SubLimiter {

  const TTL := 600_000_000_000

  type Table = map<string, int>

  datatype Call = Call(sub: string, now: int)

  predicate TooSoon(last: Table, sub: string, now: int, minInterval: int) {
    sub in last && now - last[sub] < minInterval
  }

  /** The table that forgets nothing. */
  function Keep(last: Table, c: Call, minInterval: int): Table {
    if TooSoon(last, c.sub, c.now, minInterval) then last else last[c.sub := c.now]
  }

  function Recent(last: Table, now: int): Table {
    map k | k in last && now - last[k] <= TTL :: last[k]
  }

  /** The table of the code: an allowed call also drops every entry older than the TTL. */
  function Evict(last: Table, c: Call, minInterval: int): Table {
    if TooSoon(last, c.sub, c.now, minInterval) then last else Recent(last[c.sub := c.now], c.now)
  }

  function KeepAll(calls: seq<Call>, minInterval: int): Table {
    if calls == [] then map[] else Keep(KeepAll(calls[..|calls| - 1], minInterval), calls[|calls| - 1], minInterval)
  }

  function EvictAll(calls: seq<Call>, minInterval: int): Table {
    if calls == [] then map[] else Evict(EvictAll(calls[..|calls| - 1], minInterval), calls[|calls| - 1], minInterval)
  }

  /** The answer to call i of a sequence of calls on a fresh limiter, without and with eviction. */
  function KeepAnswer(calls: seq<Call>, minInterval: int, i: nat): bool
    requires i < |calls|
  {
    !TooSoon(KeepAll(calls[..i], minInterval), calls[i].sub, calls[i].now, minInterval)
  }

  function EvictAnswer(calls: seq<Call>, minInterval: int, i: nat): bool
    requires i < |calls|
  {
    !TooSoon(EvictAll(calls[..i], minInterval), calls[i].sub, calls[i].now, minInterval)
  }

  ghost predicate Ordered(calls: seq<Call>) {
    forall i, j :: 0 <= i < j < |calls| ==> calls[i].now <= calls[j].now
  }

  /** Eviction never changes an answer. */
  ghost predicate Invisible(minInterval: int) {
    forall calls, i: nat :: Ordered(calls) && i < |calls| ==>
                              EvictAnswer(calls, minInterval, i) == KeepAnswer(calls, minInterval, i)
  }

  /** The evicting table agrees with the other one, except on entries too old to deny anything. */
  ghost predicate Agree(evicting: Table, keeping: Table, now: int, minInterval: int) {
    && (forall k :: k in evicting ==> k in keeping && evicting[k] == keeping[k])
    && (forall k :: k in keeping ==> keeping[k] <= now)
    && (forall k :: k in keeping && k !in evicting ==> now - keeping[k] >= minInterval)
  }

  lemma {:induction false} TablesAgree(calls: seq<Call>, minInterval: int, now: int)
    requires minInterval <= TTL + 1 && Ordered(calls)
    requires forall c :: c in calls ==> c.now <= now
    ensures Agree(EvictAll(calls, minInterval), KeepAll(calls, minInterval), now, minInterval)
  {
    if calls != [] {
      var n := |calls| - 1;
      var c := calls[n];
      assert forall x :: x in calls[..n] ==> x.now <= c.now;
      TablesAgree(calls[..n], minInterval, c.now);
    }
  }

  lemma AgreeingAnswers(calls: seq<Call>, minInterval: int, i: nat)
    requires minInterval <= TTL + 1 && Ordered(calls) && i < |calls|
    ensures EvictAnswer(calls, minInterval, i) == KeepAnswer(calls, minInterval, i)
  {
    TablesAgree(calls[..i], minInterval, calls[i].now);
  }

  /** The run that tells the two limiters apart when the interval is too long: a call on another subscription
      evicts the entry that should still deny. */
  function Witness(): seq<Call> {
    [Call("a", 0), Call("b", TTL + 1), Call("a", TTL + 1)]
  }

  lemma WitnessDiffers(minInterval: int)
    requires minInterval > TTL + 1
    ensures Ordered(Witness()) && EvictAnswer(Witness(), minInterval, 2) && !KeepAnswer(Witness(), minInterval, 2)
  {
    var calls := Witness();
    assert calls[..2][..1] == [Call("a", 0)] && [Call("a", 0)][..0] == [];
    assert calls[..2][1] == Call("b", TTL + 1);
    assert KeepAll([Call("a", 0)], minInterval) == map["a" := 0];
    assert EvictAll([Call("a", 0)], minInterval) == map["a" := 0];
    assert KeepAll(calls[..2], minInterval) == map["a" := 0, "b" := TTL + 1];
    assert "a" !in EvictAll(calls[..2], minInterval);
  }

  /** Eviction is invisible exactly when the configured interval is at most one nanosecond above the TTL. */
  lemma EvictionInvisible(minInterval: int)
    ensures Invisible(minInterval) <==> minInterval <= 600_000_000_001
  {
    if minInterval <= TTL + 1 {
      forall calls, i: nat | Ordered(calls) && i < |calls|
        ensures EvictAnswer(calls, minInterval, i) == KeepAnswer(calls, minInterval, i)
      {
        AgreeingAnswers(calls, minInterval, i);
      }
    } else {
      WitnessDiffers(minInterval);
    }
  }

  /** The table that forgets nothing holds the time of each subscription's last allowed call. */
  lemma {:induction false} KeepsAllowed(calls: seq<Call>, minInterval: int, i: nat)
    requires Ordered(calls) && i < |calls| && KeepAnswer(calls, minInterval, i)
    ensures calls[i].sub in KeepAll(calls, minInterval)
    ensures KeepAll(calls, minInterval)[calls[i].sub] >= calls[i].now
    decreases |calls|
  {
    var n := |calls| - 1;
    if i < n {
      assert calls[..n][..i] == calls[..i];
      KeepsAllowed(calls[..n], minInterval, i);
    } else {
      assert calls[..n] == calls[..i];
    }
  }

  /** Two allowed attempts on one subscription are at least the interval apart. */
  lemma AllowedApart(calls: seq<Call>, minInterval: int, i: nat, j: nat)
    requires minInterval <= TTL + 1 && Ordered(calls) && i < j < |calls| && calls[i].sub == calls[j].sub
    requires EvictAnswer(calls, minInterval, i) && EvictAnswer(calls, minInterval, j)
    ensures calls[j].now - calls[i].now >= minInterval
  {
    AgreeingAnswers(calls, minInterval, i);
    AgreeingAnswers(calls, minInterval, j);
    assert calls[..j][..i] == calls[..i];
    KeepsAllowed(calls[..j], minInterval, i);
  }

  /** An entry of the table that forgets nothing is the time of an allowed call. */
  lemma {:induction false} KeptFrom(calls: seq<Call>, minInterval: int, sub: string) returns (j: nat)
    requires sub in KeepAll(calls, minInterval)
    ensures j < |calls| && calls[j].sub == sub && calls[j].now == KeepAll(calls, minInterval)[sub]
    ensures KeepAnswer(calls, minInterval, j)
    decreases |calls|
  {
    var n := |calls| - 1;
    if calls[n].sub == sub && KeepAnswer(calls, minInterval, n) {
      j := n;
    } else {
      assert calls[..n] == calls[..n][..n];
      j := KeptFrom(calls[..n], minInterval, sub);
      assert calls[..n][..j] == calls[..j];
    }
  }

  /** A call is allowed if and only if every earlier allowed call on its subscription is at least the interval old. */
  lemma AllowedExactly(calls: seq<Call>, minInterval: int, i: nat)
    requires minInterval <= 600_000_000_001 && Ordered(calls) && i < |calls|
    ensures EvictAnswer(calls, minInterval, i) <==>
            forall j | 0 <= j < i && calls[j].sub == calls[i].sub && EvictAnswer(calls, minInterval, j) ::
              calls[i].now - calls[j].now >= minInterval
  {
    AgreeingAnswers(calls, minInterval, i);
    if EvictAnswer(calls, minInterval, i) {
      forall j | 0 <= j < i && calls[j].sub == calls[i].sub && EvictAnswer(calls, minInterval, j)
        ensures calls[i].now - calls[j].now >= minInterval
      {
        AllowedApart(calls, minInterval, j, i);
      }
    } else {
      var j := KeptFrom(calls[..i], minInterval, calls[i].sub);
      assert calls[..i][..j] == calls[..j];
      AgreeingAnswers(calls, minInterval, j);
    }
  }

  class Limiter {
    var lastAttempt: Table

    constructor ()
      ensures lastAttempt == map[]
    {
      lastAttempt := map[];
    }

    method Allow(sub: string, minInterval: int, now: int) returns (ok: bool)
      modifies this
      ensures ok == !TooSoon(old(lastAttempt), sub, now, minInterval)
      ensures lastAttempt == Evict(old(lastAttempt), Call(sub, now), minInterval)
    {
      if sub in lastAttempt && now - lastAttempt[sub] < minInterval {
        return false;
      }
      lastAttempt := lastAttempt[sub := now];
      ghost var all := lastAttempt;
      var keys := lastAttempt.Keys;
      while keys != {}
        invariant keys <= all.Keys
        invariant forall k :: k in lastAttempt <==> k in all && (k in keys || now - all[k] <= TTL)
        invariant forall k :: k in lastAttempt ==> lastAttempt[k] == all[k]
        decreases keys
      {
        var k :| k in keys;
        keys := keys - {k};
        if k in lastAttempt && now - lastAttempt[k] > TTL {
          lastAttempt := lastAttempt - {k};
        }
      }
      return true;
    }
  }
}
