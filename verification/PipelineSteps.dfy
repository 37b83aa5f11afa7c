/** Every step of the pipeline grows its histories and keeps the invariant. */
module PipelineSteps {
  import opened Options
  import opened Events
  import opened Queue
  import opened Pipeline
  import opened PipelineInvariant

  // ----- established facts survive growth

  lemma EntryStable(s: State, s': State, m: nat)
    requires Grows(s, s') && m < |s.q.entries|
    ensures m < |s'.q.entries| && s'.q.entries[m] == s.q.entries[m]
  {
  }

  lemma LogStable(s: State, s': State, t: nat)
    requires Grows(s, s') && t < |s.q.log|
    ensures t < |s'.q.log| && s'.q.log[t] == s.q.log[t] && Ordinal(s'.q.log, t) == Ordinal(s.q.log, t)
    ensures Times(s.q.log, s.q.log[t]) <= Times(s'.q.log, s.q.log[t])
  {
    assert s'.q.log[..t + 1] == s.q.log[..t + 1];
    TimesGrow(s.q.log, s'.q.log, s.q.log[t]);
  }

  lemma TimesGrow(log: seq<nat>, log': seq<nat>, m: nat)
    requires log <= log'
    ensures Times(log, m) <= Times(log', m)
  {
  }

  lemma StoredStable(s: State, s': State, m: nat)
    requires Grows(s, s') && Stored(s, m)
    ensures Stored(s', m)
  {
  }

  lemma DeadLetteredStable(s: State, s': State, m: nat)
    requires Grows(s, s') && DeadLettered(s, m)
    ensures DeadLettered(s', m)
  {
  }

  lemma SideEffectsStable(s: State, s': State, m: nat, k: nat)
    requires Grows(s, s') && SideEffects(s, m, k) && m < |s.q.entries|
    ensures SideEffects(s', m, k)
  {
  }

  lemma FlightStable(s: State, s': State, t: nat, g: Stage)
    requires Grows(s, s') && FlightOk(s, t, g)
    requires Uncounted(g) ==> t !in s'.counted
    ensures FlightOk(s', t, g)
  {
    var m := s.q.log[t];
    LogStable(s, s', t);
    EntryStable(s, s', m);
    SideEffectsStable(s, s', m, Passed(g));
    if Stored(s, m) {
      StoredStable(s, s', m);
    }
    if DeadLettered(s, m) {
      DeadLetteredStable(s, s', m);
    }
  }

  /** Flights that a step neither adds nor changes stay sound. */
  lemma FlightsFrame(s: State, s': State, t0: nat)
    requires FlightsInv(s) && Grows(s, s')
    requires forall t :: t in s'.flights && t != t0 ==> t in s.flights && s'.flights[t] == s.flights[t]
    requires forall t :: t in s'.counted && t != t0 ==> t in s.counted
    requires t0 in s'.flights ==> FlightOk(s', t0, s'.flights[t0])
    ensures FlightsInv(s')
  {
    forall t | t in s'.flights && t != t0
      ensures FlightOk(s', t, s'.flights[t])
    {
      assert FlightOk(s, t, s.flights[t]);
      FlightStable(s, s', t, s.flights[t]);
    }
  }

  lemma AckFrame(s: State, s': State)
    requires AckInv(s) && Grows(s, s') && GroupInv(s.q)
    ensures forall m :: m in s.q.acked ==> Stored(s', m) || DeadLettered(s', m)
    ensures forall m :: m in s.storeAcked ==> m in s'.q.acked && Stored(s', m) && SideEffects(s', m, 3)
  {
  }

  lemma AckKept(s: State, s': State)
    requires AckInv(s) && GroupInv(s.q) && Grows(s, s')
    requires s'.q.acked == s.q.acked && s'.storeAcked == s.storeAcked
    ensures AckInv(s')
  {
    AckFrame(s, s');
  }

  lemma DeadFrame(s: State, s': State, d: DeadLetter)
    requires DeadOk(s, d) && Grows(s, s')
    ensures DeadOk(s', d)
  {
    var m :| 0 <= m < |s.q.entries| && s.q.entries[m] == d.payload
             && (d.reason.MaxRetries? ==> Times(s.q.log, m) >= MAX_RETRIES)
             && (d.reason.DecodeFailed? ==> d.payload.Bad?);
    TimesGrow(s.q.log, s'.q.log, m);
    assert s'.q.entries[m] == d.payload;
  }

  lemma DeadInvFrame(s: State, s': State)
    requires DeadInv(s) && Grows(s, s') && s'.db.dead == s.db.dead
    ensures DeadInv(s')
  {
    forall k | 0 <= k < |s'.db.dead|
      ensures DeadOk(s', s'.db.dead[k])
    {
      assert DeadOk(s, s.db.dead[k]);
      DeadFrame(s, s', s.db.dead[k]);
    }
  }

  lemma RowsFrame(s: State, s': State)
    requires RowsInv(s) && Grows(s, s') && s'.db.rows == s.db.rows
    ensures RowsInv(s')
  {
  }

  lemma OriginStable(s: State, s': State, r: Row)
    requires Grows(s, s') && HasOrigin(s, r)
    ensures HasOrigin(s', r)
  {
  }

  lemma PublishedFrame(s: State, s': State)
    requires PublishedInv(s) && Grows(s, s')
    requires forall m :: |s.q.entries| <= m < |s'.q.entries| && s'.q.entries[m].Good? ==>
                           IsIssued(s', s'.q.entries[m].event)
    ensures PublishedInv(s')
  {
  }

  /** A request whose send is still there, with the same items, stays sound. */
  lemma RequestStable(s: State, s': State, r: Request)
    requires Grows(s, s') && RequestOk(s, r)
    requires forall i :: i in s.sends ==>
                           && i in s'.sends && s'.sends[i].project == s.sends[i].project
                           && s'.sends[i].items == s.sends[i].items
    ensures RequestOk(s', r)
  {
  }

  lemma RequestsFrame(s: State, s': State, r0: nat)
    requires RequestsInv(s) && Grows(s, s')
    requires forall i :: i in s.sends ==>
                           && i in s'.sends && s'.sends[i].project == s.sends[i].project
                           && s'.sends[i].items == s.sends[i].items
    requires forall r :: r in s'.requests && r != r0 ==> r in s.requests && s'.requests[r] == s.requests[r]
    requires r0 in s'.requests ==> RequestOk(s', s'.requests[r0])
    ensures RequestsInv(s')
  {
  }

  lemma SendStable(s: State, s': State, d: Send)
    requires Grows(s, s') && SendOk(s, d)
    ensures SendOk(s', d)
  {
  }

  lemma SendsFrame(s: State, s': State)
    requires SendsInv(s) && Grows(s, s')
    requires forall i :: i in s'.sends ==> i in s.sends && s'.sends[i] == s.sends[i]
    ensures SendsInv(s')
  {
  }

  lemma SideFrame(s: State, s': State)
    requires SideInv(s) && Grows(s, s')
    ensures forall p :: p in s.db.pairs ==> PairHasOrigin(s', p)
    ensures forall a :: a in s.db.dau ==> ActiveHasOrigin(s', a)
  {
  }

  lemma SideKept(s: State, s': State)
    requires SideInv(s) && Grows(s, s') && s'.db.pairs == s.db.pairs && s'.db.dau == s.db.dau
    ensures SideInv(s')
  {
  }

  lemma CountFrame(s: State, s': State)
    requires CountInv(s) && Grows(s, s') && s'.db.counts == s.db.counts && s'.counted == s.counted
    ensures CountInv(s')
  {
    forall k
      ensures CountedFor(s', k) == CountedFor(s, k)
    {
    }
  }

  lemma HandledFrame(s: State, s': State)
    requires HandledInv(s) && Grows(s, s')
    ensures forall t :: t in s.handled ==>
                          t < |s'.q.log| && (s'.q.log[t] !in s'.missed.told ==> Ordinal(s'.q.log, t) <= 2)
  {
    forall t | t in s.handled
      ensures t < |s'.q.log| && (s'.q.log[t] !in s'.missed.told ==> Ordinal(s'.q.log, t) <= 2)
    {
      LogStable(s, s', t);
    }
  }

  lemma HandledKept(s: State, s': State)
    requires HandledInv(s) && Grows(s, s') && s'.handled == s.handled
    ensures HandledInv(s')
  {
    HandledFrame(s, s');
  }

  lemma IssuedKept(s: State, s': State)
    requires IssuedInv(s) && s'.issued == s.issued && s'.tracked == s.tracked && s'.usedKeys == s.usedKeys
    ensures IssuedInv(s')
  {
  }

  /** A step that leaves the histories, the tables and the issued IDs alone keeps what is said about them. */
  lemma TablesFrame(s: State, s': State)
    requires Inv(s) && Grows(s, s')
    requires s'.db == s.db && s'.issued == s.issued && s'.tracked == s.tracked && s'.usedKeys == s.usedKeys
    requires s'.counted == s.counted
    ensures RowsInv(s') && IssuedInv(s') && DeadInv(s') && CountInv(s') && SideInv(s')
  {
    hide GroupInv, RowsInv, IssuedInv, PublishedInv, RequestsInv, SendsInv, FlightsInv, AckInv, DeadInv, CountInv,
         SideInv, HandledInv;
    RowsFrame(s, s');
    IssuedKept(s, s');
    DeadInvFrame(s, s');
    CountFrame(s, s');
    SideKept(s, s');
  }

  /** Steps that leave the flights alone. */
  lemma FlightsKept(s: State, s': State)
    requires FlightsInv(s) && Grows(s, s') && s'.flights == s.flights && s'.counted == s.counted
    ensures FlightsInv(s')
  {
    forall t | t in s'.flights
      ensures FlightOk(s', t, s'.flights[t])
    {
      assert FlightOk(s, t, s.flights[t]);
      FlightStable(s, s', t, s.flights[t]);
    }
  }

  /** Steps that leave the requests and the sends alone. */
  lemma RequestsKept(s: State, s': State)
    requires RequestsInv(s) && SendsInv(s) && Grows(s, s') && s'.requests == s.requests && s'.sends == s.sends
    ensures RequestsInv(s') && SendsInv(s')
  {
  }

  /** What a step of the SDK or the ingest handler leaves alone: deliveries, dead letters and tallies. */
  lemma WorkerSideFrame(s: State, s': State)
    requires Inv(s) && Grows(s, s')
    requires s'.db == s.db.(rows := s'.db.rows) && s'.q == s.q.(entries := s'.q.entries)
    requires s'.flights == s.flights && s'.counted == s.counted && s'.handled == s.handled
    requires s'.storeAcked == s.storeAcked && s'.missed == s.missed
    ensures GroupInv(s'.q) && FlightsInv(s') && AckInv(s') && DeadInv(s')
    ensures CountInv(s') && SideInv(s') && HandledInv(s')
  {
    assert GroupInv(s'.q);
    hide GroupInv, RowsInv, IssuedInv, PublishedInv, RequestsInv, SendsInv, FlightsInv, AckInv, DeadInv, CountInv,
         SideInv, HandledInv;
    FlightsKept(s, s');
    AckKept(s, s');
    DeadInvFrame(s, s');
    CountFrame(s, s');
    SideKept(s, s');
    HandledKept(s, s');
  }

  lemma PublishedKept(s: State, s': State)
    requires PublishedInv(s) && Grows(s, s') && s'.q.entries == s.q.entries
    ensures PublishedInv(s')
  {
  }

  // ----- the SDK and the ingest handler

  /** New tracked keys carry no event yet, so the issued events still come from their items. */
  lemma TrackNames(s: State, sid: nat, project: string, items: seq<Item>)
    requires IssuedInv(s) && CanTrack(s, sid, items)
    ensures var s' := DoTrack(s, sid, project, items);
            && IssuedInv(s')
            && (forall k :: k in s.tracked ==> k in s'.tracked && s'.tracked[k] == s.tracked[k])
            && (forall k :: 0 <= k < |items| ==>
                  items[k].key in s'.tracked && s'.tracked[items[k].key] == (project, items[k]))
  {
    var s' := DoTrack(s, sid, project, items);
    var keys := seq(|items|, i requires 0 <= i < |items| => items[i].key);
    forall k | k in s.tracked
      ensures k in s'.tracked && s'.tracked[k] == s.tracked[k]
    {
      assert k !in keys;
    }
    forall k | 0 <= k < |items|
      ensures items[k].key in s'.tracked && s'.tracked[items[k].key] == (project, items[k])
    {
      assert keys[k] == items[k].key;
      assert items[IndexOf(keys, items[k].key)].key == items[k].key;
    }
    forall i | i in s'.issued
      ensures s'.issued[i].key in s'.tracked ==> From(s'.tracked[s'.issued[i].key], s'.issued[i])
    {
      assert s.issued[i].key !in keys;
    }
  }

  lemma TrackKeeps(s: State, sid: nat, project: string, items: seq<Item>)
    requires Inv(s) && CanTrack(s, sid, items)
    ensures Grows(s, DoTrack(s, sid, project, items)) && Inv(DoTrack(s, sid, project, items))
  {
    var s' := DoTrack(s, sid, project, items);
    TrackNames(s, sid, project, items);
    assert Grows(s, s');
    assert SendOk(s', s'.sends[sid]);
    AddSendKeeps(s, s', sid);
  }

  lemma AddSendKeeps(s: State, s': State, sid: nat)
    requires Inv(s) && Grows(s, s') && IssuedInv(s')
    requires s' == s.(sends := s'.sends, tracked := s'.tracked, usedKeys := s'.usedKeys)
    requires sid !in s.sends && sid in s'.sends && s'.sends == s.sends[sid := s'.sends[sid]]
    requires SendOk(s', s'.sends[sid])
    ensures Inv(s')
  {
    assert SendsInv(s') by {
      forall i | i in s'.sends && i != sid
        ensures SendOk(s', s'.sends[i])
      {
        SendStable(s, s', s.sends[i]);
      }
    }
    assert RequestsInv(s') by {
      forall r | r in s'.requests
        ensures RequestOk(s', s'.requests[r])
      {
        RequestStable(s, s', s.requests[r]);
      }
    }
    hide GroupInv, RowsInv, IssuedInv, PublishedInv, RequestsInv, SendsInv, FlightsInv, AckInv, DeadInv, CountInv,
         SideInv, HandledInv;
    WorkerSideFrame(s, s');
    RowsFrame(s, s');
    PublishedKept(s, s');
  }

  /** A new request issues its events under their IDs. */
  lemma NewRequestIssues(s: State, r: nat, project: string, items: seq<Item>, ids: seq<string>, now: int,
                         send: Option<nat>)
    requires CanAccept(s, r, items, ids)
    ensures var s' := NewRequest(s, r, project, items, ids, now, send);
            && (forall i :: i in s.issued ==> i in s'.issued && s'.issued[i] == s.issued[i])
            && (forall i :: i in s'.issued && i !in s.issued ==>
                  i in ids && s'.issued[i] == BuildEvent(items[IndexOf(ids, i)], project, i, now))
            && (forall k :: 0 <= k < |ids| ==> IsIssued(s', BuildEvent(items[k], project, ids[k], now)))
  {
    var s' := NewRequest(s, r, project, items, ids, now, send);
    var added := IssuedBy(items, project, ids, now);
    assert s'.issued == s.issued + added;
    forall k | 0 <= k < |ids|
      ensures IsIssued(s', BuildEvent(items[k], project, ids[k], now))
    {
      assert ids[k] in added;
      var j := IndexOf(ids, ids[k]);
      assert ids[j] == ids[k];
      assert j == k;
    }
  }

  lemma NewRequestIssuedInv(s: State, r: nat, project: string, items: seq<Item>, ids: seq<string>, now: int,
                            send: Option<nat>)
    requires IssuedInv(s) && SendsInv(s) && CanAccept(s, r, items, ids)
    requires match send
             case None => forall i :: 0 <= i < |items| ==> items[i].key !in s.tracked
             case Some(sid) => sid in s.sends && s.sends[sid].project == project && s.sends[sid].items == items
    ensures IssuedInv(NewRequest(s, r, project, items, ids, now, send))
  {
    var s' := NewRequest(s, r, project, items, ids, now, send);
    NewRequestIssues(s, r, project, items, ids, now, send);
    forall i | i in s'.issued && i !in s.issued
      ensures s'.issued[i].id == i && s'.issued[i].key in s'.usedKeys
      ensures s'.issued[i].key in s'.tracked ==> From(s'.tracked[s'.issued[i].key], s'.issued[i])
    {
      var k := IndexOf(ids, i);
      assert s'.issued[i].key == items[k].key;
      if send.Some? {
        assert SendOk(s, s.sends[send.value]);
      }
    }
  }

  lemma RequestKeeps(s: State, r: nat, project: string, items: seq<Item>, ids: seq<string>, now: int, send: Option<nat>)
    requires Inv(s) && CanAccept(s, r, items, ids)
    requires match send
             case None => forall i :: 0 <= i < |items| ==> items[i].key !in s.tracked
             case Some(sid) => sid in s.sends && s.sends[sid].project == project && s.sends[sid].items == items
    ensures Grows(s, NewRequest(s, r, project, items, ids, now, send))
    ensures Inv(NewRequest(s, r, project, items, ids, now, send))
  {
    var s' := NewRequest(s, r, project, items, ids, now, send);
    NewRequestIssues(s, r, project, items, ids, now, send);
    NewRequestIssuedInv(s, r, project, items, ids, now, send);
    assert Grows(s, s');
    assert RequestOk(s', s'.requests[r]);
    AddRequestKeeps(s, s', r);
  }

  lemma AddRequestKeeps(s: State, s': State, r: nat)
    requires Inv(s) && Grows(s, s') && IssuedInv(s')
    requires s' == s.(requests := s'.requests, issued := s'.issued, usedKeys := s'.usedKeys)
    requires r in s'.requests && s'.requests == s.requests[r := s'.requests[r]]
    requires RequestOk(s', s'.requests[r])
    ensures Inv(s')
  {
    hide GroupInv, RowsInv, IssuedInv, PublishedInv, RequestsInv, SendsInv, FlightsInv, AckInv, DeadInv, CountInv,
         SideInv, HandledInv;
    RequestsFrame(s, s', r);
    SendsFrame(s, s');
    WorkerSideFrame(s, s');
    RowsFrame(s, s');
    PublishedFrame(s, s');
  }

  lemma AppendKeeps(s: State, p: Payload)
    requires Inv(s)
    requires p.Good? ==> IsIssued(s, p.event)
    ensures Grows(s, s.(q := Append(s.q, p))) && Inv(s.(q := Append(s.q, p)))
  {
    var s' := s.(q := Append(s.q, p));
    assert Grows(s, s');
    PublishedFrame(s, s');
    hide GroupInv, RowsInv, IssuedInv, PublishedInv, RequestsInv, SendsInv, FlightsInv, AckInv, DeadInv, CountInv,
         SideInv, HandledInv;
    WorkerSideFrame(s, s');
    RowsFrame(s, s');
    IssuedKept(s, s');
    RequestsKept(s, s');
  }

  /** Changing one request, soundly, and nothing else. */
  lemma RequestUpdateKeeps(s: State, r: nat, q: Request)
    requires Inv(s) && RequestOk(s, q)
    ensures Grows(s, s.(requests := s.requests[r := q])) && Inv(s.(requests := s.requests[r := q]))
  {
    var s' := s.(requests := s.requests[r := q]);
    assert Grows(s, s');
    RequestStable(s, s', q);
    RequestsChangeKeeps(s, s', r);
  }

  lemma DropKeeps(s: State, r: nat)
    requires Inv(s)
    ensures Grows(s, s.(requests := s.requests - {r})) && Inv(s.(requests := s.requests - {r}))
  {
    var s' := s.(requests := s.requests - {r});
    assert Grows(s, s');
    RequestsChangeKeeps(s, s', r);
  }

  lemma RequestsChangeKeeps(s: State, s': State, r: nat)
    requires Inv(s) && Grows(s, s')
    requires s' == s.(requests := s'.requests)
    requires forall x :: x in s'.requests && x != r ==> x in s.requests && s'.requests[x] == s.requests[x]
    requires r in s'.requests ==> RequestOk(s', s'.requests[r])
    ensures Inv(s')
  {
    hide GroupInv, RowsInv, IssuedInv, PublishedInv, RequestsInv, SendsInv, FlightsInv, AckInv, DeadInv, CountInv,
         SideInv, HandledInv;
    RequestsFrame(s, s', r);
    SendsFrame(s, s');
    WorkerSideFrame(s, s');
    RowsFrame(s, s');
    IssuedKept(s, s');
    PublishedKept(s, s');
  }

  lemma GrowsReflexive(s: State)
    ensures Grows(s, s)
  {
  }

  lemma GrowsTransitive(a: State, b: State, c: State)
    requires Grows(a, b) && Grows(b, c)
    ensures Grows(a, c)
  {
  }

  /** One more event of a request went through the pipeline. */
  lemma RequestAdvances(s: State, q: Request, o: Outcome)
    requires RequestOk(s, q) && q.phase.Publishing? && q.phase.pos < |q.events|
    requires o.Applied() ==> IsPublished(s, q.events[q.phase.pos])
    ensures RequestOk(s, q.(phase := Publishing(q.phase.pos + 1, q.phase.failed || o.Error())))
  {
  }

  lemma KnownRequest(s: State, r: nat)
    requires Inv(s) && r in s.requests
    ensures RequestOk(s, s.requests[r])
  {
  }

  lemma XAddKeeps(s: State, r: nat, o: Outcome)
    requires Inv(s) && CanXAdd(s, r)
    ensures Grows(s, DoXAdd(s, r, o)) && Inv(DoXAdd(s, r, o))
  {
    hide Inv, Grows;
    KnownRequest(s, r);
    var q := s.requests[r];
    var e := q.events[q.phase.pos];
    var q' := q.(phase := Publishing(q.phase.pos + 1, q.phase.failed || o.Error()));
    assert IsIssued(s, e);
    hide RequestOk;
    if o.Applied() {
      var mid := s.(q := Append(s.q, Good(e)));
      AppendKeeps(s, Good(e));
      assert mid.q.entries[|s.q.entries|] == Good(e);
      RequestStable(s, mid, q);
      RequestAdvances(mid, q, o);
      RequestUpdateKeeps(mid, r, q');
      GrowsTransitive(s, mid, DoXAdd(s, r, o));
    } else {
      RequestAdvances(s, q, o);
      RequestUpdateKeeps(s, r, q');
    }
  }

  lemma RowsUpdateKeeps(s: State, rows: Rows)
    requires Inv(s) && SubRows(s.db.rows, rows) && Integrity(rows)
    requires forall i :: i in rows && i !in s.db.rows ==> HasOrigin(s, rows[i])
    ensures Grows(s, s.(db := s.db.(rows := rows))) && Inv(s.(db := s.db.(rows := rows)))
  {
    var s' := s.(db := s.db.(rows := rows));
    assert Grows(s, s');
    assert RowsInv(s') by {
      forall i | i in rows
        ensures HasOrigin(s', rows[i])
      {
        assert HasOrigin(s, rows[i]);
        OriginStable(s, s', rows[i]);
      }
    }
    hide GroupInv, RowsInv, IssuedInv, PublishedInv, RequestsInv, SendsInv, FlightsInv, AckInv, DeadInv, CountInv,
         SideInv, HandledInv;
    WorkerSideFrame(s, s');
    IssuedKept(s, s');
    RequestsKept(s, s');
    PublishedKept(s, s');
  }

  lemma WriteKeeps(s: State, r: nat, o: Outcome)
    requires Inv(s) && CanWrite(s, r)
    ensures Grows(s, DoWrite(s, r, o)) && Inv(DoWrite(s, r, o))
  {
    var q := s.requests[r];
    assert RequestOk(s, q) && RowsInv(s);
    hide Inv;
    var rows := InsertAll(s.db.rows, q.events);
    var mid := if o.Applied() then s.(db := s.db.(rows := rows)) else s;
    if o.Applied() {
      InsertAllKeeps(s.db.rows, q.events);
      forall i | i in rows && i !in s.db.rows
        ensures HasOrigin(s, rows[i])
      {
        InsertAllOrigin(s.db.rows, q.events, i);
        var k :| 0 <= k < |q.events| && Holds(rows[i], q.events[k]);
        assert IsPublished(s, q.events[k]);
        var m :| 0 <= m < |s.q.entries| && s.q.entries[m] == Good(q.events[k]);
        assert s.q.entries[m].Good?;
      }
      RowsUpdateKeeps(s, rows);
    }
    assert RequestOk(mid, q);
    RequestUpdateKeeps(mid, r, q.(phase := Written));
    GrowsTransitive(s, mid, DoWrite(s, r, o));
  }

  /** A request past its direct write has published every item of its send. */
  lemma WrittenSend(s: State, d: Send, q: Request, sid: nat)
    requires RequestOk(s, q) && q.phase.Written? && q.send == Some(sid) && s.sends[sid] == d && SendOk(s, d)
    ensures SendOk(s, d.(ok := true))
  {
  }

  lemma SendUpdateKeeps(s: State, sid: nat, d: Send)
    requires Inv(s) && sid in s.sends && d.items == s.sends[sid].items && d.project == s.sends[sid].project
    requires SendOk(s, d)
    ensures Grows(s, s.(sends := s.sends[sid := d])) && Inv(s.(sends := s.sends[sid := d]))
  {
    var s' := s.(sends := s.sends[sid := d]);
    assert Grows(s, s');
    assert SendsInv(s') by {
      forall i | i in s'.sends
        ensures SendOk(s', s'.sends[i])
      {
        SendStable(s, s', if i == sid then d else s.sends[i]);
      }
    }
    assert RequestsInv(s') by {
      forall r | r in s'.requests
        ensures RequestOk(s', s'.requests[r])
      {
        RequestStable(s, s', s.requests[r]);
      }
    }
    hide GroupInv, RowsInv, IssuedInv, PublishedInv, RequestsInv, SendsInv, FlightsInv, AckInv, DeadInv, CountInv,
         SideInv, HandledInv;
    WorkerSideFrame(s, s');
    RowsFrame(s, s');
    IssuedKept(s, s');
    PublishedKept(s, s');
  }

  lemma ReplyKeeps(s: State, r: nat, arrives: bool)
    requires Inv(s) && CanReply(s, r)
    ensures Grows(s, DoReply(s, r, arrives)) && Inv(DoReply(s, r, arrives))
  {
    var q := s.requests[r];
    assert RequestOk(s, q) && SendsInv(s);
    hide Inv;
    if arrives && q.send.Some? {
      var sid := q.send.value;
      var d := s.sends[sid].(ok := true);
      assert SendOk(s, s.sends[sid]);
      WrittenSend(s, s.sends[sid], q, sid);
      var mid := s.(sends := s.sends[sid := d]);
      SendUpdateKeeps(s, sid, d);
      DropKeeps(mid, r);
      GrowsTransitive(s, mid, DoReply(s, r, arrives));
    } else {
      DropKeeps(s, r);
    }
  }
}
