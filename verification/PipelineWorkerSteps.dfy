/** The worker's steps keep the invariant. */
module PipelineWorkerSteps {
  import opened Options
  import opened Events
  import opened Queue
  import opened Pipeline
  import opened PipelineInvariant
  import opened PipelineSteps

  /** A worker step leaves the events, the requests and the sends alone. */
  lemma RestFrame(s: State, s': State)
    requires Inv(s) && Grows(s, s')
    requires s'.q.entries == s.q.entries && s'.requests == s.requests && s'.sends == s.sends
    requires s'.issued == s.issued && s'.tracked == s.tracked && s'.usedKeys == s.usedKeys
    ensures IssuedInv(s') && PublishedInv(s') && RequestsInv(s') && SendsInv(s')
  {
    hide GroupInv, RowsInv, IssuedInv, PublishedInv, RequestsInv, SendsInv, FlightsInv, AckInv, DeadInv, CountInv,
         SideInv, HandledInv;
    IssuedKept(s, s');
    PublishedKept(s, s');
    RequestsKept(s, s');
  }

  /** A delivery: the log grows by m, and the new delivery may take off in stage g. */
  lemma DeliveryKeeps(s: State, q: Group, m: nat, g: Stage, got: bool)
    requires Inv(s) && GroupInv(q)
    requires q.entries == s.q.entries && q.log == s.q.log + [m] && s.q.next <= q.next && q.acked == s.q.acked
    requires g == Claimed || (g == Waiting(0) && Times(q.log, m) == 1)
    ensures var s' := s.(q := q, flights := if got then s.flights[|s.q.log| := g] else s.flights);
            Grows(s, s') && Inv(s')
  {
    var s' := s.(q := q, flights := if got then s.flights[|s.q.log| := g] else s.flights);
    var t := |s.q.log|;
    assert Grows(s, s');
    assert FlightsInv(s') by {
      assert q.log[t] == m && q.log[..t + 1] == q.log;
      assert t !in s.counted && t !in s.flights;
      FlightsFrame(s, s', t);
    }
    hide GroupInv, RowsInv, IssuedInv, PublishedInv, RequestsInv, SendsInv, FlightsInv, AckInv, DeadInv, CountInv,
         SideInv, HandledInv;
    TablesFrame(s, s');
    RestFrame(s, s');
    AckKept(s, s');
    HandledKept(s, s');
  }

  lemma TakeKeeps(s: State, now: int, got: bool)
    requires Inv(s)
    ensures Grows(s, DoTake(s, now, got)) && Inv(DoTake(s, now, got))
  {
    if s.q.next < |s.q.entries| {
      DeliverInv(s.q, now);
      DeliveryKeeps(s, Deliver(s.q, now), s.q.next, Waiting(0), got);
    }
  }

  lemma ClaimKeeps(s: State, m: nat, now: int, got: bool)
    requires Inv(s)
    ensures Grows(s, DoClaim(s, m, now, got)) && Inv(DoClaim(s, m, now, got))
  {
    if m in s.q.pending {
      RedeliverInv(s.q, m, now);
      DeliveryKeeps(s, Redeliver(s.q, m, now), m, Claimed, got);
    }
  }

  /** A flight moves on to a stage it is sound in, or ends, and nothing else changes. */
  lemma FlightMoveKeeps(s: State, s': State, t: nat)
    requires Inv(s)
    requires s' == s.(flights := s'.flights, missed := s'.missed, handled := s'.handled)
    requires s.missed.(told := s'.missed.told) == s'.missed && s.missed.told <= s'.missed.told
    requires s.handled <= s'.handled <= s.handled + {t}
    requires t in s'.handled && t !in s.handled ==>
               t < |s.q.log| && (s.q.log[t] !in s.missed.told ==> Ordinal(s.q.log, t) <= 2)
    requires forall u :: u in s'.flights && u != t ==> u in s.flights && s'.flights[u] == s.flights[u]
    requires t in s'.flights ==> FlightOk(s', t, s'.flights[t])
    ensures Grows(s, s') && Inv(s')
  {
    assert Grows(s, s');
    assert HandledInv(s') by {
      HandledFrame(s, s');
    }
    hide GroupInv, RowsInv, IssuedInv, PublishedInv, RequestsInv, SendsInv, FlightsInv, AckInv, DeadInv, CountInv,
         SideInv, HandledInv;
    TablesFrame(s, s');
    RestFrame(s, s');
    AckKept(s, s');
    FlightsFrame(s, s', t);
  }

  lemma CrashKeeps(s: State, t: nat)
    requires Inv(s)
    ensures Grows(s, s.(flights := s.flights - {t})) && Inv(s.(flights := s.flights - {t}))
  {
    FlightMoveKeeps(s, s.(flights := s.flights - {t}), t);
  }

  lemma KnownFlight(s: State, t: nat)
    requires Inv(s) && Flying(s, t)
    ensures FlightOk(s, t, s.flights[t]) && CountInv(s) && (Uncounted(s.flights[t]) ==> t !in s.counted)
  {
  }

  lemma KnownGroup(s: State)
    requires Inv(s)
    ensures GroupInv(s.q)
  {
  }

  lemma KnownRows(s: State)
    requires Inv(s)
    ensures RowsInv(s)
  {
  }

  lemma QueriedFlight(s: State, t: nat, ids: seq<nat>, ok: bool)
    requires GroupInv(s.q) && Flying(s, t) && FlightOk(s, t, Claimed)
    ensures FlightOk(DoQuery(s, t, ids, ok), t, DoQuery(s, t, ids, ok).flights[t])
  {
    ReportNeverOver(s.q.pending, ids, MessageOf(s, t));
    TimesMonotone(s.q.log, t + 1, MessageOf(s, t));
  }

  lemma QueryKeeps(s: State, t: nat, ids: seq<nat>, ok: bool)
    requires Inv(s) && Flying(s, t) && s.flights[t].Claimed?
    ensures Grows(s, DoQuery(s, t, ids, ok)) && Inv(DoQuery(s, t, ids, ok))
  {
    KnownGroup(s);
    hide Inv, FlightOk, GroupInv, Grows;
    KnownFlight(s, t);
    QueriedFlight(s, t, ids, ok);
    FlightMoveKeeps(s, DoQuery(s, t, ids, ok), t);
  }

  lemma BegunFlight(s: State, t: nat)
    requires Flying(s, t) && s.flights[t].Waiting? && FlightOk(s, t, s.flights[t])
    ensures FlightOk(DoBegin(s, t), t, DoBegin(s, t).flights[t])
    ensures t in DoBegin(s, t).handled && t !in s.handled && s.q.log[t] !in s.missed.told ==> Ordinal(s.q.log, t) <= 2
  {
    hide Times, Stored, DeadLettered, Ordinal;
  }

  lemma BeginKeeps(s: State, t: nat)
    requires Inv(s) && Flying(s, t) && s.flights[t].Waiting?
    ensures Grows(s, DoBegin(s, t)) && Inv(DoBegin(s, t))
  {
    hide Inv, FlightOk, Ordinal, Grows;
    KnownFlight(s, t);
    BegunFlight(s, t);
    FlightMoveKeeps(s, DoBegin(s, t), t);
  }

  /** A step that changes only side tables, tallies, misses and flights. */
  lemma SideTablesFrame(s: State, s': State)
    requires Inv(s) && Grows(s, s')
    requires s' == s.(db := s.db.(pairs := s'.db.pairs, dau := s'.db.dau, counts := s'.db.counts),
                      flights := s'.flights, missed := s'.missed, counted := s'.counted)
    ensures GroupInv(s'.q) && RowsInv(s') && IssuedInv(s') && PublishedInv(s') && RequestsInv(s') && SendsInv(s')
    ensures AckInv(s') && DeadInv(s') && HandledInv(s')
  {
    hide GroupInv, RowsInv, IssuedInv, PublishedInv, RequestsInv, SendsInv, FlightsInv, AckInv, DeadInv, CountInv,
         SideInv, HandledInv;
    RowsFrame(s, s');
    RestFrame(s, s');
    DeadInvFrame(s, s');
    AckKept(s, s');
    HandledKept(s, s');
  }

  /** The side statements: what they add to the side tables comes from the delivery's message. */
  lemma SideStepKeeps(s: State, s': State, t: nat)
    requires Inv(s) && Handling(s, t)
    requires s' == s.(db := s.db.(pairs := s'.db.pairs, dau := s'.db.dau), flights := s'.flights, missed := s'.missed)
    requires s.db.pairs <= s'.db.pairs <= s.db.pairs + PairsOf(s.subs, EventOf(s, t))
    requires s.db.dau <= s'.db.dau <= s.db.dau + ActiveOf(EventOf(s, t))
    requires Grows(s, s') && s'.missed.told == s.missed.told
    requires t in s'.flights && s'.flights == s.flights[t := s'.flights[t]]
    requires FlightOk(s', t, s'.flights[t])
    ensures Inv(s')
  {
    assert SideInv(s') by {
      SideFrame(s, s');
      assert s'.q.entries[MessageOf(s, t)].Good?;
    }
    hide GroupInv, RowsInv, IssuedInv, PublishedInv, RequestsInv, SendsInv, FlightsInv, AckInv, DeadInv, CountInv,
         SideInv, HandledInv;
    SideTablesFrame(s, s');
    CountFrame(s, s');
    FlightsFrame(s, s', t);
  }

  lemma EnqueuedFlight(s: State, t: nat, o: Outcome)
    requires Handling(s, t) && s.flights[t] == AtEnqueue && FlightOk(s, t, AtEnqueue)
    ensures Grows(s, DoEnqueue(s, t, o))
    ensures FlightOk(DoEnqueue(s, t, o), t, AtCount)
  {
  }

  lemma EnqueueKeeps(s: State, t: nat, o: Outcome)
    requires Inv(s) && Handling(s, t) && s.flights[t].AtEnqueue?
    ensures Grows(s, DoEnqueue(s, t, o)) && Inv(DoEnqueue(s, t, o))
  {
    hide Inv, FlightOk, Grows;
    KnownFlight(s, t);
    EnqueuedFlight(s, t, o);
    SideStepKeeps(s, DoEnqueue(s, t, o), t);
  }

  lemma ActiveFlight(s: State, t: nat, o: Outcome)
    requires Handling(s, t) && s.flights[t] == AtDau && FlightOk(s, t, AtDau)
    ensures Grows(s, DoDau(s, t, o))
    ensures FlightOk(DoDau(s, t, o), t, AtAck)
  {
  }

  lemma DauKeeps(s: State, t: nat, o: Outcome)
    requires Inv(s) && Handling(s, t) && s.flights[t].AtDau?
    ensures Grows(s, DoDau(s, t, o)) && Inv(DoDau(s, t, o))
  {
    hide Inv, FlightOk, Grows;
    KnownFlight(s, t);
    ActiveFlight(s, t, o);
    SideStepKeeps(s, DoDau(s, t, o), t);
  }

  /** events.Store adds at most the event's own row; afterwards the event is in the table. */
  lemma StoredRows(s: State, m: nat, e: Event)
    requires RowsInv(s) && m < |s.q.entries| && s.q.entries[m] == Good(e)
    ensures var rows := Insert(s.db.rows, e);
            && SubRows(s.db.rows, rows) && Integrity(rows)
            && (forall i :: i in rows && i !in s.db.rows ==> HasOrigin(s, rows[i]))
            && Stored(s.(db := s.db.(rows := rows)), m)
  {
  }

  lemma StoredFlight(s: State, s': State, t: nat)
    requires Flying(s, t) && FlightOk(s, t, AtStore) && Stored(s', MessageOf(s, t))
    requires s'.q == s.q && s'.counted == s.counted && s'.missed == s.missed
    ensures FlightOk(s', t, AtEnqueue)
  {
  }

  lemma StoreKeeps(s: State, t: nat, o: Outcome)
    requires Inv(s) && Handling(s, t) && s.flights[t].AtStore?
    ensures Grows(s, DoStore(s, t, o)) && Inv(DoStore(s, t, o))
  {
    KnownRows(s);
    hide Inv, FlightOk, Grows, RowsInv, Integrity, SubRows, HasOrigin, Stored;
    KnownFlight(s, t);
    var s' := DoStore(s, t, o);
    if o.Applied() {
      var rows := Insert(s.db.rows, EventOf(s, t));
      var mid := s.(db := s.db.(rows := rows));
      StoredRows(s, MessageOf(s, t), EventOf(s, t));
      RowsUpdateKeeps(s, rows);
      StoredLater(mid, s', MessageOf(s, t));
      StoredFlight(s, s', t);
      FlightMoveKeeps(mid, s', t);
      GrowsTransitive(s, mid, s');
    } else {
      FlightMoveKeeps(s, s', t);
    }
  }

  lemma StoredLater(s: State, s': State, m: nat)
    requires Stored(s, m) && s'.q == s.q && s'.db == s.db
    ensures Stored(s', m)
  {
  }

  lemma CountedAfter(s: State, s': State, t: nat, e: Event)
    requires CountInv(s) && Handling(s, t) && EventOf(s, t) == e && t !in s.counted
    requires s'.q == s.q && s'.counted == s.counted + {t} && s'.db.counts == Bump(s.db.counts, CountKeyOf(e))
    ensures CountInv(s')
  {
    forall k
      ensures CountAt(s'.db.counts, k) == |CountedFor(s', k)|
    {
      CountedOneMore(s, s', t, k);
      CountKeyMeans(k, e);
    }
  }

  lemma CountedOneMore(s: State, s': State, t: nat, k: CountKey)
    requires s'.q == s.q && s'.counted == s.counted + {t} && t !in s.counted
    ensures |CountedFor(s', k)| == |CountedFor(s, k)| + if CountsFor(s, t, k) then 1 else 0
  {
    assert forall u :: CountsFor(s', u, k) == CountsFor(s, u, k);
    hide CountsFor;
    if CountsFor(s, t, k) {
      assert CountedFor(s', k) == CountedFor(s, k) + {t};
    } else {
      assert CountedFor(s', k) == CountedFor(s, k);
    }
  }

  lemma TalliedFlight(s: State, t: nat, o: Outcome)
    requires Handling(s, t) && s.flights[t] == AtCount && FlightOk(s, t, AtCount)
    ensures Grows(s, DoCount(s, t, o))
    ensures FlightOk(DoCount(s, t, o), t, AtDau)
  {
  }

  lemma TallyKeeps(s: State, s': State, t: nat)
    requires Inv(s) && Grows(s, s')
    requires s' == s.(db := s.db.(counts := s'.db.counts), flights := s'.flights, missed := s'.missed,
                      counted := s'.counted)
    requires s'.counted <= s.counted + {t} && CountInv(s')
    requires t in s'.flights && s'.flights == s.flights[t := s'.flights[t]]
    requires FlightOk(s', t, s'.flights[t])
    ensures Inv(s')
  {
    hide GroupInv, RowsInv, IssuedInv, PublishedInv, RequestsInv, SendsInv, FlightsInv, AckInv, DeadInv, CountInv,
         SideInv, HandledInv;
    SideTablesFrame(s, s');
    SideKept(s, s');
    FlightsFrame(s, s', t);
  }

  lemma CountKeeps(s: State, t: nat, o: Outcome)
    requires Inv(s) && Handling(s, t) && s.flights[t].AtCount?
    ensures Grows(s, DoCount(s, t, o)) && Inv(DoCount(s, t, o))
  {
    hide Inv, FlightOk, Grows, CountInv;
    KnownFlight(s, t);
    TalliedFlight(s, t, o);
    var s' := DoCount(s, t, o);
    if o.Applied() {
      CountedAfter(s, s', t, EventOf(s, t));
    } else {
      CountFrame(s, s');
    }
    TallyKeeps(s, s', t);
  }

  /** XACK of a message that is stored or dead-lettered. */
  lemma AcknowledgeKeeps(s: State, t: nat, m: nat)
    requires Inv(s) && (Stored(s, m) || DeadLettered(s, m))
    ensures var s' := s.(q := Acknowledge(s.q, m), flights := s.flights - {t});
            Grows(s, s') && Inv(s')
  {
    var s' := s.(q := Acknowledge(s.q, m), flights := s.flights - {t});
    hide GroupInv, RowsInv, IssuedInv, PublishedInv, RequestsInv, SendsInv, FlightsInv, AckInv, DeadInv, CountInv,
         SideInv, HandledInv, Stored, DeadLettered;
    AcknowledgeInv(s.q, m);
    assert Grows(s, s');
    hide Grows;
    AckedMore(s, s', m);
    TablesFrame(s, s');
    RestFrame(s, s');
    HandledKept(s, s');
    FlightsFrame(s, s', t);
  }

  lemma AckedMore(s: State, s': State, m: nat)
    requires AckInv(s) && GroupInv(s.q) && Grows(s, s') && (Stored(s, m) || DeadLettered(s, m))
    requires s'.q.acked <= s.q.acked + {m} && s'.storeAcked == s.storeAcked
    ensures AckInv(s')
  {
    AckFrame(s, s');
    if Stored(s, m) {
      StoredStable(s, s', m);
    } else {
      DeadLetteredStable(s, s', m);
    }
  }

  lemma StoreAckedMore(s: State, s': State, m: nat)
    requires AckInv(s) && GroupInv(s.q) && Grows(s, s')
    requires m in s.q.acked && Stored(s, m) && SideEffects(s, m, 3)
    requires s'.q.acked == s.q.acked && s'.storeAcked == s.storeAcked + {m}
    ensures AckInv(s')
  {
    AckFrame(s, s');
    StoredStable(s, s', m);
    SideEffectsStable(s, s', m, 3);
  }

  lemma StoreAckedKeeps(s: State, m: nat)
    requires Inv(s) && m in s.q.acked && Stored(s, m) && SideEffects(s, m, 3)
    ensures Grows(s, s.(storeAcked := s.storeAcked + {m})) && Inv(s.(storeAcked := s.storeAcked + {m}))
  {
    var s' := s.(storeAcked := s.storeAcked + {m});
    assert Grows(s, s');
    StoreAckedMore(s, s', m);
    hide GroupInv, RowsInv, IssuedInv, PublishedInv, RequestsInv, SendsInv, FlightsInv, AckInv, DeadInv, CountInv,
         SideInv, HandledInv;
    TablesFrame(s, s');
    RestFrame(s, s');
    HandledKept(s, s');
    FlightsKept(s, s');
  }

  lemma DeadAckKeeps(s: State, t: nat, o: Outcome)
    requires Inv(s) && Flying(s, t) && s.flights[t].AtDeadAck?
    ensures Grows(s, DoDeadAck(s, t, o)) && Inv(DoDeadAck(s, t, o))
  {
    hide Inv, Grows, Acknowledge;
    KnownFlight(s, t);
    if o.Applied() {
      AcknowledgeKeeps(s, t, MessageOf(s, t));
    } else {
      CrashKeeps(s, t);
    }
  }

  lemma AckedFlight(s: State, mid: State, t: nat)
    requires Flying(s, t) && FlightOk(s, t, AtAck) && GroupInv(s.q) && Grows(s, mid)
    requires mid.q == Acknowledge(s.q, MessageOf(s, t))
    ensures MessageOf(s, t) in mid.q.acked && Stored(mid, MessageOf(s, t)) && SideEffects(mid, MessageOf(s, t), 3)
  {
  }

  lemma AckKeeps(s: State, t: nat, o: Outcome)
    requires Inv(s) && Handling(s, t) && s.flights[t].AtAck?
    ensures Grows(s, DoAck(s, t, o)) && Inv(DoAck(s, t, o))
  {
    KnownGroup(s);
    hide Inv, Grows, GroupInv, Acknowledge, Stored, SideEffects;
    KnownFlight(s, t);
    if o.Applied() {
      var m := MessageOf(s, t);
      var mid := s.(q := Acknowledge(s.q, m), flights := s.flights - {t});
      AcknowledgeKeeps(s, t, m);
      AckedFlight(s, mid, t);
      StoreAckedKeeps(mid, m);
      GrowsTransitive(s, mid, DoAck(s, t, o));
    } else {
      CrashKeeps(s, t);
    }
  }

  /** A dead-letter row for a stream payload, with a reason that holds of it. */
  lemma DeadRowKeeps(s: State, d: DeadLetter)
    requires Inv(s) && DeadOk(s, d)
    ensures Grows(s, s.(db := s.db.(dead := s.db.dead + [d]))) && Inv(s.(db := s.db.(dead := s.db.dead + [d])))
  {
    var s' := s.(db := s.db.(dead := s.db.dead + [d]));
    assert Grows(s, s');
    assert DeadInv(s') by {
      forall k | 0 <= k < |s'.db.dead|
        ensures DeadOk(s', s'.db.dead[k])
      {
        DeadFrame(s, s', s'.db.dead[k]);
      }
    }
    hide GroupInv, RowsInv, IssuedInv, PublishedInv, RequestsInv, SendsInv, FlightsInv, AckInv, DeadInv, CountInv,
         SideInv, HandledInv;
    RowsFrame(s, s');
    RestFrame(s, s');
    CountFrame(s, s');
    SideKept(s, s');
    AckKept(s, s');
    HandledKept(s, s');
    FlightsKept(s, s');
  }

  lemma DeadRowDue(s: State, t: nat)
    requires Flying(s, t) && s.flights[t].AtDeadInsert? && FlightOk(s, t, s.flights[t])
    ensures DeadOk(s, DeadLetterOf(s, t))
  {
  }

  lemma DeadLetteredFlight(s: State, s': State, t: nat)
    requires Flying(s, t) && s.flights[t].AtDeadInsert? && FlightOk(s, t, s.flights[t])
    requires s'.q == s.q && s'.db.dead == s.db.dead + [DeadLetterOf(s, t)]
    ensures FlightOk(s', t, AtDeadAck)
  {
    assert s'.db.dead[|s.db.dead|].payload == s'.q.entries[MessageOf(s, t)];
  }

  lemma DeadInsertKeeps(s: State, t: nat, o: Outcome)
    requires Inv(s) && Flying(s, t) && s.flights[t].AtDeadInsert?
    ensures Grows(s, DoDeadInsert(s, t, o)) && Inv(DoDeadInsert(s, t, o))
  {
    hide Inv, Grows, FlightOk, DeadOk;
    KnownFlight(s, t);
    var s' := DoDeadInsert(s, t, o);
    if o.Applied() {
      var mid := s.(db := s.db.(dead := s.db.dead + [DeadLetterOf(s, t)]));
      DeadRowDue(s, t);
      DeadRowKeeps(s, DeadLetterOf(s, t));
      DeadLetteredFlight(s, s', t);
      FlightMoveKeeps(mid, s', t);
      GrowsTransitive(s, mid, s');
    } else {
      FlightMoveKeeps(s, s', t);
    }
  }

  lemma StepKeeps(s: State, t: nat, o: Outcome)
    requires Inv(s) && Flying(s, t)
    ensures Grows(s, DoStep(s, t, o)) && Inv(DoStep(s, t, o))
  {
    GrowsReflexive(s);
    hide Inv, Grows;
    match s.flights[t]
    case Claimed =>
    case Waiting(_) =>
    case AtDeadInsert(_, _) => DeadInsertKeeps(s, t, FateOf(s.refuses.dead(PayloadOf(s, t)), o));
    case AtDeadAck => DeadAckKeeps(s, t, o);
    case AtStore => if Handling(s, t) { StoreKeeps(s, t, FateOf(s.refuses.store(EventOf(s, t)), o)); }
    case AtEnqueue => if Handling(s, t) { EnqueueKeeps(s, t, o); }
    case AtCount => if Handling(s, t) { CountKeeps(s, t, o); }
    case AtDau => if Handling(s, t) { DauKeeps(s, t, o); }
    case AtAck => if Handling(s, t) { AckKeeps(s, t, o); }
  }

  // ----- runs

  lemma ApplyIngestKeeps(s: State, a: Action)
    requires Inv(s) && !OfWorker(a)
    ensures Grows(s, ApplyIngest(s, a)) && Inv(ApplyIngest(s, a))
  {
    GrowsReflexive(s);
    hide Inv, Grows, DoTrack, NewRequest, DoXAdd, DoWrite, DoReply, Append;
    match a
    case Track(sid, project, items) => if CanTrack(s, sid, items) { TrackKeeps(s, sid, project, items); }
    case Post(r, sid, ids, now) =>
      if sid in s.sends && CanAccept(s, r, s.sends[sid].items, ids) {
        RequestKeeps(s, r, s.sends[sid].project, s.sends[sid].items, ids, now, Some(sid));
      }
    case Accept(r, project, items, ids, now) =>
      if CanAccept(s, r, items, ids) && (forall i :: 0 <= i < |items| ==> items[i].key !in s.tracked) {
        RequestKeeps(s, r, project, items, ids, now, None);
      }
    case Inject(raw, header) => AppendKeeps(s, Bad(raw, header));
    case XAdd(r, o) => if CanXAdd(s, r) { XAddKeeps(s, r, o); }
    case DirectWrite(r, o) =>
      if CanWrite(s, r) { WriteKeeps(s, r, FateOf(AnyRefused(s.refuses, s.requests[r].events), o)); }
    case Reply(r, arrives) => if CanReply(s, r) { ReplyKeeps(s, r, arrives); }
    case Drop(r) => DropKeeps(s, r);
  }

  lemma ApplyWorkerKeeps(s: State, a: Action)
    requires Inv(s) && OfWorker(a)
    ensures Grows(s, ApplyWorker(s, a)) && Inv(ApplyWorker(s, a))
  {
    GrowsReflexive(s);
    hide Inv, Grows;
    match a
    case Take(now, got) => TakeKeeps(s, now, got);
    case Claim(m, now, got) => ClaimKeeps(s, m, now, got);
    case Query(t, ids, ok) => if Flying(s, t) && s.flights[t].Claimed? { QueryKeeps(s, t, ids, ok); }
    case Begin(t) => if Flying(s, t) && s.flights[t].Waiting? { BeginKeeps(s, t); }
    case Do(t, o) => if Flying(s, t) { StepKeeps(s, t, o); }
    case Crash(t) => CrashKeeps(s, t);
  }

  /** One step from a good state: the histories grow and the invariant holds again. */
  lemma ApplyKeeps(s: State, a: Action)
    requires Inv(s)
    ensures Grows(s, Apply(s, a)) && Inv(Apply(s, a))
  {
    if OfWorker(a) {
      ApplyWorkerKeeps(s, a);
    } else {
      ApplyIngestKeeps(s, a);
    }
  }

  lemma {:induction false} ExecKeeps(s: State, acts: seq<Action>)
    requires Inv(s)
    ensures Grows(s, Exec(s, acts)) && Inv(Exec(s, acts))
    decreases |acts|
  {
    if acts != [] {
      var mid := Exec(s, acts[..|acts| - 1]);
      ExecKeeps(s, acts[..|acts| - 1]);
      ApplyKeeps(mid, acts[|acts| - 1]);
      GrowsTransitive(s, mid, Exec(s, acts));
    }
  }

  lemma RunInv(pg: Server, acts: seq<Action>)
    ensures Inv(Run(pg, acts))
  {
    ExecKeeps(Init(pg), acts);
  }
}
