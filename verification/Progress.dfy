/** Which messages can leave the stream: exactly those that Postgres takes in one of the two tables. What it refuses is
    never acknowledged; everything else is, in some continuation of every run, by rounds of the workers' code. */
module Progress {
  import opened Options
  import opened Events
  import opened Queue
  import opened Sets
  import opened Pipeline
  import opened PipelineInvariant
  import opened PipelineSteps
  import opened PipelineWorkerSteps
  import opened PipelineTheorems
  import opened Worker
  import opened Rounds

  // ----- what is refused never leaves

  /** A flight behind its INSERT. */
  predicate Behind(g: Stage) {
    g.AtEnqueue? || g.AtCount? || g.AtDau? || g.AtAck? || g.AtDeadAck?
  }

  predicate Lost(s: State, m: nat) {
    m < |s.q.entries| && Hopeless(s.refuses, s.q.entries[m])
  }

  /** No flight of a hopeless message got behind its INSERT, and none was acknowledged or dead-lettered. */
  ghost predicate TakenInv(s: State) {
    && (forall t :: t in s.flights && t < |s.q.log| && Behind(s.flights[t]) ==> !Lost(s, s.q.log[t]))
    && (forall m :: m in s.q.acked ==> !Lost(s, m))
    && (forall k :: 0 <= k < |s.db.dead| ==> !s.refuses.dead(s.db.dead[k].payload))
  }

  /** Only steps of workers move flights, acknowledge and dead-letter. */
  lemma IngestTakesNothing(s: State, a: Action)
    requires !OfWorker(a)
    ensures var s' := Apply(s, a);
            s'.flights == s.flights && s'.q.acked == s.q.acked && s'.q.log == s.q.log && s'.db.dead == s.db.dead
  {
    hide InsertAll, IssuedBy, BuildAll, CanAccept, CanTrack, AnyRefused;
  }

  /** Of the workers' steps only Do gets a flight behind its INSERT. */
  lemma OthersTakeNothing(s: State, a: Action)
    requires OfWorker(a) && !a.Do?
    ensures var s' := Apply(s, a);
            && s'.q.acked == s.q.acked && s'.db == s.db
            && forall t :: t in s'.flights && Behind(s'.flights[t]) ==> t in s.flights && s'.flights[t] == s.flights[t]
  {
    if a.Take? || a.Claim? {
      DeliveriesTakeNothing(s, a);
    } else {
      FlightsTakeNothing(s, a);
    }
  }

  lemma FlightsTakeNothing(s: State, a: Action)
    requires a.Query? || a.Begin? || a.Crash?
    ensures var s' := Apply(s, a);
            && s'.q.acked == s.q.acked && s'.db == s.db
            && forall t :: t in s'.flights && Behind(s'.flights[t]) ==> t in s.flights && s'.flights[t] == s.flights[t]
  {
    hide DoQuery, DoBegin;
    if a.Query? && Flying(s, a.t) {
      QueryTakesNothing(s, a.t, a.batch, a.ok);
    } else if a.Begin? && Flying(s, a.t) && s.flights[a.t].Waiting? {
      BeginTakesNothing(s, a.t);
    }
  }

  lemma QueryTakesNothing(s: State, t: nat, ids: seq<nat>, ok: bool)
    requires Flying(s, t)
    ensures var s' := DoQuery(s, t, ids, ok);
            s'.q == s.q && s'.db == s.db && t in s'.flights && s'.flights == s.flights[t := s'.flights[t]]
            && !Behind(s'.flights[t])
  {
    hide Times, Report;
  }

  lemma BeginTakesNothing(s: State, t: nat)
    requires Flying(s, t) && s.flights[t].Waiting?
    ensures var s' := DoBegin(s, t);
            s'.q == s.q && s'.db == s.db && t in s'.flights && s'.flights == s.flights[t := s'.flights[t]]
            && !Behind(s'.flights[t])
  {
  }

  lemma DeliveriesTakeNothing(s: State, a: Action)
    requires a.Take? || a.Claim?
    ensures var s' := Apply(s, a);
            && s'.q.acked == s.q.acked && s'.db == s.db
            && forall t :: t in s'.flights && Behind(s'.flights[t]) ==> t in s.flights && s'.flights[t] == s.flights[t]
  {
  }

  /** What one statement of flight t may acknowledge, and where it may put the flight. */
  ghost predicate TakesOnly(s: State, s': State, t: nat)
    requires Flying(s, t)
  {
    && s'.q.entries == s.q.entries && s'.refuses == s.refuses && s'.q.log == s.q.log
    && (forall u :: u in s'.flights && u != t ==> u in s.flights && s'.flights[u] == s.flights[u])
    && (t in s'.flights && Behind(s'.flights[t]) ==> Behind(s.flights[t]) || !Lost(s, MessageOf(s, t)))
    && (s'.q.acked == s.q.acked || (s'.q.acked == s.q.acked + {MessageOf(s, t)} && Behind(s.flights[t])))
    && (s'.db.dead == s.db.dead
        || (!s.refuses.dead(PayloadOf(s, t))
            && |s'.db.dead| == |s.db.dead| + 1 && s.db.dead <= s'.db.dead
            && s'.db.dead[|s.db.dead|].payload == PayloadOf(s, t)))
  }

  lemma StepTakes(s: State, t: nat, o: Outcome)
    requires Flying(s, t)
    ensures TakesOnly(s, DoStep(s, t, o), t)
  {
    hide DoDeadInsert, DoDeadAck, DoStore, DoEnqueue, DoCount, DoDau, DoAck, FateOf, TakesOnly;
    match s.flights[t]
    case Claimed => StayTakes(s, t);
    case Waiting(_) => StayTakes(s, t);
    case AtDeadInsert(_, _) => DeadInsertTakes(s, t, o);
    case AtDeadAck => DeadAckTakes(s, t, o);
    case AtStore => if Handling(s, t) { StoreTakes(s, t, o); } else { StayTakes(s, t); }
    case AtAck => if Handling(s, t) { AckTakes(s, t, o); } else { StayTakes(s, t); }
    case _ => if Handling(s, t) { SideTakes(s, t, o); } else { StayTakes(s, t); }
  }

  lemma StayTakes(s: State, t: nat)
    requires Flying(s, t)
    ensures TakesOnly(s, s, t)
  {
  }

  lemma DeadInsertTakes(s: State, t: nat, o: Outcome)
    requires Flying(s, t) && s.flights[t].AtDeadInsert?
    ensures TakesOnly(s, DoDeadInsert(s, t, FateOf(s.refuses.dead(PayloadOf(s, t)), o)), t)
  {
    hide HeaderProject;
    assert DeadLetterOf(s, t).payload == PayloadOf(s, t);
  }

  lemma DeadAckTakes(s: State, t: nat, o: Outcome)
    requires Flying(s, t) && s.flights[t].AtDeadAck?
    ensures TakesOnly(s, DoDeadAck(s, t, o), t)
  {
  }

  lemma StoreTakes(s: State, t: nat, o: Outcome)
    requires Handling(s, t) && s.flights[t].AtStore?
    ensures TakesOnly(s, DoStore(s, t, FateOf(s.refuses.store(EventOf(s, t)), o)), t)
  {
    hide Insert;
  }

  lemma AckTakes(s: State, t: nat, o: Outcome)
    requires Handling(s, t) && s.flights[t].AtAck?
    ensures TakesOnly(s, DoAck(s, t, o), t)
  {
  }

  lemma SideTakes(s: State, t: nat, o: Outcome)
    requires Handling(s, t) && Behind(s.flights[t])
    ensures TakesOnly(s, DoEnqueue(s, t, o), t) && TakesOnly(s, DoCount(s, t, o), t) && TakesOnly(s, DoDau(s, t, o), t)
  {
    hide PairsOf, ActiveOf, Bump, CountKeyOf, MissedBy;
  }

  lemma LostStable(s: State, s': State, m: nat)
    requires s.q.entries <= s'.q.entries && s.refuses == s'.refuses && m < |s.q.entries|
    ensures Lost(s', m) == Lost(s, m)
  {
  }

  /** Every flight behind its INSERT, acknowledgement and dead letter of s' is an old one or of a message in s that is
      not hopeless. */
  ghost predicate TakesMore(s: State, s': State) {
    && (forall t :: t in s'.flights && Behind(s'.flights[t]) ==>
          t in s.flights && t < |s.q.log| && (Behind(s.flights[t]) || !Lost(s, s.q.log[t])))
    && (forall m :: m in s'.q.acked ==> m in s.q.acked || (m < |s.q.entries| && !Lost(s, m)))
    && (forall k :: 0 <= k < |s'.db.dead| ==>
          (k < |s.db.dead| && s'.db.dead[k] == s.db.dead[k]) || !s.refuses.dead(s'.db.dead[k].payload))
  }

  lemma TakenKept(s: State, s': State)
    requires Inv(s) && TakenInv(s) && Grows(s, s') && TakesMore(s, s')
    ensures TakenInv(s')
  {
    KnownMessages(s);
    hide Inv, Lost, Behind;
    forall t | t in s'.flights && t < |s'.q.log| && Behind(s'.flights[t])
      ensures !Lost(s', s'.q.log[t])
    {
      assert t in s.flights && s.q.log[t] < |s.q.entries|;
      LostStable(s, s', s.q.log[t]);
    }
    forall m | m in s'.q.acked
      ensures !Lost(s', m)
    {
      assert m < |s.q.entries|;
      LostStable(s, s', m);
    }
  }

  lemma StepTakesMore(s: State, s': State, t: nat)
    requires TakenInv(s) && Flying(s, t) && TakesOnly(s, s', t)
    requires forall u :: u in s.flights ==> u < |s.q.log|
    ensures TakesMore(s, s')
  {
    hide Lost, Behind;
  }

  lemma ApplyTakes(s: State, a: Action)
    requires Inv(s) && TakenInv(s)
    ensures TakenInv(Apply(s, a))
  {
    hide Apply, Inv, TakenInv, TakesOnly, Behind, Grows, TakesMore;
    var s' := Apply(s, a);
    ApplyKeeps(s, a);
    KnownMessages(s);
    if a.Do? && Flying(s, a.t) {
      DoApplies(s, a.t, a.o);
      StepTakes(s, a.t, a.o);
      StepTakesMore(s, s', a.t);
    } else {
      RestTakesMore(s, a);
    }
    TakenKept(s, s');
  }

  lemma RestTakesMore(s: State, a: Action)
    requires Inv(s) && !(a.Do? && Flying(s, a.t))
    ensures TakesMore(s, Apply(s, a))
  {
    KnownMessages(s);
    hide Apply, Inv, Behind, Lost;
    if !OfWorker(a) {
      IngestTakesNothing(s, a);
    } else if !a.Do? {
      OthersTakeNothing(s, a);
    } else {
      NotFlying(s, a.t, a.o);
    }
  }

  lemma KnownMessages(s: State)
    requires Inv(s)
    ensures forall m :: m in s.q.acked ==> m < |s.q.entries|
    ensures forall t :: t in s.flights ==> t < |s.q.log| && s.q.log[t] < |s.q.entries|
  {
    forall t | t in s.flights
      ensures t < |s.q.log| && s.q.log[t] < |s.q.entries|
    {
      assert FlightOk(s, t, s.flights[t]);
    }
  }

  lemma DoApplies(s: State, t: nat, o: Outcome)
    requires Flying(s, t)
    ensures Apply(s, Do(t, o)) == DoStep(s, t, o)
  {
  }

  lemma NotFlying(s: State, t: nat, o: Outcome)
    requires !Flying(s, t)
    ensures Apply(s, Do(t, o)) == s
  {
  }

  lemma {:induction false} RunTakes(pg: Server, acts: seq<Action>)
    ensures TakenInv(Run(pg, acts)) && Run(pg, acts).refuses == pg.refuses
    decreases |acts|
  {
    if acts != [] {
      var before := acts[..|acts| - 1];
      RunTakes(pg, before);
      RunInv(pg, before);
      ApplyTakes(Run(pg, before), acts[|acts| - 1]);
      ApplyKeeps(Run(pg, before), acts[|acts| - 1]);
    }
  }

  // ----- what is refused never gets into a table

  ghost predicate TakenRow(s: State, r: Row) {
    exists m :: 0 <= m < |s.q.entries| && s.q.entries[m].Good? && Holds(r, s.q.entries[m].event)
                && !s.refuses.store(s.q.entries[m].event)
  }

  /** Every row is the row of a published event that Postgres accepts. */
  ghost predicate RowsTaken(s: State) {
    forall i :: i in s.db.rows ==> TakenRow(s, s.db.rows[i])
  }

  /** Only a store whose event is accepted adds a row. */
  ghost predicate RowsOnly(s: State, s': State, t: nat)
    requires Flying(s, t)
  {
    && s'.q.entries == s.q.entries && s'.refuses == s.refuses
    && (s'.db.rows == s.db.rows
        || (Handling(s, t) && !s.refuses.store(EventOf(s, t)) && s'.db.rows == Insert(s.db.rows, EventOf(s, t))))
  }

  lemma StepRows(s: State, t: nat, o: Outcome)
    requires Flying(s, t)
    ensures RowsOnly(s, DoStep(s, t, o), t)
  {
    hide DoStore, DoDeadInsert, DoDeadAck, DoEnqueue, DoCount, DoDau, DoAck, Insert, FateOf;
    match s.flights[t]
    case AtStore => if Handling(s, t) { StoreRowsOnly(s, t, o); }
    case AtDeadInsert(_, _) => DeadRowsOnly(s, t, FateOf(s.refuses.dead(PayloadOf(s, t)), o));
    case AtDeadAck => AckRowsOnly(s, t, o);
    case AtAck => AckRowsOnly(s, t, o);
    case _ => if Handling(s, t) { SideRowsOnly(s, t, o); }
  }

  lemma StoreRowsOnly(s: State, t: nat, o: Outcome)
    requires Handling(s, t)
    ensures RowsOnly(s, DoStore(s, t, FateOf(s.refuses.store(EventOf(s, t)), o)), t)
  {
    hide Insert;
  }

  lemma DeadRowsOnly(s: State, t: nat, o: Outcome)
    requires Flying(s, t) && s.flights[t].AtDeadInsert?
    ensures RowsOnly(s, DoDeadInsert(s, t, o), t)
  {
    hide HeaderProject;
  }

  lemma AckRowsOnly(s: State, t: nat, o: Outcome)
    requires Flying(s, t)
    ensures RowsOnly(s, DoDeadAck(s, t, o), t)
    ensures Handling(s, t) ==> RowsOnly(s, DoAck(s, t, o), t)
  {
  }

  lemma SideRowsOnly(s: State, t: nat, o: Outcome)
    requires Handling(s, t)
    ensures RowsOnly(s, DoEnqueue(s, t, o), t) && RowsOnly(s, DoCount(s, t, o), t) && RowsOnly(s, DoDau(s, t, o), t)
  {
    hide PairsOf, ActiveOf, Bump, CountKeyOf, MissedBy;
  }

  lemma StepRowsTaken(s: State, t: nat, o: Outcome)
    requires Flying(s, t) && RowsTaken(s)
    ensures RowsTaken(DoStep(s, t, o))
  {
    hide DoStep;
    StepRows(s, t, o);
    var s' := DoStep(s, t, o);
    forall i | i in s'.db.rows
      ensures TakenRow(s', s'.db.rows[i])
    {
      if i in s.db.rows {
        assert s'.db.rows[i] == s.db.rows[i];
      } else {
        assert s.q.entries[s.q.log[t]] == Good(EventOf(s, t));
      }
    }
  }

  lemma TakenRowStable(s: State, s': State, r: Row)
    requires TakenRow(s, r) && s.q.entries <= s'.q.entries && s.refuses == s'.refuses
    ensures TakenRow(s', r)
  {
  }

  /** Rows that a direct write of accepted, published events leaves. */
  lemma BatchRowTaken(s: State, evts: seq<Event>, i: string)
    requires RowsTaken(s) && i in InsertAll(s.db.rows, evts)
    requires forall k :: 0 <= k < |evts| ==> IsPublished(s, evts[k]) && !s.refuses.store(evts[k])
    ensures TakenRow(s, InsertAll(s.db.rows, evts)[i])
  {
    hide InsertAll;
    InsertAllKeeps(s.db.rows, evts);
    if i !in s.db.rows {
      InsertAllOrigin(s.db.rows, evts, i);
      var k :| 0 <= k < |evts| && Holds(InsertAll(s.db.rows, evts)[i], evts[k]);
      assert IsPublished(s, evts[k]);
    }
  }

  lemma WriteRowsTaken(s: State, r: nat, o: Outcome)
    requires Inv(s) && RowsTaken(s) && CanWrite(s, r)
    ensures RowsTaken(Apply(s, DirectWrite(r, o)))
  {
    KnownRequest(s, r);
    hide Inv, InsertAll, TakenRow;
    var s', evts := Apply(s, DirectWrite(r, o)), s.requests[r].events;
    if s'.db.rows != s.db.rows {
      forall i | i in s'.db.rows
        ensures TakenRow(s', s'.db.rows[i])
      {
        BatchRowTaken(s, evts, i);
        TakenRowStable(s, s', s'.db.rows[i]);
      }
    } else {
      forall i | i in s'.db.rows
        ensures TakenRow(s', s'.db.rows[i])
      {
        TakenRowStable(s, s', s'.db.rows[i]);
      }
    }
  }

  lemma OtherRows(s: State, a: Action)
    requires !a.Do? && !a.DirectWrite?
    ensures Apply(s, a).db.rows == s.db.rows
  {
    hide Times, Report, IssuedBy, BuildAll, CanAccept, CanTrack;
  }

  lemma ApplyRowsTaken(s: State, a: Action)
    requires Inv(s) && RowsTaken(s)
    ensures RowsTaken(Apply(s, a))
  {
    hide Inv, Apply, TakenRow, DoStep;
    if a.Do? && Flying(s, a.t) {
      DoApplies(s, a.t, a.o);
      StepRowsTaken(s, a.t, a.o);
    } else if a.Do? {
      NotFlying(s, a.t, a.o);
    } else if a.DirectWrite? && CanWrite(s, a.r) {
      WriteRowsTaken(s, a.r, a.o);
    } else if a.DirectWrite? {
      NoWrite(s, a.r, a.o);
    } else {
      OtherRows(s, a);
      ApplyKeeps(s, a);
      forall i | i in s.db.rows
        ensures TakenRow(Apply(s, a), s.db.rows[i])
      {
        TakenRowStable(s, Apply(s, a), s.db.rows[i]);
      }
    }
  }

  lemma NoWrite(s: State, r: nat, o: Outcome)
    requires !CanWrite(s, r)
    ensures Apply(s, DirectWrite(r, o)) == s
  {
  }

  lemma {:induction false} RunRowsTaken(pg: Server, acts: seq<Action>)
    ensures RowsTaken(Run(pg, acts))
    decreases |acts|
  {
    if acts != [] {
      RunRowsTaken(pg, acts[..|acts| - 1]);
      RunInv(pg, acts[..|acts| - 1]);
      ApplyRowsTaken(Run(pg, acts[..|acts| - 1]), acts[|acts| - 1]);
    }
  }

  /** The row with a published event's ID is that event's, so Postgres accepts the event. */
  lemma OwnRowIsTaken(s: State, m: nat)
    requires Inv(s) && RowsTaken(s) && m < |s.q.entries| && s.q.entries[m].Good?
    requires s.q.entries[m].event.id in s.db.rows
    ensures !s.refuses.store(s.q.entries[m].event)
  {
    var e := s.q.entries[m].event;
    assert TakenRow(s, s.db.rows[e.id]) && s.db.rows[e.id].id == e.id;
    var n :| 0 <= n < |s.q.entries| && s.q.entries[n].Good?
             && Holds(s.db.rows[e.id], s.q.entries[n].event) && !s.refuses.store(s.q.entries[n].event);
    assert IsIssued(s, e) && IsIssued(s, s.q.entries[n].event);
  }

  /** In every run a message that neither table takes is not acknowledged, not dead-lettered, and has no row. */
  lemma RefusedStaysOut(pg: Server, acts: seq<Action>, m: nat)
    requires m < |Run(pg, acts).q.entries| && Hopeless(pg.refuses, Run(pg, acts).q.entries[m])
    ensures var s := Run(pg, acts);
            && m !in s.q.acked && !DeadLettered(s, m)
            && (s.q.entries[m].Good? ==> s.q.entries[m].event.id !in s.db.rows)
  {
    RunTakes(pg, acts);
    RunRowsTaken(pg, acts);
    RunInv(pg, acts);
    var s := Run(pg, acts);
    if s.q.entries[m].Good? && s.q.entries[m].event.id in s.db.rows {
      OwnRowIsTaken(s, m);
    }
  }

  // ----- what else cannot leave

  /** The entries before m that neither table takes. */
  function HopelessBelow(s: State, m: nat): set<nat> {
    set x: nat | x < m && Lost(s, x)
  }

  /** m has left the stream, or a table takes it and it can still be handed over: at its first delivery, if it settles
      there, and by a reclaim, if fewer than a hundred hopeless entries come before it. */
  ghost predicate CanLeave(s: State, m: nat)
    requires m < |s.q.entries|
  {
    || m in s.q.acked
    || (!Lost(s, m) && (|HopelessBelow(s, m)| < 100 || (m >= s.q.next && Settles(s.refuses, s.q.entries[m], 0))))
  }

  /** The last of more than a hundred pending entries is not examined. */
  lemma BehindHundred(q: Group, front: set<nat>, m: nat)
    requires GroupInv(q) && m in q.pending && |front| >= 100
    requires forall x :: x in front ==> x in q.pending && x < m
    ensures m !in Scanned(q)
  {
    if m in Scanned(q) {
      hide Range;
      forall x | x in front
        ensures x in Scanned(q)
      {
        if x !in Scanned(q) {
          FirstHundred(q, x);
        }
      }
      RangeAscending(q.pending, 0, |q.entries|, SCAN);
      MembersSize(Scanned(q));
      SubsetSize(front + {m}, Members(Scanned(q)));
    }
  }

  lemma SameHopeless(s: State, s': State, m: nat)
    requires s.q.entries <= s'.q.entries && s'.refuses == s.refuses && m < |s.q.entries|
    ensures Lost(s', m) == Lost(s, m) && HopelessBelow(s', m) == HopelessBelow(s, m)
  {
  }

  /** Delivered hopeless entries are pending. */
  lemma HopelessPending(pg: Server, acts: seq<Action>, m: nat)
    requires m <= Run(pg, acts).q.next
    ensures forall x :: x in HopelessBelow(Run(pg, acts), m) ==> x in Run(pg, acts).q.pending
  {
    RunInv(pg, acts);
    RunTakes(pg, acts);
    hide Hopeless;
  }

  lemma ReclaimLeavesBehind(pg: Server, acts: seq<Action>, now: int, m: nat)
    requires m < |Run(pg, acts).q.entries| && |HopelessBelow(Run(pg, acts), m)| >= 100
    ensures m !in IdleBatch(Run(pg, acts).q, now)
  {
    RunInv(pg, acts);
    var s := Run(pg, acts);
    assert GroupInv(s.q);
    hide Run, Inv, HopelessBelow, Scanned, IdleBatch;
    if m in IdleBatch(s.q, now) {
      IdleIsScanned(s.q, now, m);
      HopelessPending(pg, acts, m);
      assert forall x :: x in HopelessBelow(s, m) ==> x < m by {
        OnlyBelow(s, m);
      }
      BehindHundred(s.q, HopelessBelow(s, m), m);
    }
  }

  lemma OnlyBelow(s: State, m: nat)
    ensures forall x :: x in HopelessBelow(s, m) ==> x < m
  {
  }

  lemma IdleIsScanned(q: Group, now: int, m: nat)
    requires GroupInv(q) && m in IdleBatch(q, now)
    ensures m in q.pending && m < q.next && m in Scanned(q)
  {
    hide Scanned;
  }

  lemma StillBlocked(s: State, s': State, m: nat)
    requires m < |s.q.entries| && !CanLeave(s, m)
    requires s.q.entries <= s'.q.entries && s'.refuses == s.refuses && s.q.next <= s'.q.next && m !in s'.q.acked
    ensures !CanLeave(s', m)
  {
    SameHopeless(s, s', m);
    hide Lost, Settles, HopelessBelow;
  }

  lemma ReadKeepsBlocked(s: State, now: int, o: Outcome, fs: seq<Fates>, m: nat)
    requires Possible(s, Read(now, o, fs)) && m < |s.q.entries| && !CanLeave(s, m) && !Lost(s, m)
    ensures var s' := Exec(s, ScheduleOf(s, Read(now, o, fs)));
            s'.refuses == s.refuses && s'.q.entries == s.q.entries && s.q.next <= s'.q.next && m !in s'.q.acked
  {
    hide Exec, ScheduleOf, GroupInv, Settles, HopelessBelow, ReadSettled, ClockAt, Lost;
    ReadRound(s, now, o, fs);
  }

  lemma ReclaimKeepsBlocked(s: State, now: int, o: Outcome, ok: bool, fs: seq<Fates>, m: nat)
    requires Possible(s, Reclaim(now, o, ok, fs)) && m !in s.q.acked && m !in IdleBatch(s.q, now)
    ensures var s' := Exec(s, ScheduleOf(s, Reclaim(now, o, ok, fs)));
            s'.refuses == s.refuses && s'.q.entries == s.q.entries && s.q.next <= s'.q.next && m !in s'.q.acked
  {
    hide Exec, ScheduleOf, GroupInv, IdleBatch, AllSettled, ClockAt, Touched;
    ReclaimRound(s, now, o, ok, fs);
  }

  /** Going on with a run changes nothing about what is refused, and the stream only grows. */
  lemma RunGrows(pg: Server, acts: seq<Action>, more: seq<Action>)
    ensures var s, s' := Run(pg, acts), Run(pg, acts + more);
            s.q.entries <= s'.q.entries && s'.refuses == s.refuses == pg.refuses && s.q.next <= s'.q.next
  {
    RunInv(pg, acts);
    ExecConcat(Init(pg), acts, more);
    ExecKeeps(Run(pg, acts), more);
    RunTakes(pg, acts);
  }

  /** No round makes room for an entry that cannot leave. */
  lemma RoundKeepsBlocked(pg: Server, acts: seq<Action>, round: Round, m: nat)
    requires m < |Run(pg, acts).q.entries| && Possible(Run(pg, acts), round) && !CanLeave(Run(pg, acts), m)
    ensures var s' := Run(pg, acts + ScheduleOf(Run(pg, acts), round));
            Run(pg, acts).q.entries <= s'.q.entries && !CanLeave(s', m)
  {
    var s := Run(pg, acts);
    var schedule := ScheduleOf(s, round);
    var s' := Run(pg, acts + schedule);
    RunConcat(pg, acts, schedule);
    RunGrows(pg, acts, schedule);
    hide Run, Exec, ScheduleOf, Possible, Settles, IdleBatch, HopelessBelow;
    if Lost(s, m) {
      SameHopeless(s, s', m);
      RunTakes(pg, acts + schedule);
    } else {
      match round
      case Read(now, o, fs) => ReadKeepsBlocked(s, now, o, fs, m);
      case Reclaim(now, o, ok, fs) =>
        if |HopelessBelow(s, m)| >= 100 {
          ReclaimLeavesBehind(pg, acts, now, m);
        }
        ReclaimKeepsBlocked(s, now, o, ok, fs, m);
      case Other(a) => OtherRound(s, a);
    }
    StillBlocked(s, s', m);
  }

  lemma RunConcat(pg: Server, acts: seq<Action>, more: seq<Action>)
    ensures Run(pg, acts + more) == Exec(Run(pg, acts), more)
  {
    ExecConcat(Init(pg), acts, more);
  }

  // ----- everything else can

  /** An entry that the reclaims at `now` passed was claimed and did not settle; any other is idle. */
  predicate PassedBy(s: State, x: nat, below: bool, now: int, c: nat, ok: bool)
    requires x < |s.q.entries| && x in s.q.pending
  {
    var pend := s.q.pending[x];
    if below
    then pend.since == now && pend.count > c && !Settles(s.refuses, s.q.entries[x], if ok then MAX_RETRIES else 0)
    else now - pend.since >= MIN_IDLE_MS && (x in Scanned(s.q) ==> pend.count >= c)
  }

  /** Reclaims at one instant have passed all entries below k. */
  ghost predicate Swept(s: State, k: nat, now: int, c: nat, ok: bool) {
    GroupInv(s.q) && forall x :: x in s.q.pending ==> x < |s.q.entries| && PassedBy(s, x, x < k, now, c, ok)
  }

  /** With every entry of the batch's range claimed, the told counts are true. */
  lemma ToldExactly(q: Group, chosen: seq<nat>, now: int, x: nat)
    requires GroupInv(q) && chosen != [] && Claimable(q, chosen, now) && x in chosen
    requires forall y :: y in q.pending && chosen[0] <= y <= chosen[|chosen| - 1] ==> y in chosen
    ensures Told(q, chosen, now, true, x) == q.pending[x].count + 1
  {
    RedeliverManyTouches(q, chosen, now);
    hide RedeliverMany, Times, Report;
    var told := RedeliverMany(q, chosen, now).pending;
    assert forall y :: y in chosen ==> y in told.Keys;
    ReportExact(told, chosen);
  }

  /** The batch of a sweep is the pending entries from its front to the batch's last one. */
  lemma SweepBatch(s: State, k: nat, now: int, c: nat, ok: bool)
    requires Swept(s, k, now, c, ok) && IdleBatch(s.q, now) != []
    ensures var chosen := IdleBatch(s.q, now);
            var last := chosen[|chosen| - 1];
            && Claimable(s.q, chosen, now) && k <= chosen[0] <= last < |s.q.entries|
            && (forall x :: x in chosen ==> x in Scanned(s.q))
            && forall x :: x in s.q.pending && k <= x <= last ==> x in chosen
  {
    var chosen := IdleBatch(s.q, now);
    var last := chosen[|chosen| - 1];
    IdleBatchIsClaimable(s.q, now);
    forall x | x in chosen
      ensures x in Scanned(s.q)
    {
      IdleIsScanned(s.q, now, x);
    }
    hide IdleBatch, Scanned, Settles, GroupInv;
    assert chosen[0] in chosen && last in chosen;
    forall x | x in s.q.pending && k <= x <= last
      ensures x in chosen
    {
      if x !in Scanned(s.q) {
        FirstHundred(s.q, x);
      } else if x !in chosen {
        FirstTen(s.q, now, x);
      }
    }
  }

  /** All examined entries have been claimed at `now` and did not settle. */
  ghost predicate AllTouched(s: State, now: int, c: nat, ok: bool) {
    forall x :: x in Scanned(s.q) ==> x in s.q.pending && x < |s.q.entries| && PassedBy(s, x, true, now, c, ok)
  }

  lemma NothingIdle(s: State, k: nat, now: int, c: nat, ok: bool)
    requires Swept(s, k, now, c, ok) && IdleBatch(s.q, now) == []
    ensures AllTouched(s, now, c, ok)
  {
    hide IdleBatch, Settles, GroupInv, Range;
    forall x | x in Scanned(s.q)
      ensures x < k
    {
      if x >= k {
        FirstTen(s.q, now, x);
      }
    }
  }

  /** Entries may leave the pending list; nothing else happened to the stream. */
  ghost predicate Shrinks(s: State, s': State) {
    && GroupInv(s'.q) && s'.q.entries == s.q.entries && s'.q.next == s.q.next && s'.refuses == s.refuses
    && s.q.acked <= s'.q.acked && s'.q.pending.Keys <= s.q.pending.Keys
  }

  lemma ShrinksTransitive(a: State, b: State, c: State)
    requires Shrinks(a, b) && Shrinks(b, c)
    ensures Shrinks(a, c)
  {
    hide GroupInv;
  }

  /** A claimed entry that is still pending afterwards did not settle, with its true count or with none. */
  lemma StillPending(s: State, acked: set<nat>, chosen: seq<nat>, now: int, ok: bool, x: nat)
    requires GroupInv(s.q) && chosen != [] && Claimable(s.q, chosen, now) && x in chosen && x !in acked
    requires forall k :: 0 <= k < |chosen| ==> chosen[k] < |s.q.entries|
    requires AllSettled(s, acked, chosen, now, ok, AllDone(|chosen|))
    requires forall y :: y in s.q.pending && chosen[0] <= y <= chosen[|chosen| - 1] ==> y in chosen
    requires ok ==> s.q.pending[x].count >= 2
    ensures !Settles(s.refuses, s.q.entries[x], if ok then MAX_RETRIES else 0)
  {
    hide GroupInv, RedeliverMany, Report;
    var k :| 0 <= k < |chosen| && chosen[k] == x;
    assert AllDone(|chosen|)[k] == ALL_DONE;
    if ok {
      ToldExactly(s.q, chosen, now, x);
    }
  }

  /** The fates of a batch whose statements are all answered. */
  function AllDone(n: nat): seq<Fates> {
    seq(n, _ => ALL_DONE)
  }

  lemma SweepPossible(s: State, k: nat, now: int, c: nat, ok: bool)
    requires Swept(s, k, now, c, ok)
    ensures Possible(s, Reclaim(now, Done, ok, AllDone(|IdleBatch(s.q, now)|)))
  {
    hide GroupInv, IdleBatch, Settles;
  }

  lemma {:induction false} RangeByKeys(a: map<nat, Pend>, b: map<nat, Pend>, lo: nat, hi: nat, n: nat)
    requires a.Keys == b.Keys
    ensures Range(a, lo, hi, n) == Range(b, lo, hi, n)
    decreases hi + 1 - lo
  {
    if lo <= hi && n != 0 {
      assert lo in a <==> lo in b.Keys;
      RangeByKeys(a, b, lo + 1, hi, n - 1);
      RangeByKeys(a, b, lo + 1, hi, n);
    }
  }

  /** One reclaim moves the front of the sweep behind its batch, unless it acknowledges something. */
  lemma SweepOne(s: State, k: nat, now: int, c: nat, ok: bool) returns (round: Round, front: nat)
    requires Swept(s, k, now, c, ok) && IdleBatch(s.q, now) != [] && (ok ==> c >= 2)
    ensures k < front <= |s.q.entries| && Possible(s, round)
    ensures var s' := Exec(s, ScheduleOf(s, round));
            && Shrinks(s, s') && ClockAt(s'.q, now)
            && (s'.q.pending.Keys == s.q.pending.Keys ==> Swept(s', front, now, c, ok))
  {
    hide IdleBatch, GroupInv, Exec, ScheduleOf, AllSettled, Swept, Possible, Claimable, Reclaims, ClockAt, Shrinks,
         Scanned;
    var chosen := IdleBatch(s.q, now);
    round := Reclaim(now, Done, ok, AllDone(|chosen|));
    front := chosen[|chosen| - 1] + 1;
    SweepBatch(s, k, now, c, ok);
    SweepPossible(s, k, now, c, ok);
    ReclaimRound(s, now, Done, ok, AllDone(|chosen|));
    SweptFurther(s, Exec(s, ScheduleOf(s, round)), k, now, c, ok, chosen);
  }

  lemma SweptFurther(s: State, s': State, k: nat, now: int, c: nat, ok: bool, chosen: seq<nat>)
    requires Swept(s, k, now, c, ok) && (ok ==> c >= 2)
    requires chosen != [] && Claimable(s.q, chosen, now) && chosen[0] >= k && chosen[|chosen| - 1] < |s.q.entries|
    requires forall x :: x in chosen ==> x in Scanned(s.q)
    requires forall x :: x in s.q.pending && k <= x <= chosen[|chosen| - 1] ==> x in chosen
    requires Reclaims(s.q, s'.q, chosen, now) && s'.refuses == s.refuses
    requires forall i :: 0 <= i < |chosen| ==> chosen[i] < |s.q.entries|
    requires AllSettled(s, s'.q.acked, chosen, now, ok, AllDone(|chosen|))
    ensures Shrinks(s, s')
    ensures s'.q.pending.Keys == s.q.pending.Keys ==> Swept(s', chosen[|chosen| - 1] + 1, now, c, ok)
  {
    RangeByKeysIf(s.q, s'.q);
    hide Settles, AllSettled, Scanned, Times;
    if s'.q.pending.Keys == s.q.pending.Keys {
      forall x | x in s'.q.pending
        ensures x < |s.q.entries| && PassedBy(s', x, x < chosen[|chosen| - 1] + 1, now, c, ok)
      {
        if x in chosen {
          StillPending(s, s'.q.acked, chosen, now, ok, x);
        }
      }
    }
  }

  lemma RangeByKeysIf(q: Group, q': Group)
    requires q'.entries == q.entries
    ensures q'.pending.Keys == q.pending.Keys ==> Scanned(q') == Scanned(q)
  {
    if q'.pending.Keys == q.pending.Keys {
      RangeByKeys(q.pending, q'.pending, 0, |q.entries|, SCAN);
    }
  }

  /** A sweep goes on until something is acknowledged or every examined entry has been claimed. */
  lemma Sweep(s: State, k: nat, now: int, c: nat, ok: bool) returns (rounds: seq<Round>, acts: seq<Action>)
    requires Swept(s, k, now, c, ok) && k <= |s.q.entries| && (ok ==> c >= 2)
    ensures InRounds(s, rounds, acts)
    ensures var s' := Exec(s, acts);
            && Shrinks(s, s') && ClockAt(s'.q, now)
            && (s'.q.pending.Keys == s.q.pending.Keys ==> AllTouched(s', now, c, ok))
    decreases |s.q.entries| - k
  {
    hide Swept, InRounds, ScheduleOf, Possible, IdleBatch, AllTouched, Exec, ClockAt;
    if IdleBatch(s.q, now) == [] {
      rounds, acts := [], [];
      NothingIdle(s, k, now, c, ok);
      SweptBase(s, k, now, c, ok);
    } else {
      var round, front := SweepOne(s, k, now, c, ok);
      var s1 := Exec(s, ScheduleOf(s, round));
      if s1.q.pending.Keys != s.q.pending.Keys {
        rounds, acts := [round], ScheduleOf(s, round);
        OneRound(s, round);
      } else {
        var more, rest := Sweep(s1, front, now, c, ok);
        ConsRound(s, round, more, rest);
        ExecConcat(s, ScheduleOf(s, round), rest);
        ShrinksTransitive(s, s1, Exec(s1, rest));
        rounds, acts := [round] + more, ScheduleOf(s, round) + rest;
      }
    }
  }

  lemma SweptBase(s: State, k: nat, now: int, c: nat, ok: bool)
    requires Swept(s, k, now, c, ok)
    ensures InRounds(s, [], []) && Exec(s, []) == s && Shrinks(s, s) && ClockAt(s.q, now)
  {
    EmptyRounds(s);
    hide GroupInv, Settles;
  }

  lemma EmptyRounds(s: State)
    ensures InRounds(s, [], []) && Exec(s, []) == s
  {
  }

  lemma {:induction false} LatestClaim(pending: map<nat, Pend>) returns (now: int)
    ensures forall x :: x in pending ==> pending[x].since <= now
    decreases pending.Keys
  {
    if pending.Keys == {} {
      now := 0;
    } else {
      var x := Pick(pending.Keys);
      now := LatestClaim(pending - {x});
      now := if now < pending[x].since then pending[x].since else now;
      assert forall y :: y in pending ==> y == x || y in pending - {x};
    }
  }

  lemma FirstSwept(s: State, latest: int)
    requires GroupInv(s.q) && ClockAt(s.q, latest)
    ensures Swept(s, 0, latest + MIN_IDLE_MS, 1, false)
  {
    hide Times, Settles, Scanned;
  }

  lemma SecondSwept(s: State, t: int)
    requires GroupInv(s.q) && ClockAt(s.q, t) && AllTouched(s, t, 1, false)
    ensures Swept(s, 0, t + MIN_IDLE_MS, 2, true)
  {
    hide Times, Settles, Scanned;
  }

  ghost predicate WindowHopeless(s: State) {
    forall x :: x in Scanned(s.q) ==> Lost(s, x)
  }

  lemma TouchedTwice(s1: State, s2: State, t1: int, t2: int)
    requires Shrinks(s1, s2) && s2.q.pending.Keys == s1.q.pending.Keys
    requires AllTouched(s1, t1, 1, false) && AllTouched(s2, t2, 2, true)
    ensures WindowHopeless(s2)
  {
    RangeByKeysIf(s1.q, s2.q);
    hide Scanned, GroupInv;
    forall x | x in Scanned(s2.q)
      ensures Lost(s2, x)
    {
      NeverSettles(s2.refuses, s2.q.entries[x]);
    }
  }

  lemma NeverSettles(refuses: Refusals, p: Payload)
    ensures !Settles(refuses, p, 0) && !Settles(refuses, p, MAX_RETRIES) <==> Hopeless(refuses, p)
  {
  }

  /** Two sweeps, thirty seconds apart, acknowledge something unless every examined entry is hopeless: the first fails
      to ask for the counts and tries to store, the second finds every count at three or more. */
  lemma TwoSweeps(s: State) returns (rounds: seq<Round>, acts: seq<Action>)
    requires GroupInv(s.q)
    ensures InRounds(s, rounds, acts)
    ensures var s' := Exec(s, acts);
            Shrinks(s, s') && (s'.q.pending.Keys == s.q.pending.Keys ==> WindowHopeless(s'))
  {
    hide InRounds, Exec, Swept, AllTouched, WindowHopeless, GroupInv;
    var latest := LatestClaim(s.q.pending);
    var t1, t2 := latest + MIN_IDLE_MS, latest + MIN_IDLE_MS + MIN_IDLE_MS;
    FirstSwept(s, latest);
    rounds, acts := Sweep(s, 0, t1, 1, false);
    var s1 := Exec(s, acts);
    if s1.q.pending.Keys == s.q.pending.Keys {
      SecondSwept(s1, t1);
      var r2, a2 := Sweep(s1, 0, t2, 2, true);
      var s2 := Exec(s1, a2);
      RoundsConcat(s, rounds, acts, r2, a2);
      ExecConcat(s, acts, a2);
      ShrinksTransitive(s, s1, s2);
      if s2.q.pending.Keys == s1.q.pending.Keys {
        TouchedTwice(s1, s2, t1, t2);
      }
      rounds, acts := rounds + r2, acts + a2;
    }
  }

  /** Sweeps go on until only hopeless entries are examined. */
  lemma SweepAll(s: State) returns (rounds: seq<Round>, acts: seq<Action>)
    requires GroupInv(s.q)
    ensures InRounds(s, rounds, acts)
    ensures var s' := Exec(s, acts); Shrinks(s, s') && WindowHopeless(s')
    decreases s.q.pending.Keys
  {
    hide InRounds, Exec, WindowHopeless, GroupInv;
    rounds, acts := TwoSweeps(s);
    var s1 := Exec(s, acts);
    if s1.q.pending.Keys != s.q.pending.Keys {
      var r2, a2 := SweepAll(s1);
      RoundsConcat(s, rounds, acts, r2, a2);
      ExecConcat(s, acts, a2);
      ShrinksTransitive(s, s1, Exec(s1, a2));
      rounds, acts := rounds + r2, acts + a2;
    }
  }

  /** Entries from `first` on that settle at their first delivery are acknowledged, up to the next one to deliver. */
  ghost predicate ReadOnce(s: State, first: nat) {
    forall x: nat :: first <= x < s.q.next && x < |s.q.entries| && Settles(s.refuses, s.q.entries[x], 0) ==>
      x in s.q.acked
  }

  /** Everything is read, and what settles at once is acknowledged; the acknowledged stay so. */
  ghost predicate ReadUp(s: State, s': State) {
    && GroupInv(s'.q) && s'.q.entries == s.q.entries && s'.q.next == |s.q.entries| && s'.refuses == s.refuses
    && s.q.acked <= s'.q.acked
  }

  lemma ReadFurther(s: State, s1: State, n: nat, now: int)
    requires n <= BATCH && s.q.next + n <= |s.q.entries| && s1.refuses == s.refuses
    requires Reads(s.refuses, s.q, s1.q, n, now) && ReadSettled(s, s1.q.acked, n, AllDone(BATCH))
    ensures ReadOnce(s1, s.q.next)
  {
    hide Settles, GroupInv;
    forall x: nat | s.q.next <= x < s1.q.next && Settles(s.refuses, s.q.entries[x], 0)
      ensures x in s1.q.acked
    {
      var k := x - s.q.next;
      assert AllDone(BATCH)[k] == ALL_DONE && s.q.next + k == x;
    }
  }

  lemma ReadAll(s: State, now: int) returns (rounds: seq<Round>, acts: seq<Action>)
    requires GroupInv(s.q) && ClockAt(s.q, now)
    ensures InRounds(s, rounds, acts)
    ensures ReadUp(s, Exec(s, acts)) && ReadOnce(Exec(s, acts), s.q.next)
    decreases |s.q.entries| - s.q.next
  {
    hide InRounds, ScheduleOf, Exec, Settles, ReadSettled;
    if s.q.next < |s.q.entries| {
      var round := Read(now, Done, AllDone(BATCH));
      ReadRound(s, now, Done, AllDone(BATCH));
      var s1 := Exec(s, ScheduleOf(s, round));
      ReadFurther(s, s1, Min(|s.q.entries| - s.q.next, BATCH), now);
      var more, rest := ReadAll(s1, now);
      ConsRound(s, round, more, rest);
      ExecConcat(s, ScheduleOf(s, round), rest);
      rounds, acts := [round] + more, ScheduleOf(s, round) + rest;
    } else {
      rounds, acts := [], [];
      EmptyRounds(s);
    }
  }

  /** After everything is read and swept, what can leave has left. */
  lemma LeftWhenSwept(s: State, s1: State, s2: State, m: nat)
    requires GroupInv(s.q) && m < |s.q.entries| && CanLeave(s, m)
    requires ReadUp(s, s1) && ReadOnce(s1, s.q.next) && Shrinks(s1, s2) && WindowHopeless(s2)
    ensures m in s2.q.acked
  {
    hide Settles, Scanned, Times, Hopeless;
    if m !in s2.q.acked {
      assert m in s2.q.pending;
      SameHopeless(s, s2, m);
      if m !in Scanned(s2.q) {
        FirstHundred(s2.q, m);
        ScannedBelow(s2, m);
      }
      assert false;
    }
  }

  lemma ScannedBelow(s: State, m: nat)
    requires WindowHopeless(s) && |Scanned(s.q)| == SCAN && forall y :: y in Scanned(s.q) ==> y < m
    ensures |HopelessBelow(s, m)| >= 100
  {
    RangeAscending(s.q.pending, 0, |s.q.entries|, SCAN);
    MembersSize(Scanned(s.q));
    hide Range, Lost;
    forall x | x in Members(Scanned(s.q))
      ensures x in HopelessBelow(s, m)
    {
      assert x in Scanned(s.q);
    }
    SubsetSize(Members(Scanned(s.q)), HopelessBelow(s, m));
  }

  /** After every run some rounds acknowledge exactly the entries that can leave, each then stored or dead-lettered. */
  lemma EverythingElseLeaves(pg: Server, acts: seq<Action>) returns (rounds: seq<Round>, more: seq<Action>)
    ensures InRounds(Run(pg, acts), rounds, more)
    ensures var s, s' := Run(pg, acts), Run(pg, acts + more);
            && s'.q.entries == s.q.entries
            && forall m: nat :: m < |s.q.entries| ==>
                 (m in s'.q.acked <==> CanLeave(s, m)) && (m in s'.q.acked ==> Accounted(s', m))
  {
    var s := Run(pg, acts);
    RunInv(pg, acts);
    hide InRounds, Exec, CanLeave, Accounted, Inv, WindowHopeless, GroupInv, ReadOnce;
    KnownGroup(s);
    var now := LatestClaim(s.q.pending);
    var r1, a1 := ReadAll(s, now);
    var s1 := Exec(s, a1);
    var r2, a2 := SweepAll(s1);
    var s2 := Exec(s1, a2);
    RoundsConcat(s, r1, a1, r2, a2);
    ExecConcat(s, a1, a2);
    rounds, more := r1 + r2, a1 + a2;
    ExecConcat(Init(pg), acts, more);
    forall m: nat | m < |s.q.entries|
      ensures m in s2.q.acked <==> CanLeave(s, m)
      ensures m in s2.q.acked ==> Accounted(s2, m)
    {
      NoLoss(pg, acts + more, m);
      if CanLeave(s, m) {
        LeftWhenSwept(s, s1, s2, m);
      } else {
        StaysBlocked(pg, acts, rounds, more, m);
      }
    }
  }

  /** Whatever the rounds, what cannot leave does not. */
  lemma {:induction false} StaysBlocked(pg: Server, acts: seq<Action>, rounds: seq<Round>, more: seq<Action>, m: nat)
    requires m < |Run(pg, acts).q.entries| && !CanLeave(Run(pg, acts), m)
    requires InRounds(Run(pg, acts), rounds, more)
    ensures Run(pg, acts).q.entries <= Run(pg, acts + more).q.entries && m !in Run(pg, acts + more).q.acked
    decreases |rounds|
  {
    var s := Run(pg, acts);
    hide Run, Exec, InRounds, ScheduleOf, Possible;
    if rounds == [] {
      NoRounds(s, more);
      assert acts + more == acts;
    } else {
      SplitRounds(s, rounds, more);
      var first := ScheduleOf(s, rounds[0]);
      RoundKeepsBlocked(pg, acts, rounds[0], m);
      RunConcat(pg, acts, first);
      StaysBlocked(pg, acts + first, rounds[1..], more[|first|..], m);
      assert acts + first + more[|first|..] == acts + more;
    }
  }

  ghost predicate LeavesIn(pg: Server, acts: seq<Action>, rounds: seq<Round>, more: seq<Action>, m: nat) {
    InRounds(Run(pg, acts), rounds, more) && m in Run(pg, acts + more).q.acked
  }

  /** After any run some rounds get a published message off the stream if and only if it can leave. */
  lemma LeavesExactly(pg: Server, acts: seq<Action>, m: nat)
    requires m < |Run(pg, acts).q.entries|
    ensures (exists rounds, more :: LeavesIn(pg, acts, rounds, more, m)) <==> CanLeave(Run(pg, acts), m)
  {
    hide CanLeave;
    if CanLeave(Run(pg, acts), m) {
      var rounds, more := EverythingElseLeaves(pg, acts);
      assert LeavesIn(pg, acts, rounds, more, m);
    } else {
      forall rounds, more | LeavesIn(pg, acts, rounds, more, m)
        ensures false
      {
        StaysBlocked(pg, acts, rounds, more, m);
      }
    }
  }
}
