/** internal/events/handler.go: an accepted request publishes its events first and writes them directly only when
    every XADD was confirmed. Validation, schemas and authorization are opaque verdicts. */
module Ingest {
  import opened Options
  import opened Events
  import opened Queue
  import opened EventStore
  import opened Pipeline

  datatype Response =
    BatchEmpty | BatchTooLarge | Invalid | SchemaViolation | InternalError | Queued(count: nat)

  function XAdds(r: nat, os: seq<Outcome>): seq<Action> {
    seq(|os|, i requires 0 <= i < |os| => XAdd(r, os[i]))
  }

  predicate AnyError(os: seq<Outcome>) {
    exists k :: 0 <= k < |os| && os[k].Error()
  }

  /** The schedule of a handler that is not interrupted; `w` is the fate of the direct write, and `arrives` whether the
      202 reaches the client. */
  function IngestSchedule(r: nat, os: seq<Outcome>, w: Outcome, arrives: bool): seq<Action> {
    if AnyError(os)
    then XAdds(r, os) + [Drop(r)]
    else XAdds(r, os) + [DirectWrite(r, w)] + [Reply(r, arrives)]
  }

  /** A pipeline of XADDs is one XADD step per event. */
  lemma {:induction false} XAddsAppend(s: State, r: nat, os: seq<Outcome>)
    requires r in s.requests && s.requests[r].phase == Publishing(0, false) && |os| <= |s.requests[r].events|
    ensures var s' := Exec(s, XAdds(r, os));
            && s'.q == s.q.(entries := s.q.entries + Appended(s.requests[r].events[..|os|], os))
            && s'.db == s.db && s'.subs == s.subs && s'.refuses == s.refuses && s'.sends == s.sends
            && r in s'.requests
            && s'.requests[r] ==
                 s.requests[r].(phase := Publishing(|os|, AnyError(os)))
    decreases |os|
  {
    hide Apply, AnyError;
    var evts := s.requests[r].events;
    if os == [] {
      assert s.q.entries + Appended(evts[..0], os) == s.q.entries;
      NoError();
    } else {
      var n := |os| - 1;
      XAddsAppend(s, r, os[..n]);
      assert XAdds(r, os) == XAdds(r, os[..n]) + [XAdd(r, os[n])];
      ExecOne(s, XAdds(r, os[..n]), XAdd(r, os[n]));
      AppendedMore(evts[..|os|], os);
      assert evts[..|os|][..n] == evts[..n] && evts[..|os|][n] == evts[n];
      AnyErrorMore(os);
      hide Exec, Appended, XAdds;
      XAddOne(Exec(s, XAdds(r, os[..n])), r, os[n]);
    }
  }

  lemma NoError()
    ensures !AnyError([])
  {
  }

  lemma AppendedMore(evts: seq<Event>, os: seq<Outcome>)
    requires |os| == |evts| > 0
    ensures var n := |os| - 1;
            Appended(evts, os) == Appended(evts[..n], os[..n]) + if os[n].Applied() then [Good(evts[n])] else []
  {
  }

  lemma AnyErrorMore(os: seq<Outcome>)
    requires os != []
    ensures AnyError(os) <==> AnyError(os[..|os| - 1]) || os[|os| - 1].Error()
  {
  }

  lemma XAddOne(s: State, r: nat, o: Outcome)
    requires CanXAdd(s, r)
    ensures var s', q := Apply(s, XAdd(r, o)), s.requests[r];
            && s'.q == s.q.(entries := s.q.entries + if o.Applied() then [Good(q.events[q.phase.pos])] else [])
            && s'.db == s.db && s'.subs == s.subs && s'.refuses == s.refuses && s'.sends == s.sends
            && r in s'.requests
            && s'.requests[r] == q.(phase := Publishing(q.phase.pos + 1, q.phase.failed || o.Error()))
  {
  }

  /** What an uninterrupted handler does to the stream and the tables. */
  lemma IngestRuns(s: State, r: nat, os: seq<Outcome>, w: Outcome, arrives: bool)
    requires r in s.requests && s.requests[r].phase == Publishing(0, false) && |os| == |s.requests[r].events|
    ensures var s', evts := Exec(s, IngestSchedule(r, os, w, arrives)), s.requests[r].events;
            var failed := AnyError(os);
            && s'.q == s.q.(entries := s.q.entries + Appended(evts, os))
            && s'.db == (if !failed && FateOf(AnyRefused(s.refuses, evts), w).Applied()
                         then s.db.(rows := InsertAll(s.db.rows, evts)) else s.db)
            && s'.subs == s.subs && s'.refuses == s.refuses
            && s'.sends == if !failed && arrives then Confirmed(s.sends, s.requests[r].send) else s.sends
  {
    var evts := s.requests[r].events;
    var xadds := XAdds(r, os);
    var mid := Exec(s, xadds);
    assert evts[..|os|] == evts;
    hide Exec, Apply, InsertAll;
    XAddsAppend(s, r, os);
    if AnyError(os) {
      ExecOne(s, xadds, Drop(r));
      DropOne(mid, r);
    } else {
      ExecOne(s, xadds, DirectWrite(r, w));
      ExecOne(s, xadds + [DirectWrite(r, w)], Reply(r, arrives));
      WriteOne(mid, r, w);
      ReplyOne(Apply(mid, DirectWrite(r, w)), r, arrives);
    }
  }

  lemma WriteOne(s: State, r: nat, o: Outcome)
    requires CanWrite(s, r)
    ensures var s' := Apply(s, DirectWrite(r, o));
            && s'.q == s.q && s'.subs == s.subs && s'.refuses == s.refuses && s'.sends == s.sends
            && r in s'.requests && s'.requests[r] == s.requests[r].(phase := Written)
            && s'.db == if FateOf(AnyRefused(s.refuses, s.requests[r].events), o).Applied()
                        then s.db.(rows := InsertAll(s.db.rows, s.requests[r].events)) else s.db
  {
  }

  lemma DropOne(s: State, r: nat)
    ensures var s' := Apply(s, Drop(r)); s'.q == s.q && s'.db == s.db && s'.sends == s.sends
    ensures var s' := Apply(s, Drop(r)); s'.subs == s.subs && s'.refuses == s.refuses
  {
  }

  lemma ReplyOne(s: State, r: nat, arrives: bool)
    requires CanReply(s, r)
    ensures var s' := Apply(s, Reply(r, arrives));
            && s'.q == s.q && s'.db == s.db && s'.subs == s.subs && s'.refuses == s.refuses
            && s'.sends == if arrives then Confirmed(s.sends, s.requests[r].send) else s.sends
  {
  }

  /** The sends after a 202 for one of them has arrived. */
  function Confirmed(sends: map<nat, Send>, send: Option<nat>): map<nat, Send> {
    if send.Some? && send.value in sends then sends[send.value := sends[send.value].(ok := true)] else sends
  }

  /** Every event passes. */
  predicate AllPass(evts: seq<Event>, check: Event -> bool) {
    forall e :: e in evts ==> check(e)
  }

  class Handler {
    const pub: StreamPublisher
    const pool: Postgres
    const direct: bool

    constructor (pub: StreamPublisher, pool: Postgres, direct: bool)
      ensures this.pub == pub && this.pool == pool && this.direct == direct
    {
      this.pub := pub;
      this.pool := pool;
      this.direct := direct;
    }

    ghost predicate Mirrors(s: State)
      reads pub.rdb, pool
    {
      pub.rdb.group == s.q && pool.db == s.db && pool.subs == s.subs && pool.refuses == s.refuses
    }

    /** POST /v1/events. A non-empty Idempotency-Key header replaces the body's key. */
    method HandleIngest(item: Item, project: string, id: string, header: string, now: int,
                        valid: Event -> bool, conforms: Event -> bool, o: Outcome, w: Outcome,
                        ghost s: State, ghost r: nat, ghost arrives: bool)
      returns (response: Response)
      requires var keyed := if header != "" then item.(key := header) else item;
               Mirrors(s) && r in s.requests && s.requests[r].phase == Publishing(0, false)
               && s.requests[r].events == [BuildEvent(keyed, project, id, now)]
      modifies pub.rdb, pool
      ensures response.Queued? || response.InternalError? ==>
                && valid(s.requests[r].events[0]) && conforms(s.requests[r].events[0])
                && Mirrors(Exec(s, IngestSchedule(r, [o], if direct then w else NotDone, arrives)))
      ensures var e := BuildEvent(if header != "" then item.(key := header) else item, project, id, now);
              && (response.Invalid? <==> !valid(e))
              && (response.SchemaViolation? <==> valid(e) && !conforms(e))
              && (response.InternalError? <==> valid(e) && conforms(e) && o.Error())
              && (response.Queued? <==> valid(e) && conforms(e) && o == Done)
              && (response.Queued? ==> response.count == 1)
      ensures !response.Queued? && !response.InternalError? ==> Mirrors(s)
    {
      OneEventRuns(s, r, o, if direct then w else NotDone, arrives);
      hide Exec, IngestSchedule, Insert, Conflicts, TrimSpace;
      var e := BuildEvent(item, project, id, now);
      if header != "" {
        e := e.(key := header);
      }
      if !valid(e) {
        return Invalid;
      }
      if !conforms(e) {
        return SchemaViolation;
      }
      var err := pub.Publish(e, o);
      if err {
        return InternalError;
      }
      if direct {
        var _ := pool.Store(e, w);
      }
      return Queued(1);
    }

    /** The first loop of the batch handler. */
    static method BuildAndValidate(items: seq<Item>, project: string, ids: seq<string>, now: int, valid: Event -> bool)
      returns (evts: seq<Event>, fieldErrs: nat)
      requires |ids| == |items|
      ensures evts == BuildAll(items, project, ids, now)
      ensures fieldErrs == 0 <==> AllPass(evts, valid)
    {
      evts, fieldErrs := [], 0;
      while |evts| < |items|
        invariant |evts| <= |items|
        invariant evts == BuildAll(items, project, ids, now)[..|evts|]
        invariant fieldErrs == 0 <==> AllPass(evts, valid)
      {
        var e := BuildEvent(items[|evts|], project, ids[|evts|], now);
        fieldErrs := fieldErrs + if valid(e) then 0 else 1;
        assert forall x :: x in evts + [e] <==> x in evts || x == e;
        evts := evts + [e];
      }
    }

    /** POST /v1/events/batch: nothing is published unless every event passes. */
    method HandleBatchIngest(items: seq<Item>, project: string, ids: seq<string>, now: int,
                             valid: Event -> bool, conforms: Event -> bool,
                             os: seq<Outcome>, begun: bool, accepted: seq<bool>, commit: Outcome,
                             ghost s: State, ghost r: nat, ghost arrives: bool)
      returns (response: Response)
      requires |ids| == |os| == |accepted| == |items|
      requires Mirrors(s)
      requires 1 <= |items| <= 100 ==>
                 r in s.requests && s.requests[r].phase == Publishing(0, false)
                 && s.requests[r].events == BuildAll(items, project, ids, now)
      modifies pub.rdb, pool
      ensures response.Queued? || response.InternalError? ==>
                var w := if direct && begun && false !in accepted then commit else NotDone;
                   Mirrors(Exec(s, IngestSchedule(r, os, w, arrives)))
      ensures response.Queued? ==> response.count == |items|
      ensures !response.Queued? && !response.InternalError? ==> Mirrors(s)
      ensures response.BatchEmpty? <==> items == []
      ensures response.BatchTooLarge? <==> |items| > 100
      ensures 1 <= |items| <= 100 ==>
                var evts := BuildAll(items, project, ids, now);
                && (response.Invalid? <==> !AllPass(evts, valid))
                && (response.SchemaViolation? <==> AllPass(evts, valid) && !AllPass(evts, conforms))
                && (response.InternalError? <==> AllPass(evts, valid) && AllPass(evts, conforms) && AnyError(os))
                && (response.Queued? <==> AllPass(evts, valid) && AllPass(evts, conforms) && !AnyError(os))
    {
      if |items| == 0 {
        return BatchEmpty;
      }
      if |items| > 100 {
        return BatchTooLarge;
      }
      var evts, fieldErrs := BuildAndValidate(items, project, ids, now, valid);
      if fieldErrs > 0 {
        return Invalid;
      }
      var i := 0;
      while i < |evts|
        invariant i <= |evts|
        invariant AllPass(evts[..i], conforms)
      {
        if !conforms(evts[i]) {
          return SchemaViolation;
        }
        i := i + 1;
      }
      assert evts[..i] == evts;
      ghost var w := if direct && begun && false !in accepted then commit else NotDone;
      IngestRuns(s, r, os, w, arrives);
      hide Exec, IngestSchedule;
      var err := pub.PublishBatch(evts, os);
      if err {
        return InternalError;
      }
      if direct {
        var _ := pool.BatchStore(evts, begun, accepted, commit);
      }
      return Queued(|evts|);
    }
  }

  /** IngestRuns for a request of one event. */
  lemma OneEventRuns(s: State, r: nat, o: Outcome, w: Outcome, arrives: bool)
    requires r in s.requests && s.requests[r].phase == Publishing(0, false) && |s.requests[r].events| == 1
    ensures var s', e := Exec(s, IngestSchedule(r, [o], w, arrives)), s.requests[r].events[0];
            && s'.q == (if o.Applied() then Append(s.q, Good(e)) else s.q)
            && s'.db == (if o == Done && FateOf(s.refuses.store(e), w).Applied()
                         then s.db.(rows := Insert(s.db.rows, e)) else s.db)
            && s'.subs == s.subs && s'.refuses == s.refuses
  {
    var e := s.requests[r].events[0];
    IngestRuns(s, r, [o], w, arrives);
    OneEvent(s.refuses, s.db.rows, e, o);
    hide *;
    assert s.requests[r].events == [e];
  }

  lemma OneEvent(refuses: Refusals, rows: Rows, e: Event, o: Outcome)
    ensures AnyError([o]) <==> o.Error()
    ensures AnyRefused(refuses, [e]) <==> refuses.store(e)
    ensures InsertAll(rows, [e]) == Insert(rows, e)
    ensures Appended([e], [o]) == if o.Applied() then [Good(e)] else []
  {
    assert [e][0] == e && [e][..0] == [] && [o][0] == o;
    hide Insert;
  }
}
