/** internal/ratelimit/circuit_breaker.go, one atomic operation at a time: any number of goroutines, each with its own
    program counter, share three atomic fields and one clock. Times are nanoseconds. */
module Breaker {
  import opened Sets

  const FAILURE_THRESHOLD := 3
  const RESET_AFTER := 10_000_000_000

  datatype Mode = Closed | HalfOpen | Open

  /** The atomic fields. */
  datatype Fields = Fields(mode: Mode, failures: int, openedAt: int)

  const NEW := Fields(Closed, 0, 0)

  datatype Call = Allow | Success | Failure

  /** Where a goroutine is: the constructor says which atomic operation comes next. */
  datatype Pc =
    | Idle
    | SawOpen                  // allow: read the clock
    | TookTime(now: int)       // allow: load openedAt
    | Probing                  // allow: CAS open to half-open
    | Closing                  // recordSuccess won its CAS: Store(0)
    | SawHalfOpen              // recordFailure: CAS half-open to open
    | SawOther                 // recordFailure: Add(1)
    | Tripping                 // Add returned the threshold or more: CAS closed to open
    | Zeroing(tripped: bool)   // a CAS into open won, from closed if tripped: Store(0)
    | LostRace                 // the tripping CAS failed: Store(0)
    | Stamping                 // read the clock
    | Stamped(now: int)        // store openedAt

  /** The first atomic operation of a call. */
  function First(b: Fields, call: Call): (Fields, Pc) {
    match call
    case Allow => (b, if b.mode.Open? then SawOpen else Idle)
    case Success => if b.mode.HalfOpen? then (b.(mode := Closed), Closing) else (b, Idle)
    case Failure => (b, if b.mode.HalfOpen? then SawHalfOpen else SawOther)
  }

  /** The operation at pc. */
  function Next(b: Fields, pc: Pc, clock: int): (Fields, Pc) {
    match pc
    case Idle => (b, Idle)
    case SawOpen => (b, TookTime(clock))
    case TookTime(now) => (b, if now - b.openedAt >= RESET_AFTER then Probing else Idle)
    case Probing => (if b.mode.Open? then b.(mode := HalfOpen) else b, Idle)
    case Closing => (b.(failures := 0), Idle)
    case SawHalfOpen => if b.mode.HalfOpen? then (b.(mode := Open), Zeroing(false)) else (b, Idle)
    case SawOther => (b.(failures := b.failures + 1), if b.failures + 1 >= FAILURE_THRESHOLD then Tripping else Idle)
    case Tripping => if b.mode.Closed? then (b.(mode := Open), Zeroing(true)) else (b, LostRace)
    case Zeroing(_) => (b.(failures := 0), Stamping)
    case LostRace => (b.(failures := 0), Idle)
    case Stamping => (b, Stamped(clock))
    case Stamped(now) => (b.(openedAt := now), Idle)
  }

  // ----- the machine

  datatype State = State(b: Fields, pcs: map<int, Pc>, clock: int)

  datatype Action = Tick(now: int) | Begin(g: int, call: Call) | Step(g: int)

  function PcOf(s: State, g: int): Pc {
    if g in s.pcs then s.pcs[g] else Idle
  }

  function Moved(s: State, g: int, to: (Fields, Pc)): State {
    s.(b := to.0, pcs := s.pcs[g := to.1])
  }

  /** The clock never runs backwards; a goroutine makes one call at a time. */
  function Apply(s: State, a: Action): State {
    match a
    case Tick(now) => if now >= s.clock then s.(clock := now) else s
    case Begin(g, call) => if PcOf(s, g).Idle? then Moved(s, g, First(s.b, call)) else s
    case Step(g) => Moved(s, g, Next(s.b, PcOf(s, g), s.clock))
  }

  function Exec(s: State, acts: seq<Action>): State
    decreases |acts|
  {
    if acts == [] then s else Exec(Apply(s, acts[0]), acts[1..])
  }

  /** A run starts with a new breaker at any clock reading that Unix time allows. */
  function Run(start: nat, acts: seq<Action>): State {
    Exec(State(NEW, map[], start), acts)
  }

  lemma {:induction false} ExecConcat(s: State, a: seq<Action>, b: seq<Action>)
    ensures Exec(s, a + b) == Exec(Exec(s, a), b)
    decreases |a|
  {
    if a == [] {
      assert a + b == b;
    } else {
      assert (a + b)[0] == a[0] && (a + b)[1..] == a[1..] + b;
      ExecConcat(Apply(s, a[0]), a[1..], b);
    }
  }

  lemma ExecOne(s: State, a: Action)
    ensures Exec(s, [a]) == Apply(s, a)
  {
  }

  lemma ExecTwo(s: State, a: Action, b: Action)
    ensures Exec(s, [a, b]) == Apply(Apply(s, a), b)
  {
    assert [a, b][1..] == [b];
    ExecOne(Apply(s, a), b);
  }

  lemma ExecThree(s: State, a: Action, b: Action, c: Action)
    ensures Exec(s, [a, b, c]) == Apply(Apply(Apply(s, a), b), c)
  {
    assert [a, b, c][1..] == [b, c];
    ExecTwo(Apply(s, a), b, c);
  }

  lemma StepMoved(s: State, g: int, at: (Fields, Pc))
    ensures Apply(Moved(s, g, at), Step(g)) == Moved(s, g, Next(at.0, at.1, s.clock))
  {
  }

  // ----- moves and counts

  /** Closed to open, open to half-open, half-open to closed or to open. */
  predicate LegalMove(from: Mode, to: Mode) {
    from == to || (from, to) in {(Closed, Open), (Open, HalfOpen), (HalfOpen, Closed), (HalfOpen, Open)}
  }

  lemma MovesAreLegal(s: State, a: Action)
    ensures LegalMove(s.b.mode, Apply(s, a).b.mode)
  {
  }

  /** The goroutines between an Add that returned the threshold or more and their Store(0). */
  function Racing(s: State): set<int> {
    set g | g in s.pcs && RacingPc(s.pcs[g])
  }

  predicate RacingPc(pc: Pc) {
    pc.Tripping? || pc == Zeroing(true) || pc.LostRace?
  }

  predicate Bounded(s: State) {
    0 <= s.b.failures <= 2 + |Racing(s)|
  }

  lemma RacingMoved(s: State, g: int, to: (Fields, Pc))
    ensures Racing(Moved(s, g, to)) == if RacingPc(to.1) then Racing(s) + {g} else Racing(s) - {g}
  {
  }

  /** An operation clears the counter, leaves it while nobody stops racing, or adds one to at most two or by starting
      to race. */
  lemma NextCounts(b: Fields, pc: Pc, clock: int)
    ensures var (b', pc') := Next(b, pc, clock);
            || b'.failures == 0
            || (b'.failures == b.failures && (RacingPc(pc) ==> RacingPc(pc')))
            || (b'.failures == b.failures + 1 && !RacingPc(pc) && (b'.failures <= 2 || RacingPc(pc')))
  {
  }

  lemma ApplyBounded(s: State, a: Action)
    requires Bounded(s)
    ensures Bounded(Apply(s, a))
  {
    match a
    case Tick(now) =>
      assert Racing(Apply(s, a)) == Racing(s);
    case Begin(g, call) =>
      if PcOf(s, g).Idle? {
        RacingMoved(s, g, First(s.b, call));
        assert g !in Racing(s);
      }
    case Step(g) =>
      StepBounded(s, g);
  }

  lemma StepBounded(s: State, g: int)
    requires Bounded(s)
    ensures Bounded(Apply(s, Step(g)))
  {
    hide Next, Racing, RacingPc;
    var pc := PcOf(s, g);
    NextCounts(s.b, pc, s.clock);
    RacingMoved(s, g, Next(s.b, pc, s.clock));
    assert g in Racing(s) <==> RacingPc(pc) by {
      RacingHere(s, g);
    }
  }

  lemma RacingHere(s: State, g: int)
    ensures g in Racing(s) <==> RacingPc(PcOf(s, g))
  {
  }

  lemma {:induction false} ExecBounded(s: State, acts: seq<Action>)
    requires Bounded(s)
    ensures Bounded(Exec(s, acts))
    decreases |acts|
  {
    if acts != [] {
      ApplyBounded(s, acts[0]);
      ExecBounded(Apply(s, acts[0]), acts[1..]);
    }
  }

  /** The counter exceeds two only by goroutines that are about to reset it, so at rest it is at most two. */
  lemma FailuresBounded(start: nat, acts: seq<Action>)
    ensures var s := Run(start, acts);
            && 0 <= s.b.failures <= 2 + |Racing(s)|
            && ((forall g :: g in s.pcs ==> s.pcs[g].Idle?) ==> s.b.failures <= 2)
  {
    var s0 := State(NEW, map[], start);
    assert Racing(s0) == {};
    ExecBounded(s0, acts);
    var s := Run(start, acts);
    if forall g :: g in s.pcs ==> s.pcs[g].Idle? {
      forall g | g in Racing(s)
        ensures false
      {
      }
    }
  }

  /** The bound is met: k goroutines can be past their Add with the counter at 2 + k. */
  lemma {:induction false} BoundIsMet(start: nat, k: nat) returns (acts: seq<Action>)
    ensures var s := Run(start, acts);
            |Racing(s)| == k && s.b == Fields(Closed, 2 + k, 0) && (forall g :: g in s.pcs ==> g < 2 + k)
  {
    if k == 0 {
      acts := [Begin(0, Failure), Step(0), Begin(1, Failure), Step(1)];
      var s := Run(start, acts);
      assert s.b == Fields(Closed, 2, 0) && s.pcs == map[0 := Idle, 1 := Idle];
      assert Racing(s) == {};
    } else {
      var before := BoundIsMet(start, k - 1);
      var g := 1 + k;
      acts := before + [Begin(g, Failure), Step(g)];
      ExecConcat(State(NEW, map[], start), before, [Begin(g, Failure), Step(g)]);
      OneMoreRaces(Run(start, before), g);
    }
  }

  /** A failure's load and Add while the counter is at two or more. */
  lemma AddRaces(b: Fields, clock: int)
    requires b.mode.Closed? && b.failures >= 2
    ensures First(b, Failure) == (b, SawOther) && Next(b, SawOther, clock).0 == b.(failures := b.failures + 1)
    ensures RacingPc(Next(b, SawOther, clock).1)
  {
  }

  lemma OneMoreRaces(s: State, g: int)
    requires s.b.mode.Closed? && s.b.failures >= 2 && g !in s.pcs
    ensures var s' := Exec(s, [Begin(g, Failure), Step(g)]);
            && s'.b == s.b.(failures := s.b.failures + 1) && |Racing(s')| == |Racing(s)| + 1
            && s'.pcs.Keys == s.pcs.Keys + {g}
  {
    ExecTwo(s, Begin(g, Failure), Step(g));
    AddRaces(s.b, s.clock);
    hide Exec, Next, First, Racing, RacingPc;
    StepMoved(s, g, First(s.b, Failure));
    RacingMoved(s, g, Next(s.b, SawOther, s.clock));
    assert g !in Racing(s) by {
      RacingHere(s, g);
      IdleNotRacing();
    }
  }

  lemma IdleNotRacing()
    ensures !RacingPc(Idle)
  {
  }

  // ----- how long it stays open

  /** Nobody is past the age check, and nobody is about to store a time before t. */
  predicate Settled(s: State, t: int) {
    && s.b.mode.Open? && s.b.openedAt >= t
    && (forall g :: g in s.pcs ==> !s.pcs[g].Probing?)
    && (forall g :: g in s.pcs && s.pcs[g].Stamped? ==> s.pcs[g].now >= t)
  }

  /** What every run keeps: no goroutine and no field holds a time ahead of the clock. */
  predicate Timed(s: State) {
    && s.b.openedAt <= s.clock
    && (forall g :: g in s.pcs && s.pcs[g].TookTime? ==> s.pcs[g].now <= s.clock)
    && (forall g :: g in s.pcs && s.pcs[g].Stamped? ==> s.pcs[g].now <= s.clock)
  }

  lemma {:induction false} ExecTimed(s: State, acts: seq<Action>)
    requires Timed(s)
    ensures Timed(Exec(s, acts))
    decreases |acts|
  {
    if acts != [] {
      ExecTimed(Apply(s, acts[0]), acts[1..]);
    }
  }

  /** The action makes an allow call answer true. */
  predicate Grants(s: State, a: Action) {
    match a
    case Tick(_) => false
    case Begin(g, call) => PcOf(s, g).Idle? && call.Allow? && !s.b.mode.Open?
    case Step(g) => PcOf(s, g).Probing?
  }

  /** From s on, the schedule never lets a call through and never leaves open. */
  predicate Blocks(s: State, acts: seq<Action>)
    decreases |acts|
  {
    s.b.mode.Open? && (acts == [] || (!Grants(s, acts[0]) && Blocks(Apply(s, acts[0]), acts[1..])))
  }

  lemma {:induction false} SettledBlocks(s: State, acts: seq<Action>, t: int)
    requires Settled(s, t) && Timed(s) && t <= s.clock && Exec(s, acts).clock < t + RESET_AFTER
    ensures Blocks(s, acts)
    decreases |acts|
  {
    ClockGrows(s, acts);
    if acts != [] {
      ClockGrows(Apply(s, acts[0]), acts[1..]);
      SettledBlocks(Apply(s, acts[0]), acts[1..], t);
    }
  }

  lemma {:induction false} ClockGrows(s: State, acts: seq<Action>)
    ensures s.clock <= Exec(s, acts).clock
    decreases |acts|
  {
    if acts != [] {
      ClockGrows(Apply(s, acts[0]), acts[1..]);
    }
  }

  /** The promise behind a trip at time t, that nothing passes before t + 10 s, holds in an open breaker exactly when
      openedAt has caught up with t, no goroutine is past the age check, and none is about to store an earlier time. */
  lemma BlocksExactlyWhenSettled(start: nat, past: seq<Action>, t: int)
    requires var s := Run(start, past); s.b.mode.Open? && t <= s.clock < t + 10_000_000_000
    ensures var s := Run(start, past);
            Settled(s, t) <==> forall acts :: Exec(s, acts).clock < t + 10_000_000_000 ==> Blocks(s, acts)
  {
    var s := Run(start, past);
    ExecTimed(State(NEW, map[], start), past);
    if Settled(s, t) {
      forall acts | Exec(s, acts).clock < t + RESET_AFTER
        ensures Blocks(s, acts)
      {
        SettledBlocks(s, acts, t);
      }
    } else {
      var acts := Breach(s, t);
      assert Exec(s, acts).clock < t + RESET_AFTER && !Blocks(s, acts);
    }
  }

  /** A schedule that gets a call through an unsettled breaker in time. */
  lemma Breach(s: State, t: int) returns (acts: seq<Action>)
    requires s.b.mode.Open? && !Settled(s, t) && s.clock < t + RESET_AFTER
    ensures Exec(s, acts).clock < t + RESET_AFTER && !Blocks(s, acts)
  {
    if g :| g in s.pcs && s.pcs[g].Probing? {
      acts := [Step(g)];
      assert Grants(s, acts[0]);
    } else if s.b.openedAt < t {
      var g := Fresh(s.pcs.Keys);
      acts := SlipIn(s, g, t);
    } else {
      var g :| g in s.pcs && s.pcs[g].Stamped? && s.pcs[g].now < t;
      var rest := SlipIn(Apply(s, Step(g)), g, t);
      acts := [Step(g)] + rest;
      assert acts[1..] == rest;
    }
  }

  /** With openedAt before t, an idle goroutine need only wait for the old age to pass. */
  lemma SlipIn(s: State, g: int, t: int) returns (acts: seq<Action>)
    requires s.b.mode.Open? && s.b.openedAt < t && s.clock < t + RESET_AFTER && PcOf(s, g).Idle?
    ensures Exec(s, acts).clock < t + RESET_AFTER && !Blocks(s, acts)
  {
    var due := s.b.openedAt + RESET_AFTER;
    var late := if s.clock < due then due else s.clock;
    var s1 := Apply(s, Tick(late));
    var s2 := Apply(s1, Begin(g, Allow));
    var s3 := Apply(s2, Step(g));
    var s4 := Apply(s3, Step(g));
    var rest4 := [Step(g)];
    var rest3 := [Step(g)] + rest4;
    var rest2 := [Step(g)] + rest3;
    var rest1 := [Begin(g, Allow)] + rest2;
    acts := [Tick(late)] + rest1;
    assert s4.pcs[g].Probing? && Grants(s4, Step(g));
    assert !Blocks(s4, rest4);
    assert rest3[1..] == rest4 && rest2[1..] == rest3 && rest1[1..] == rest2 && acts[1..] == rest1;
    assert !Blocks(s3, rest3) && !Blocks(s2, rest2);
    assert Exec(s4, rest4).clock == late;
    assert Exec(s2, rest2).clock == late;
  }

  lemma {:induction false} Fresh(used: set<int>) returns (g: int)
    ensures forall h :: h in used ==> h < g
  {
    if used == {} {
      g := 0;
    } else {
      var h := Pick(used);
      var below := Fresh(used - {h});
      g := if h < below then below else h + 1;
      assert forall k :: k in used ==> k == h || k in used - {h};
    }
  }

  // ----- calls that run alone

  function AllowCall(b: Fields, now: int): (Fields, bool) {
    match b.mode
    case Open => if now - b.openedAt >= RESET_AFTER then (b.(mode := HalfOpen), true) else (b, false)
    case _ => (b, true)
  }

  function SuccessCall(b: Fields): Fields {
    if b.mode.HalfOpen? then b.(mode := Closed, failures := 0) else b
  }

  function FailureCall(b: Fields, now: int): Fields {
    if b.mode.HalfOpen? then Fields(Open, 0, now)
    else if b.failures + 1 < FAILURE_THRESHOLD then b.(failures := b.failures + 1)
    else if b.mode.Closed? then Fields(Open, 0, now)
    else b.(failures := 0)
  }

  function WholeCall(b: Fields, call: Call, now: int): Fields {
    match call
    case Allow => AllowCall(b, now).0
    case Success => SuccessCall(b)
    case Failure => FailureCall(b, now)
  }

  /** A call needs at most six operations; a step of an idle goroutine changes nothing. */
  function Alone(g: int, call: Call): seq<Action> {
    [Begin(g, call), Step(g), Step(g), Step(g), Step(g), Step(g)]
  }

  /** A call that no other goroutine interrupts is the sequential call. */
  lemma CallRuns(s: State, g: int, call: Call)
    requires PcOf(s, g).Idle?
    ensures Exec(s, Alone(g, call)) == State(WholeCall(s.b, call, s.clock), s.pcs[g := Idle], s.clock)
  {
    hide Next, First;
    var p1 := First(s.b, call);
    var p2 := Next(p1.0, p1.1, s.clock);
    var p3 := Next(p2.0, p2.1, s.clock);
    var p4 := Next(p3.0, p3.1, s.clock);
    var p5 := Next(p4.0, p4.1, s.clock);
    var first, rest := [Begin(g, call), Step(g), Step(g)], [Step(g), Step(g), Step(g)];
    assert Alone(g, call) == first + rest;
    ExecConcat(s, first, rest);
    ExecThree(s, Begin(g, call), Step(g), Step(g));
    ExecThree(Moved(s, g, p3), Step(g), Step(g), Step(g));
    StepMoved(s, g, p1);
    StepMoved(s, g, p2);
    StepMoved(s, g, p3);
    StepMoved(s, g, p4);
    StepMoved(s, g, p5);
    SixOperations(s.b, call, s.clock);
  }

  /** Ten seconds of blocking do not follow from tripping: openedAt is stored after the CAS, so a call can slip
      through in between. */
  lemma OpensBeforeStamp()
    ensures var trip := Alone(0, Failure) + Alone(0, Failure) + [Begin(0, Failure), Step(0), Step(0)];
            var probe := [Begin(1, Allow), Step(1), Step(1)];
            && Run(RESET_AFTER, trip).b == Fields(Open, 3, 0)
            && Run(RESET_AFTER, trip + probe).clock == RESET_AFTER
            && Grants(Run(RESET_AFTER, trip + probe), Step(1))
  {
    var s0 := State(NEW, map[], RESET_AFTER);
    var call := Alone(0, Failure);
    var third, probe := [Begin(0, Failure), Step(0), Step(0)], [Begin(1, Allow), Step(1), Step(1)];
    ExecConcat(s0, call, call);
    ExecConcat(s0, call + call, third);
    ExecConcat(s0, call + call + third, probe);
    CallRuns(s0, 0, Failure);
    CallRuns(Exec(s0, call), 0, Failure);
    var s2 := Exec(s0, call + call);
    assert s2 == State(Fields(Closed, 2, 0), map[0 := Idle], RESET_AFTER);
    ExecThree(s2, Begin(0, Failure), Step(0), Step(0));
    ExecThree(Exec(s2, third), Begin(1, Allow), Step(1), Step(1));
  }

  lemma SixOperations(b: Fields, call: Call, now: int)
    ensures var p1 := First(b, call);
            var p2 := Next(p1.0, p1.1, now);
            var p3 := Next(p2.0, p2.1, now);
            var p4 := Next(p3.0, p3.1, now);
            var p5 := Next(p4.0, p4.1, now);
            Next(p5.0, p5.1, now) == (WholeCall(b, call, now), Idle)
  {
  }

  datatype Timely = Timely(call: Call, at: int)

  function Sequential(b: Fields, calls: seq<Timely>): Fields
    decreases |calls|
  {
    if calls == [] then b else Sequential(WholeCall(b, calls[0].call, calls[0].at), calls[1..])
  }

  function FailureCount(calls: seq<Timely>): nat
    decreases |calls|
  {
    if calls == [] then 0 else (if calls[0].call.Failure? then 1 else 0) + FailureCount(calls[1..])
  }

  predicate StaysClosed(b: Fields, calls: seq<Timely>)
    decreases |calls|
  {
    b.mode.Closed? && (calls == [] || StaysClosed(WholeCall(b, calls[0].call, calls[0].at), calls[1..]))
  }

  /** A closed breaker trips at the third failure since it was last closed, whatever successes lie in between. */
  lemma {:induction false} TripsAtThirdFailure(b: Fields, calls: seq<Timely>)
    requires b.mode.Closed? && 0 <= b.failures <= 2
    ensures StaysClosed(b, calls) <==> b.failures + FailureCount(calls) < 3
    ensures StaysClosed(b, calls) ==> Sequential(b, calls) == b.(failures := b.failures + FailureCount(calls))
    decreases |calls|
  {
    if calls != [] {
      var b' := WholeCall(b, calls[0].call, calls[0].at);
      if b'.mode.Closed? {
        TripsAtThirdFailure(b', calls[1..]);
      }
    }
  }

  /** The three failures need not be consecutive. */
  lemma SuccessDoesNotReset(now: int)
    ensures var f, ok := Timely(Failure, now), Timely(Success, now);
            Sequential(NEW, [f, f, ok, f]) == Fields(Open, 0, now)
  {
    var f, ok := Timely(Failure, now), Timely(Success, now);
    var closed := Fields(Closed, 2, 0);
    assert [f, f, ok, f][1..] == [f, ok, f] && [f, ok, f][1..] == [ok, f] && [ok, f][1..] == [f];
    assert Sequential(closed, [f]) == FailureCall(closed, now);
    assert Sequential(closed, [ok, f]) == Sequential(closed, [f]);
    assert Sequential(NEW.(failures := 1), [f, ok, f]) == Sequential(closed, [ok, f]);
  }

  /** Calls that run alone are refused for ten seconds after a trip. */
  lemma {:induction false} RefusesForTenSeconds(b: Fields, calls: seq<Timely>)
    requires b.mode.Open? && forall c :: c in calls ==> c.at < b.openedAt + 10_000_000_000
    ensures var b' := Sequential(b, calls); b'.mode.Open? && b'.openedAt == b.openedAt
    ensures forall now :: now < b.openedAt + 10_000_000_000 ==> !AllowCall(Sequential(b, calls), now).1
    decreases |calls|
  {
    if calls != [] {
      var b' := WholeCall(b, calls[0].call, calls[0].at);
      assert calls[0] in calls;
      RefusesForTenSeconds(b', calls[1..]);
    }
  }

  // ----- the code

  class CircuitBreaker {
    var state: Mode
    var failures: int
    var openedAt: int

    constructor ()
      ensures Value() == NEW
    {
      state, failures, openedAt := Closed, 0, 0;
    }

    ghost function Value(): Fields
      reads this
    {
      Fields(state, failures, openedAt)
    }

    method AllowNow(now: int) returns (ok: bool)
      modifies this
      ensures (Value(), ok) == AllowCall(old(Value()), now)
      ensures ok <==> old(state) != Open || now - old(openedAt) >= 10_000_000_000
      ensures state == if ok && old(state) == Open then HalfOpen else old(state)
      ensures failures == old(failures) && openedAt == old(openedAt)
    {
      match state {
        case Closed =>
          return true;
        case Open =>
          if now - openedAt >= RESET_AFTER {
            var _ := CompareAndSwap(Open, HalfOpen);
            return true;
          }
          return false;
        case HalfOpen =>
          return true;
      }
    }

    method RecordSuccess()
      modifies this
      ensures Value() == SuccessCall(old(Value()))
      ensures if old(state) == HalfOpen then state == Closed && failures == 0
              else state == old(state) && failures == old(failures)
      ensures openedAt == old(openedAt)
    {
      var won := CompareAndSwap(HalfOpen, Closed);
      if won {
        failures := 0;
      }
    }

    method RecordFailure(now: int)
      modifies this
      ensures Value() == FailureCall(old(Value()), now)
      ensures var trips := old(state) == HalfOpen || (old(state) == Closed && old(failures) + 1 >= 3);
              && state == (if trips then Open else old(state))
              && openedAt == (if trips then now else old(openedAt))
              && failures == if trips || old(failures) + 1 >= 3 then 0 else old(failures) + 1
    {
      var won;
      if state == HalfOpen {
        won := CompareAndSwap(HalfOpen, Open);
        if won {
          failures := 0;
          openedAt := now;
        }
        return;
      }
      failures := failures + 1;
      if failures >= FAILURE_THRESHOLD {
        won := CompareAndSwap(Closed, Open);
        if won {
          failures := 0;
          openedAt := now;
        } else {
          failures := 0;
        }
      }
    }

    method CompareAndSwap(expected: Mode, next: Mode) returns (won: bool)
      modifies this`state
      ensures won == (old(state) == expected)
      ensures state == if won then next else old(state)
    {
      won := state == expected;
      if won {
        state := next;
      }
    }
  }
}
