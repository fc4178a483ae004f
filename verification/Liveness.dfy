/**
 Scheduled work gets done. For a host that takes every packet after each step, leaves
 one session alone and keeps time going, the session's ranging stream runs out and its
 data transfer ends, within a bound on time and ticks.
 */
module Liveness {
  import opened Types
  import opened PacketCodec
  import opened Profiles
  import opened ConfigTables
  import opened EventQueues
  import opened PacketQueues
  import opened LogicalLinks
  import opened Validation
  import opened Sessions
  import opened Devices
  import opened Handlers
  import opened Engines
  import opened Moves
  import opened Ownership
  import opened Streams
  import opened Delivery
  import opened Timing
  import opened Carriage

  // ----- a handler that leaves a session alone -----

  /** The request neither changes the session nor resets the device; queries of the session are allowed. */
  predicate Spares(d: Device, mv: Move, id: uint32) {
    match mv
    case Stay | SetCore(_) => true
    case Reset => false
    case Open(i, _) => SparesSlot(d, i, id)
    case Drop(i) => SparesSlot(d, i, id)
    case Configure(i, _) => SparesSlot(d, i, id)
    case Transit(i, _, _) => SparesSlot(d, i, id)
    case Relink(i, _) => SparesSlot(d, i, id)
    case Send(i, _, _) => SparesSlot(d, i, id)
  }

  predicate SparesSlot(d: Device, i: nat, id: uint32) {
    i < |d.sessions| ==> !(d.sessions[i].inUse && d.sessions[i].id == id)
  }

  lemma SparedSession(setup: Setup, d: Device, mv: Move, id: uint32)
    requires Structured(d) && Legal(setup.profile, d, mv) && Spares(d, mv, id) && SessionBy(d, id).Some?
    ensures SessionBy(Apply(setup, d, mv), id) == SessionBy(d, id)
  {
    hide ApplyTlvs, StoreAll, StartVerdict, CoreFold, LinkMove, Interval, Sent, Armed;
    ApplyStructured(setup, d, mv);
    LookupSlot(Apply(setup, d, mv), id, FindSession(d.sessions, id));
  }

  /** Other sessions' parameters never move an event of this session back. */
  lemma {:induction false} ConfigurePlace(p: Profile, s: Session, q: seq<Event>, tlvs: seq<Tlv>, i: nat)
      returns (j: nat)
    requires i < |q| && q[i].session != s.id
    ensures j <= i && j < |ApplyTlvs(p, s, q, tlvs).events| && ApplyTlvs(p, s, q, tlvs).events[j] == q[i]
    decreases |tlvs|
  {
    hide Interval, Refusal;
    j := i;
    if tlvs != [] {
      var c := ApplyTlv(p, s, q, tlvs[0]);
      if c.events != q { j := Shifted(q, Some(EventKind.RangeData), s.id, i); }
      if c.stop.None? { j := ConfigurePlace(p, c.session, c.events, tlvs[1..], j); }
    }
  }

  /** A request that spares the session never moves its event back. */
  lemma SparedPlace(setup: Setup, d: Device, mv: Move, id: uint32, i: nat) returns (j: nat)
    requires Structured(d) && Legal(setup.profile, d, mv) && Spares(d, mv, id) && SessionBy(d, id).Some?
    requires i < |d.events| && d.events[i].session == id
    ensures j <= i && j < |Apply(setup, d, mv).events| && Apply(setup, d, mv).events[j] == d.events[i]
  {
    hide ApplyTlvs, StoreAll, StartVerdict, CoreFold, LinkMove, Interval;
    j := i;
    match mv
    case Stay | SetCore(_) | Open(_, _) | Drop(_) | Relink(_, _) =>
    case Send(k, sequence, length) =>
    case Configure(k, tlvs) => j := ConfigurePlace(setup.profile, d.sessions[k], d.events, tlvs, i);
    case Transit(k, oid, next) =>
      if oid == SESSION_STOP { j := Shifted(d.events, None, d.sessions[k].id, i); }
  }

  // ----- one tick -----

  /** Work a session still has of one kind: measurements, or transmissions with the last one. */
  function Left(kind: EventKind, s: Session): nat {
    if !Working(s, kind) then 0
    else if kind.RangeData? then s.streamRemaining
    else s.repetitionsLeft + 1
  }

  lemma LeftMeansWorking(kind: EventKind, s: Session)
    ensures Left(kind, s) > 0 <==> Working(s, kind)
  {
  }

  /** The turn serves the session's event of this kind, or stops the session at its budget. */
  predicate Resolves(setup: Setup, turn: Turn, kind: EventKind, id: uint32) {
    var k := FindSession(turn.dev.sessions, turn.event.session);
    && turn.event.session == id
    && (turn.event.kind == kind
        || (turn.event.kind.RangeData? && k < |turn.dev.sessions|
            && StopsAtBudget(setup, turn.dev.sessions[k], Room(turn.dev))))
  }

  /** Serving another event never moves this one back, and moves it forward once it is ready. */
  lemma ServePlace(setup: Setup, e: Engine, kind: EventKind, id: uint32, i: nat) returns (j: nat)
    requires i < |e.dev.events| && e.dev.events[i].session == id && e.dev.events[i].kind == kind
    requires !(TurnOf(e).Some? && Resolves(setup, TurnOf(e).value, kind, id))
    ensures j <= i && (e.dev.events[i].delay == 0 ==> j < i)
    ensures j < |Serve(setup, e).engine.dev.events| && Serve(setup, e).engine.dev.events[j] == e.dev.events[i]
  {
    hide Process, Emit, Advance, Interval, StopsAtBudget;
    var q, at := e.dev.events, FirstReady(e.dev.events);
    j := i;
    if at < |q| {
      var turn := TurnOf(e).value;
      var d, event := turn.dev, turn.event;
      j := if at < i then i - 1 else i;
      assert d.events[j] == q[i];
      ProcessCore(setup, e.(dev := d), event);
      var k := FindSession(d.sessions, event.session);
      if k < |d.sessions| && event.kind.RangeData? {
        EmitCancelsIff(setup, d.sessions[k], Room(d), d.nextSequence);
        if Emit(setup, d.sessions[k], Room(d), d.nextSequence).cancels {
          j := Shifted(d.events, None, d.sessions[k].id, j);
        }
      }
    }
  }

  /** The session's event of a kind is queued and not further away than a bound. */
  ghost predicate Due(q: seq<Event>, kind: EventKind, id: uint32, bound: nat) {
    exists x :: x in q && x.kind == kind && x.session == id && x.delay <= bound
  }

  /** The session exists, re-arms within a bound, and while it has work its event is due within the bound. */
  ghost predicate Live(p: Profile, d: Device, kind: EventKind, id: uint32, bound: nat) {
    var s := SessionBy(d, id);
    s.Some? && Interval(p, s.value) <= bound && (Working(s.value, kind) ==> Due(d.events, kind, id, bound))
  }

  lemma MeasureAdvances(s: Session, room: nat, nextSequence: uint32, policy: Policy, ntf: Option<Packet>)
    requires Working(s, EventKind.RangeData) && !BudgetReached(s) && room >= 2 && ntf.Some?
    ensures var em := Measure(s, room, nextSequence, policy, ntf);
            && em.ok && Left(EventKind.RangeData, em.session) < Left(EventKind.RangeData, s)
            && (em.cancels ==> em.session.state == STATE_IDLE)
            && (!em.cancels ==> em.session.streamRemaining == s.streamRemaining - 1)
  {
    hide Budget;
  }

  /** With room an emission of a running stream always succeeds and leaves less of it. */
  lemma EmitAdvances(setup: Setup, s: Session, room: nat, nextSequence: uint32)
    requires Prompt(setup) && setup.scenario.RangingStream? && Working(s, EventKind.RangeData) && room >= 2
    ensures var em := Emit(setup, s, room, nextSequence);
            && em.ok && Left(EventKind.RangeData, em.session) < Left(EventKind.RangeData, s)
            && (em.cancels ==> em.session.state == STATE_IDLE)
  {
    hide Measure, InitSample, Evaluate, Budget;
    if !BudgetReached(s) {
      var sample := InitSample(setup.profile, s);
      var policy := Evaluate(s, sample);
      MeasureAdvances(s, room, nextSequence, policy,
                      RangeDataNtf(setup.profile.rangeData, sample, nextSequence, policy.fields));
    }
  }

  lemma EmitElsewhere(setup: Setup, s: Session, room: nat, nextSequence: uint32)
    requires !setup.scenario.RangingStream?
    ensures var em := Emit(setup, s, room, nextSequence); em.session == s && em.ok && !em.cancels
  {
  }

  /** Serving one of the session's own events: less work of its kind, no more of the other, and what is left is due. */
  lemma OwnServed(setup: Setup, d: Device, event: Event, k: nat, kind: EventKind, bound: nat)
    requires Prompt(setup) && (kind.RangeData? ==> setup.scenario.RangingStream?) && |d.events| < MAX_EVENTS
             && d.pending == []
    requires k < |d.sessions| && d.sessions[k].id == event.session && Working(d.sessions[k], event.kind)
    requires !kind.NoEvent? && Interval(setup.profile, d.sessions[k]) <= bound
    requires event.kind != kind && Working(d.sessions[k], kind) ==> Due(d.events, kind, event.session, bound)
    ensures var s, s' := d.sessions[k], ServedSession(setup, d, event, k);
            && Interval(setup.profile, s') == Interval(setup.profile, s)
            && Left(kind, s') <= Left(kind, s)
            && (Working(s, kind) && (event.kind == kind
                                     || (event.kind.RangeData? && StopsAtBudget(setup, s, Room(d)))) ==>
                  Left(kind, s') < Left(kind, s))
            && (Working(s', kind) ==> Due(ServedEvents(setup, d, event, k), kind, event.session, bound))
  {
    hide Emit, StopsAtBudget, IntervalOf, InitSample, Evaluate;
    var s, q' := d.sessions[k], ServedEvents(setup, d, event, k);
    if event.kind.RangeData? {
      EmitFrame(setup, s, Room(d), d.nextSequence);
      if setup.scenario.RangingStream? {
        EmitAdvances(setup, s, Room(d), d.nextSequence);
      } else {
        EmitElsewhere(setup, s, Room(d), d.nextSequence);
      }
      EmitCancelsIff(setup, s, Room(d), d.nextSequence);
      EmitCancels(setup, s, Room(d), d.nextSequence);
    }
    if q' != d.events && |q'| > 0 { assert q'[|q'| - 1] in q'; }
    assert forall x :: x in d.events && !(event.kind.RangeData? && Emit(setup, s, Room(d), d.nextSequence).cancels) ==>
           x in q';
  }

  lemma RemovedDue(q: seq<Event>, i: nat, kind: EventKind, id: uint32, bound: nat)
    requires i < |q| && (q[i].session != id || q[i].kind != kind) && Due(q, kind, id, bound)
    ensures Due(RemoveAt(q, i), kind, id, bound)
  {
    var r := RemoveAt(q, i);
    var j :| 0 <= j < |q| && q[j].kind == kind && q[j].session == id && q[j].delay <= bound;
    assert r[if j < i then j else j - 1] == q[j];
  }

  /** Serving keeps the session live and its work from growing; a turn that resolves its event leaves less. */
  lemma ServeLive(setup: Setup, e: Engine, kind: EventKind, id: uint32, bound: nat)
    requires Prompt(setup) && (kind.RangeData? ==> setup.scenario.RangingStream?) && !kind.NoEvent?
    requires Structured(e.dev) && |e.outbound| <= MAX_OUTBOUND && OwnedFor(e.dev, id) && e.dev.pending == []
    requires Live(setup.profile, e.dev, kind, id, bound)
    ensures var e' := Serve(setup, e).engine;
            && Live(setup.profile, e'.dev, kind, id, bound)
            && var s, s' := SessionBy(e.dev, id).value, SessionBy(e'.dev, id).value;
               && Left(kind, s') <= Left(kind, s)
               && (Left(kind, s) > 0 && TurnOf(e).Some? && Resolves(setup, TurnOf(e).value, kind, id) ==>
                   Left(kind, s') < Left(kind, s))
  {
    hide Process, ServedSession, ServedEvents, StopsAtBudget, Interval, Due, Left, EventOwned, OneOfEach;
    var d, k := e.dev, FindSession(e.dev.sessions, id);
    var s := d.sessions[k];
    LeftMeansWorking(kind, s);
    ServeLookup(setup, e, id, s);
    if TurnOf(e).Some? {
      var turn, at := TurnOf(e).value, FirstReady(d.events);
      ProcessCore(setup, e.(dev := turn.dev), turn.event);
      if Working(s, kind) && !(turn.event.session == id && turn.event.kind == kind) {
        RemovedDue(d.events, at, kind, id, bound);
      }
      if turn.event.session == id {
        assert turn.event in d.events;
        OwnerIs(d, turn.event, k);
        OwnServed(setup, turn.dev, turn.event, k, kind, bound);
      } else {
        var j := FindSession(turn.dev.sessions, turn.event.session);
        if j < |d.sessions| {
          OthersServed(setup, turn.dev, turn.event, j, id);
          if Working(s, kind) {
            SameDue(turn.dev.events, ServedEvents(setup, turn.dev, turn.event, j), kind, id, bound);
          }
        }
      }
    }
  }

  lemma SameDue(a: seq<Event>, b: seq<Event>, kind: EventKind, id: uint32, bound: nat)
    requires Due(a, kind, id, bound) && forall x: Event :: x.session == id ==> (x in a <==> x in b)
    ensures Due(b, kind, id, bound)
  {
  }

  // ----- one step of the host -----

  predicate SparesStep(setup: Setup, e: Engine, step: Step, id: uint32) {
    step.SubmitPacket? ==> Spares(e.dev, MoveOf(setup, e.dev, step.req, step.other), id)
  }

  predicate ResolvesStep(setup: Setup, e: Engine, step: Step, kind: EventKind, id: uint32) {
    var turn := StepTurn(setup, e, step);
    turn.Some? && Resolves(setup, turn.value, kind, id)
  }

  /** A drained engine of a prompt setup in which the session is live. */
  ghost predicate Ready(setup: Setup, e: Engine, kind: EventKind, id: uint32, bound: nat) {
    && Prompt(setup) && (kind.RangeData? ==> setup.scenario.RangingStream?) && !kind.NoEvent?
    && SoundFor(e, id) && Drained(e) && Live(setup.profile, e.dev, kind, id, bound)
  }

  lemma ReceiveLive(setup: Setup, e: Engine, req: Packet, other: Reply, kind: EventKind, id: uint32, bound: nat)
    requires Structured(e.dev) && Live(setup.profile, e.dev, kind, id, bound)
    requires SparesStep(setup, e, SubmitPacket(req, other), id)
    ensures var d' := Receive(setup, e, req, other).engine.dev;
            SessionBy(d', id) == SessionBy(e.dev, id) && Live(setup.profile, d', kind, id, bound)
  {
    hide Receive, MoveOf, Apply, Working, Interval;
    var mv := MoveOf(setup, e.dev, req, other);
    MoveLegal(setup, e.dev, req, other);
    SparedSession(setup, e.dev, mv, id);
    ReceiveCore(setup, e, req, other);
    if Due(e.dev.events, kind, id, bound) {
      var i :| 0 <= i < |e.dev.events| && e.dev.events[i].kind == kind && e.dev.events[i].session == id
          && e.dev.events[i].delay <= bound;
      var j := SparedPlace(setup, e.dev, mv, id, i);
      assert Apply(setup, e.dev, mv).events[j] in Apply(setup, e.dev, mv).events;
    }
  }

  lemma ElapsedLive(p: Profile, e: Engine, elapsed: uint32, kind: EventKind, id: uint32, bound: nat)
    requires Live(p, e.dev, kind, id, bound)
    ensures Live(p, Elapsed(e, elapsed).dev, kind, id, bound)
            && SessionBy(Elapsed(e, elapsed).dev, id) == SessionBy(e.dev, id)
  {
    hide Working, Interval;
    var q, q' := e.dev.events, Elapsed(e, elapsed).dev.events;
    if Due(q, kind, id, bound) {
      var i :| 0 <= i < |q| && q[i].kind == kind && q[i].session == id && q[i].delay <= bound;
      assert q'[i] in q';
    }
  }

  /** When a handler leaves the session live, so does the tick that follows it. */
  lemma LiveFromReceive(setup: Setup, e: Engine, req: Packet, other: Reply, kind: EventKind, id: uint32, bound: nat)
    requires Prompt(setup) && (kind.RangeData? ==> setup.scenario.RangingStream?) && !kind.NoEvent?
    requires SoundFor(e, id) && Drained(e) && ProperTransitions(setup.profile)
    requires SafeStepFor(setup, e, SubmitPacket(req, other), id)
    requires Live(setup.profile, Receive(setup, e, req, other).engine.dev, kind, id, bound)
    ensures var a, step := Receive(setup, e, req, other), SubmitPacket(req, other);
            var e' := HostNext(setup, e, step);
            && Ready(setup, e', kind, id, bound)
            && var s, s' := SessionBy(a.engine.dev, id).value, SessionBy(e'.dev, id).value;
               && Left(kind, s') <= Left(kind, s) && Progressed(setup, s, s')
               && (Left(kind, s) > 0 && ResolvesStep(setup, e, step, kind, id) ==> Left(kind, s') < Left(kind, s))
  {
    hide Receive, Serve, Live, OwnedFor, Left, Resolves, MoveOf, TurnOf, StepProduced, Structured, Evaluate, InitSample;
    var step, a := SubmitPacket(req, other), Receive(setup, e, req, other);
    NextSoundFor(setup, e, step, id);
    StepInOrder(setup, e, step);
    ReceiveSoundFor(setup, e, req, other, id);
    ReceiveInOrder(setup, e, req, other);
    LiveHere(setup.profile, a.engine.dev, kind, id, bound);
    if a.ok {
      ElapsedLive(setup.profile, a.engine, 0, kind, id, bound);
      ElapsedOwned(a.engine, 0, id);
      ServeLive(setup, Elapsed(a.engine, 0), kind, id, bound);
      ServeProgress(setup, Elapsed(a.engine, 0), id);
    }
  }

  lemma ServeProgress(setup: Setup, e: Engine, id: uint32)
    requires Structured(e.dev) && |e.outbound| <= MAX_OUTBOUND && SessionBy(e.dev, id).Some?
    ensures var t := SessionBy(Serve(setup, e).engine.dev, id);
            t.Some? && Progressed(setup, SessionBy(e.dev, id).value, t.value)
  {
    hide Serve, ServedSession, Evaluate, InitSample;
    ServeLookup(setup, e, id, SessionBy(e.dev, id).value);
    if TurnOf(e).Some? {
      ServedProgress(setup, TurnOf(e).value.dev, TurnOf(e).value.event, FindSession(e.dev.sessions, id));
    }
  }

  /**
   A host step that spares a live session keeps it live and its work from growing; resolving its
   event leaves less.
   */
  lemma HostStepLive(setup: Setup, e: Engine, step: Step, kind: EventKind, id: uint32, bound: nat)
    requires Ready(setup, e, kind, id, bound) && ProperTransitions(setup.profile) && SparesStep(setup, e, step, id)
    ensures var e' := HostNext(setup, e, step);
            && Ready(setup, e', kind, id, bound)
            && var s, s' := SessionBy(e.dev, id).value, SessionBy(e'.dev, id).value;
               && Left(kind, s') <= Left(kind, s) && Progressed(setup, s, s')
               && (Left(kind, s) > 0 && ResolvesStep(setup, e, step, kind, id) ==> Left(kind, s') < Left(kind, s))
  {
    hide Receive, Serve, Live, OwnedFor, Left, Resolves, MoveOf, TurnOf, StepProduced, Structured, Evaluate, InitSample;
    SparedIsSafe(setup, e, step, id);
    match step
    case SubmitPacket(req, other) =>
      ReceiveLive(setup, e, req, other, kind, id, bound);
      LiveFromReceive(setup, e, req, other, kind, id, bound);
    case Wait(elapsed) =>
      NextSoundFor(setup, e, step, id);
      StepInOrder(setup, e, step);
      ElapsedLive(setup.profile, e, elapsed, kind, id, bound);
      ElapsedOwned(e, elapsed, id);
      ServeLive(setup, Elapsed(e, elapsed), kind, id, bound);
      LiveHere(setup.profile, e.dev, kind, id, bound);
      ServeProgress(setup, Elapsed(e, elapsed), id);
    case Take =>
      NextSoundFor(setup, e, step, id);
      LiveHere(setup.profile, e.dev, kind, id, bound);
  }

  lemma SparedIsSafe(setup: Setup, e: Engine, step: Step, id: uint32)
    requires Structured(e.dev) && SparesStep(setup, e, step, id)
    ensures SafeStepFor(setup, e, step, id)
  {
    hide MoveOf;
    if step.SubmitPacket? { MoveLegal(setup, e.dev, step.req, step.other); }
  }

  /**
   A host step that does not resolve the session's event moves it no further back; a tick moves a
   ready one forward.
   */
  lemma HostStepPlace(setup: Setup, e: Engine, step: Step, kind: EventKind, id: uint32, bound: nat, i: nat)
      returns (j: nat)
    requires Ready(setup, e, kind, id, bound) && ProperTransitions(setup.profile) && SparesStep(setup, e, step, id)
    requires i < |e.dev.events| && e.dev.events[i].session == id && e.dev.events[i].kind == kind
    requires !ResolvesStep(setup, e, step, kind, id)
    ensures var x, q' := Aged(e.dev.events[i], Duration(step)), HostNext(setup, e, step).dev.events;
            && j <= i && (step.Wait? && x.delay == 0 ==> j < i)
            && j < |q'| && q'[j] == x
  {
    hide Receive, Serve, Live, OwnedFor, Resolves, MoveOf, TurnOf, Apply;
    match step
    case SubmitPacket(req, other) =>
      var a, mv := Receive(setup, e, req, other), MoveOf(setup, e.dev, req, other);
      MoveLegal(setup, e.dev, req, other);
      LiveHere(setup.profile, e.dev, kind, id, bound);
      j := SparedPlace(setup, e.dev, mv, id, i);
      ReceiveCore(setup, e, req, other);
      var b := Elapsed(a.engine, 0);
      assert b.dev.events[j] == a.engine.dev.events[j];
      if a.ok { j := ServePlace(setup, b, kind, id, j); }
    case Wait(elapsed) =>
      assert Elapsed(e, elapsed).dev.events[i] == Aged(e.dev.events[i], elapsed);
      j := ServePlace(setup, Elapsed(e, elapsed), kind, id, i);
    case Take => j := i;
  }

  lemma LiveHere(p: Profile, d: Device, kind: EventKind, id: uint32, bound: nat)
    requires Live(p, d, kind, id, bound)
    ensures SessionBy(d, id).Some?
  {
  }

  // ----- rounds -----

  /** Every packet of the run leaves the session alone. */
  predicate SparesRun(setup: Setup, e: Engine, steps: seq<Step>, id: uint32)
    decreases |steps|
  {
    steps != [] ==> SparesStep(setup, e, steps[0], id) && SparesRun(setup, HostNext(setup, e, steps[0]), steps[1..], id)
  }

  function Waits(steps: seq<Step>): nat
    decreases |steps|
  {
    if steps == [] then 0 else (if steps[0].Wait? then 1 else 0) + Waits(steps[1..])
  }

  /** Work left of the session after a run of the host. */
  function LeftBy(e: Engine, kind: EventKind, id: uint32): nat {
    var s := SessionBy(e.dev, id);
    if s.None? then 0 else Left(kind, s.value)
  }

  lemma {:induction false} HostRunLive(setup: Setup, e: Engine, steps: seq<Step>, kind: EventKind, id: uint32,
                                       bound: nat)
    requires Ready(setup, e, kind, id, bound) && ProperTransitions(setup.profile) && SparesRun(setup, e, steps, id)
    ensures Ready(setup, HostRun(setup, e, steps), kind, id, bound)
    ensures LeftBy(HostRun(setup, e, steps), kind, id) <= LeftBy(e, kind, id)
    decreases |steps|
  {
    hide HostNext, SparesStep, Left, OwnedFor, Structured;
    if steps != [] {
      HostStepLive(setup, e, steps[0], kind, id, bound);
      HostRunLive(setup, HostNext(setup, e, steps[0]), steps[1..], kind, id, bound);
    }
  }

  /**
   A queued event of a live session at place i is resolved once its delay has run out
   and then more than i ticks have passed, so the session's work has become less.
   */
  lemma {:induction false} EventResolved(setup: Setup, e: Engine, steps: seq<Step>, n: nat, kind: EventKind, id: uint32,
                                         bound: nat, i: nat)
    requires Ready(setup, e, kind, id, bound) && ProperTransitions(setup.profile) && SparesRun(setup, e, steps, id)
    requires LeftBy(e, kind, id) > 0
    requires i < |e.dev.events| && e.dev.events[i].session == id && e.dev.events[i].kind == kind
    requires n <= |steps| && TotalTime(steps[..n]) >= e.dev.events[i].delay && Waits(steps[n..]) > i
    ensures LeftBy(HostRun(setup, e, steps), kind, id) < LeftBy(e, kind, id)
    decreases |steps|
  {
    hide HostNext, SparesStep, Left, OwnedFor, Structured, ResolvesStep, Live, Drained;
    var step, rest, e' := steps[0], steps[1..], HostNext(setup, e, steps[0]);
    HostStepLive(setup, e, step, kind, id, bound);
    if LeftBy(e', kind, id) < LeftBy(e, kind, id) {
      HostRunLive(setup, e', rest, kind, id, bound);
    } else {
      var j := HostStepPlace(setup, e, step, kind, id, bound, i);
      var n' := if n == 0 then 0 else n - 1;
      if n == 0 {
        assert steps[..0] == [] && rest[..0] == [] && steps[0..] == steps && rest[0..] == rest;
      } else {
        assert steps[..n][1..] == rest[..n'] && steps[n..] == rest[n'..] && steps[..n][0] == step;
      }
      EventResolved(setup, e', rest, n', kind, id, bound, j);
    }
  }

  /** Time at least the bound, then as many ticks as events can be queued. */
  predicate IsRound(steps: seq<Step>, bound: nat) {
    exists n :: 0 <= n <= |steps| && TotalTime(steps[..n]) >= bound && Waits(steps[n..]) >= MAX_EVENTS
  }

  /** Every round leaves a live session less work, while it has any. */
  lemma RoundAdvances(setup: Setup, e: Engine, steps: seq<Step>, kind: EventKind, id: uint32, bound: nat)
    requires Ready(setup, e, kind, id, bound) && ProperTransitions(setup.profile) && SparesRun(setup, e, steps, id)
    requires LeftBy(e, kind, id) > 0 && IsRound(steps, bound)
    ensures LeftBy(HostRun(setup, e, steps), kind, id) < LeftBy(e, kind, id)
  {
    hide HostRun, SparesRun, OwnedFor, Drained, Interval;
    LeftMeansWorking(kind, SessionBy(e.dev, id).value);
    var n :| 0 <= n <= |steps| && TotalTime(steps[..n]) >= bound && Waits(steps[n..]) >= MAX_EVENTS;
    var i :| 0 <= i < |e.dev.events| && e.dev.events[i].kind == kind && e.dev.events[i].session == id
        && e.dev.events[i].delay <= bound;
    EventResolved(setup, e, steps, n, kind, id, bound, i);
  }

  /** The steps of a list of rounds. */
  function Concat(rounds: seq<seq<Step>>): seq<Step>
    decreases |rounds|
  {
    if rounds == [] then [] else rounds[0] + Concat(rounds[1..])
  }

  lemma {:induction false} HostRunAppend(setup: Setup, e: Engine, a: seq<Step>, b: seq<Step>, id: uint32)
    ensures HostRun(setup, e, a + b) == HostRun(setup, HostRun(setup, e, a), b)
    ensures SparesRun(setup, e, a + b, id) <==>
            SparesRun(setup, e, a, id) && SparesRun(setup, HostRun(setup, e, a), b, id)
    decreases |a|
  {
    hide HostNext, SparesStep;
    if a == [] {
      assert a + b == b;
    } else {
      assert (a + b)[1..] == a[1..] + b;
      HostRunAppend(setup, HostNext(setup, e, a[0]), a[1..], b, id);
    }
  }

  /** As many rounds as there is work leave none. */
  lemma {:induction false} WorkCompletes(setup: Setup, e: Engine, rounds: seq<seq<Step>>, kind: EventKind, id: uint32,
                                         bound: nat)
    requires Ready(setup, e, kind, id, bound) && ProperTransitions(setup.profile)
             && SparesRun(setup, e, Concat(rounds), id)
    requires (forall r :: r in rounds ==> IsRound(r, bound)) && |rounds| >= LeftBy(e, kind, id)
    ensures Ready(setup, HostRun(setup, e, Concat(rounds)), kind, id, bound)
    ensures LeftBy(HostRun(setup, e, Concat(rounds)), kind, id) == 0
    decreases |rounds|
  {
    hide HostRun, SparesRun, Ready, LeftBy, IsRound;
    HostRunLive(setup, e, Concat(rounds), kind, id, bound);
    if LeftBy(e, kind, id) > 0 {
      var first, rest := rounds[0], Concat(rounds[1..]);
      HostRunAppend(setup, e, first, rest, id);
      HostRunLive(setup, e, first, kind, id, bound);
      RoundAdvances(setup, e, first, kind, id, bound);
      WorkCompletes(setup, HostRun(setup, e, first), rounds[1..], kind, id, bound);
    }
  }

  // ----- what has been done -----

  /** A spared session that was active still is, with every measurement accounted for, or its budget has stopped it. */
  predicate Ran(s: Session, t: Session) {
    && t.inUse && t.id == s.id && t.configs == s.configs
    && (|| (t.state == STATE_ACTIVE && t.streamRemaining + Since(t.rangingCount, s.rangingCount) == s.streamRemaining)
        || (t.state == STATE_IDLE && t.streamRemaining == 0 && BudgetReached(t)))
  }

  lemma RanOn(setup: Setup, s: Session, t: Session, u: Session)
    requires Ran(s, t) && Progressed(setup, t, u)
    ensures Ran(s, u)
  {
    hide Evaluate, InitSample;
    if t.state == STATE_ACTIVE && Since(t.rangingCount, s.rangingCount) + 1 < WRAP32 {
      SinceNext(t.rangingCount, s.rangingCount);
    }
  }

  lemma {:induction false} HostRunRan(setup: Setup, e: Engine, steps: seq<Step>, kind: EventKind, id: uint32,
                                      bound: nat, s: Session)
    requires Ready(setup, e, kind, id, bound) && ProperTransitions(setup.profile) && SparesRun(setup, e, steps, id)
    requires SessionBy(e.dev, id).Some? && Ran(s, SessionBy(e.dev, id).value)
    ensures SessionBy(HostRun(setup, e, steps).dev, id).Some?
            && Ran(s, SessionBy(HostRun(setup, e, steps).dev, id).value)
    decreases |steps|
  {
    hide HostNext, SparesStep, Left, OwnedFor, Structured, Progressed, Ran;
    if steps != [] {
      HostStepLive(setup, e, steps[0], kind, id, bound);
      var e' := HostNext(setup, e, steps[0]);
      RanOn(setup, s, SessionBy(e.dev, id).value, SessionBy(e'.dev, id).value);
      HostRunRan(setup, e', steps[1..], kind, id, bound, s);
    }
  }

  /**
   The whole burst is measured, or the budget stops the session first, within one round
   for each measurement that remains.
   */
  lemma BurstCompletes(setup: Setup, e: Engine, rounds: seq<seq<Step>>, id: uint32, bound: nat)
    requires Ready(setup, e, EventKind.RangeData, id, bound) && ProperTransitions(setup.profile)
    requires SparesRun(setup, e, Concat(rounds), id) && (forall r :: r in rounds ==> IsRound(r, bound))
    requires SessionBy(e.dev, id).Some? && SessionBy(e.dev, id).value.state == STATE_ACTIVE
    requires |rounds| >= SessionBy(e.dev, id).value.streamRemaining
    ensures var s, after := SessionBy(e.dev, id).value, SessionBy(HostRun(setup, e, Concat(rounds)).dev, id);
            && after.Some? && after.value.streamRemaining == 0
            && (|| (after.value.state == STATE_ACTIVE
                    && Since(after.value.rangingCount, s.rangingCount) == s.streamRemaining)
                || (after.value.state == STATE_IDLE && BudgetReached(after.value)))
  {
    hide HostRun, SparesRun, IsRound, SoundFor, Drained, Interval, BudgetReached;
    WorkCompletes(setup, e, rounds, EventKind.RangeData, id, bound);
    HostRunRan(setup, e, Concat(rounds), EventKind.RangeData, id, bound, SessionBy(e.dev, id).value);
  }

  /**
   A transfer in progress ends, or the budget stops the session first, within one round
   for each transmission that remains.
   */
  lemma TransferCompletes(setup: Setup, e: Engine, rounds: seq<seq<Step>>, id: uint32, bound: nat)
    requires Ready(setup, e, DataTransfer, id, bound) && ProperTransitions(setup.profile)
    requires SparesRun(setup, e, Concat(rounds), id) && (forall r :: r in rounds ==> IsRound(r, bound))
    requires SessionBy(e.dev, id).Some? && SessionBy(e.dev, id).value.state == STATE_ACTIVE
    requires |rounds| >= SessionBy(e.dev, id).value.repetitionsLeft + 1
    ensures var after := SessionBy(HostRun(setup, e, Concat(rounds)).dev, id);
            && after.Some?
            && (|| (after.value.state == STATE_ACTIVE && !after.value.transferring)
                || (after.value.state == STATE_IDLE && BudgetReached(after.value)))
  {
    hide HostRun, SparesRun, IsRound, SoundFor, Drained, Interval, BudgetReached;
    WorkCompletes(setup, e, rounds, DataTransfer, id, bound);
    HostRunRan(setup, e, Concat(rounds), DataTransfer, id, bound, SessionBy(e.dev, id).value);
  }

  // ----- from the packet that begins the work -----

  /** The accepted START of a session arms a stream within the bound, when an event fits. */
  lemma StartedLive(setup: Setup, e: Engine, req: Packet, other: Reply, i: nat, bound: nat)
    requires Structured(e.dev) && setup.scenario.RangingStream? && |e.dev.events| < MAX_EVENTS
    requires i < |e.dev.sessions| && e.dev.sessions[i].inUse && Interval(setup.profile, e.dev.sessions[i]) <= bound
    requires MoveOf(setup, e.dev, req, other) == Transit(i, SESSION_START, STATE_ACTIVE)
    ensures var id, d' := e.dev.sessions[i].id, Receive(setup, e, req, other).engine.dev;
            && Live(setup.profile, d', EventKind.RangeData, id, bound)
            && var s := SessionBy(d', id).value;
               s.state == STATE_ACTIVE && s.streamRemaining == setup.profile.burstCount
               && s.rangingCount == e.dev.sessions[i].rangingCount && s.configs == e.dev.sessions[i].configs
  {
    hide Receive, MoveOf, IntervalOf, StartVerdict;
    var id, d' := e.dev.sessions[i].id, Receive(setup, e, req, other).engine.dev;
    MoveLegal(setup, e.dev, req, other);
    ApplyStructured(setup, e.dev, Transit(i, SESSION_START, STATE_ACTIVE));
    ReceiveCore(setup, e, req, other);
    LookupSlot(Apply(setup, e.dev, Transit(i, SESSION_START, STATE_ACTIVE)), id, i);
    if setup.profile.burstCount > 0 {
      assert d'.events[|e.dev.events|] in d'.events;
    }
  }

  /**
   From the START packet on: the whole burst is measured or the budget stops it, within a round for
   each measurement.
   */
  lemma StartCompletes(setup: Setup, e: Engine, req: Packet, other: Reply, i: nat, rounds: seq<seq<Step>>, bound: nat)
    requires Prompt(setup) && setup.scenario.RangingStream? && ProperTransitions(setup.profile) && Drained(e)
    requires i < |e.dev.sessions| && e.dev.sessions[i].inUse && Interval(setup.profile, e.dev.sessions[i]) <= bound
    requires SoundFor(e, e.dev.sessions[i].id) && |e.dev.events| < MAX_EVENTS
    requires MoveOf(setup, e.dev, req, other) == Transit(i, SESSION_START, STATE_ACTIVE)
    requires SparesRun(setup, HostNext(setup, e, SubmitPacket(req, other)), Concat(rounds), e.dev.sessions[i].id)
    requires (forall r :: r in rounds ==> IsRound(r, bound)) && |rounds| >= setup.profile.burstCount
    ensures var s := e.dev.sessions[i];
            var after := SessionBy(HostRun(setup, HostNext(setup, e, SubmitPacket(req, other)), Concat(rounds)).dev,
                                   s.id);
            && after.Some? && after.value.streamRemaining == 0
            && (|| (after.value.state == STATE_ACTIVE
                    && Since(after.value.rangingCount, s.rangingCount) == setup.profile.burstCount)
                || (after.value.state == STATE_IDLE && BudgetReached(after.value)))
  {
    hide HostRun, HostNext, Receive, SparesRun, IsRound, Drained, Interval, MoveOf, OwnedFor, Structured, Progressed,
        BudgetReached;
    var id, e' := e.dev.sessions[i].id, HostNext(setup, e, SubmitPacket(req, other));
    StartedLive(setup, e, req, other, i, bound);
    LiveFromReceive(setup, e, req, other, EventKind.RangeData, id, bound);
    var s := SessionBy(Receive(setup, e, req, other).engine.dev, id).value;
    ReceivedIs(setup, e, req, other, id);
    RanOn(setup, s, s, SessionBy(e'.dev, id).value);
    WorkCompletes(setup, e', rounds, EventKind.RangeData, id, bound);
    HostRunRan(setup, e', Concat(rounds), EventKind.RangeData, id, bound, s);
  }

  lemma ReceivedIs(setup: Setup, e: Engine, req: Packet, other: Reply, id: uint32)
    requires SessionBy(Receive(setup, e, req, other).engine.dev, id).Some?
    ensures SessionBy(Receive(setup, e, req, other).engine.dev, id).value.inUse
    ensures SessionBy(Receive(setup, e, req, other).engine.dev, id).value.id == id
  {
    hide Receive;
  }

  /** The accepted message of a session with repetitions begins a transfer within the bound, when an event fits. */
  lemma AcceptedLive(setup: Setup, e: Engine, req: Packet, other: Reply, mv: Move, bound: nat)
    requires Structured(e.dev) && |e.dev.events| < MAX_EVENTS && mv.Send? && mv == MoveOf(setup, e.dev, req, other)
    requires Repetitions(e.dev.sessions[mv.slot]) > 0 && Interval(setup.profile, e.dev.sessions[mv.slot]) <= bound
    ensures var id, d' := e.dev.sessions[mv.slot].id, Receive(setup, e, req, other).engine.dev;
            && Live(setup.profile, d', DataTransfer, id, bound)
            && var s := SessionBy(d', id).value;
               && s.state == STATE_ACTIVE && s.transferring && s.repetitionsLeft == Repetitions(e.dev.sessions[mv.slot])
               && s.configs == e.dev.sessions[mv.slot].configs
  {
    hide Receive, MoveOf, IntervalOf, Repetitions;
    var id, d' := e.dev.sessions[mv.slot].id, Receive(setup, e, req, other).engine.dev;
    MoveLegal(setup, e.dev, req, other);
    ApplyStructured(setup, e.dev, mv);
    ReceiveCore(setup, e, req, other);
    LookupSlot(Apply(setup, e.dev, mv), id, mv.slot);
    assert d'.events[|e.dev.events|] in d'.events;
  }

  /** From the DATA packet on: the transfer ends or the budget stops it, within a round for each transmission. */
  lemma MessageCompletes(setup: Setup, e: Engine, req: Packet, other: Reply, mv: Move, rounds: seq<seq<Step>>,
                         bound: nat)
    requires Prompt(setup) && ProperTransitions(setup.profile) && Drained(e) && |e.dev.events| < MAX_EVENTS
    requires mv.Send? && mv == MoveOf(setup, e.dev, req, other) && SoundFor(e, e.dev.sessions[mv.slot].id)
    requires Repetitions(e.dev.sessions[mv.slot]) > 0 && Interval(setup.profile, e.dev.sessions[mv.slot]) <= bound
    requires SparesRun(setup, HostNext(setup, e, SubmitPacket(req, other)), Concat(rounds), e.dev.sessions[mv.slot].id)
    requires (forall r :: r in rounds ==> IsRound(r, bound)) && |rounds| >= Repetitions(e.dev.sessions[mv.slot]) + 1
    ensures var after := SessionBy(HostRun(setup, HostNext(setup, e, SubmitPacket(req, other)), Concat(rounds)).dev,
                                   e.dev.sessions[mv.slot].id);
            && after.Some?
            && (|| (after.value.state == STATE_ACTIVE && !after.value.transferring)
                || (after.value.state == STATE_IDLE && BudgetReached(after.value)))
  {
    hide HostRun, HostNext, Receive, SparesRun, IsRound, Drained, Interval, MoveOf, OwnedFor, Structured, Progressed,
        BudgetReached, Repetitions;
    var id, e' := e.dev.sessions[mv.slot].id, HostNext(setup, e, SubmitPacket(req, other));
    AcceptedLive(setup, e, req, other, mv, bound);
    LiveFromReceive(setup, e, req, other, DataTransfer, id, bound);
    var s := SessionBy(Receive(setup, e, req, other).engine.dev, id).value;
    ReceivedIs(setup, e, req, other, id);
    RanOn(setup, s, s, SessionBy(e'.dev, id).value);
    WorkCompletes(setup, e', rounds, DataTransfer, id, bound);
    HostRunRan(setup, e', Concat(rounds), DataTransfer, id, bound, s);
  }
}
