/**
 Transition mode of the range notifications: a started stream with a fixed
 window reports at most two crossings, because distances only grow.
 */
module Proximity {
  import opened Types
  import opened PacketCodec
  import opened Profiles
  import opened PacketQueues
  import opened Validation
  import opened Sessions
  import opened Devices
  import opened Handlers
  import opened Engines
  import opened Moves
  import opened Streams

  const TRANSITION_MODE: byte := 5

  /** Below, inside or above the window. */
  function Phase(near: uint16, far: uint16, distance: uint16): nat {
    if distance < near then 0 else if distance <= far then 1 else 2
  }

  /** The session reports transitions of a fixed window. */
  predicate Watches(s: Session, near: uint16, far: uint16) {
    && U8Or(s.configs, NTF_CONFIG, 1) == TRANSITION_MODE
    && U16Or(s.configs, PROXIMITY_NEAR, 0) == near && U16Or(s.configs, PROXIMITY_FAR, 0xFFFF) == far
  }

  /** The session exists, is active and watches the window before the run and after each step. */
  ghost predicate WatchesThroughout(setup: Setup, e: Engine, steps: seq<Step>, id: uint32, near: uint16, far: uint16)
    decreases |steps|
  {
    && SessionBy(e.dev, id).Some? && SessionBy(e.dev, id).value.state == STATE_ACTIVE
    && Watches(SessionBy(e.dev, id).value, near, far)
    && (steps != [] ==> WatchesThroughout(setup, Next(setup, e, steps[0]), steps[1..], id, near, far))
  }

  /** Serving this session in this device queues a range notification. */
  predicate Reporting(setup: Setup, d: Device, s: Session) {
    && Streaming(setup, s) && !BudgetReached(s) && Evaluate(s, InitSample(setup.profile, s)).emit
    && Emit(setup, s, Room(d), d.nextSequence).notes != []
  }

  /** 1 when the step queues a range notification of the session. */
  function Reports(setup: Setup, e: Engine, step: Step, id: uint32): nat {
    var turn := StepTurn(setup, e, step);
    if turn.Some? && turn.value.event.kind.RangeData? && turn.value.event.session == id
       && SessionBy(turn.value.dev, id).Some? && Reporting(setup, turn.value.dev,
                                                           SessionBy(turn.value.dev, id).value) then 1
    else 0
  }

  function AllReports(setup: Setup, e: Engine, steps: seq<Step>, id: uint32): nat
    decreases |steps|
  {
    if steps == [] then 0
    else Reports(setup, e, steps[0], id) + AllReports(setup, Next(setup, e, steps[0]), steps[1..], id)
  }

  /** No distance up to this count of measurements is cut to 16 bits. */
  predicate NoWrap(p: Profile, limit: nat) {
    limit < WRAP32 && p.rangeData.distanceBase + limit * p.rangeData.distanceStep < WRAP16
  }

  /** k reports so far, the last sample in some phase: each report moved the phase up. */
  ghost predicate Tracked(p: Profile, s: Session, near: uint16, far: uint16, k: nat, phase: nat, limit: nat) {
    && NoWrap(p, limit) && s.rangingCount + s.streamRemaining <= limit
    && k <= phase <= 2 && (s.hasProximity ==> s.inProximity == (phase == 1))
    && phase <= Phase(near, far, DistanceOf(p, s.rangingCount))
  }

  lemma DistancesGrow(p: Profile, limit: nat, a: nat, b: nat)
    requires NoWrap(p, limit) && a <= b <= limit
    ensures DistanceOf(p, a) == p.rangeData.distanceBase + a * p.rangeData.distanceStep
    ensures DistanceOf(p, a) <= DistanceOf(p, b)
  {
    assert a * p.rangeData.distanceStep <= b * p.rangeData.distanceStep <= limit * p.rangeData.distanceStep;
  }

  /** One measurement under transition mode: it reports only when the phase has moved up. */
  lemma MeasureTracked(setup: Setup, s: Session, t: Session, near: uint16, far: uint16, k: nat, phase: nat, limit: nat)
    returns (phase': nat)
    requires Tracked(setup.profile, s, near, far, k, phase, limit) && Watches(s, near, far)
    requires s.streamRemaining > 0 && t == Measured(s, Evaluate(s, InitSample(setup.profile, s)).inRange)
    ensures var k' := if Evaluate(s, InitSample(setup.profile, s)).emit then k + 1 else k;
            Tracked(setup.profile, t, near, far, k', phase', limit)
  {
    hide DistanceOf, ReportedFields, MeasurementType, Interval;
    var p := setup.profile;
    phase' := Phase(near, far, DistanceOf(p, s.rangingCount));
    DistancesGrow(p, limit, s.rangingCount, s.rangingCount + 1);
  }

  lemma MeasureActive(s: Session, room: nat, nextSequence: uint32, policy: Policy, ntf: Option<Packet>)
    requires s.streamRemaining > 0 && Measure(s, room, nextSequence, policy, ntf).session.state == STATE_ACTIVE
    ensures var em := Measure(s, room, nextSequence, policy, ntf);
            if policy.emit && em.notes == [] then em.session == s
            else em.session == Measured(s, policy.inRange) && (em.notes != [] <==> policy.emit)
  {
    hide BudgetReached;
  }

  /** An emission that leaves the session active measured it, unless a due notification found no room. */
  lemma EmitActive(setup: Setup, s: Session, room: nat, nextSequence: uint32)
    requires Streaming(setup, s) && !BudgetReached(s)
    requires Emit(setup, s, room, nextSequence).session.state == STATE_ACTIVE
    ensures var em, policy := Emit(setup, s, room, nextSequence), Evaluate(s, InitSample(setup.profile, s));
            if policy.emit && em.notes == [] then em.session == s
            else em.session == Measured(s, policy.inRange) && (em.notes != [] <==> policy.emit)
  {
    hide Measure, InitSample, Evaluate, RangeDataNtf, BudgetReached;
    var sample := InitSample(setup.profile, s);
    var policy := Evaluate(s, sample);
    MeasureActive(s, room, nextSequence, policy,
                  RangeDataNtf(setup.profile.rangeData, sample, nextSequence, policy.fields));
  }

  /** A served event of the session moves the account on. */
  lemma ServeTracked(setup: Setup, turn: Turn, i: nat, near: uint16, far: uint16, k: nat, phase: nat, limit: nat)
      returns (phase': nat)
    requires i < |turn.dev.sessions|
    requires Tracked(setup.profile, turn.dev.sessions[i], near, far, k, phase, limit)
             && Watches(turn.dev.sessions[i], near, far)
    requires ServedSession(setup, turn.dev, turn.event, i).state == STATE_ACTIVE
    ensures var reported := turn.event.kind.RangeData? && Reporting(setup, turn.dev, turn.dev.sessions[i]);
            Tracked(setup.profile, ServedSession(setup, turn.dev, turn.event, i), near, far,
                    k + (if reported then 1 else 0), phase', limit)
  {
    hide Tracked, Emit, RangeDataNtf, InitSample, Evaluate, Watches, BudgetReached;
    var s, t := turn.dev.sessions[i], ServedSession(setup, turn.dev, turn.event, i);
    phase' := phase;
    if turn.event.kind.RangeData? && Streaming(setup, s) && !BudgetReached(s) {
      EmitActive(setup, s, Room(turn.dev), turn.dev.nextSequence);
      if t != s {
        phase' := MeasureTracked(setup, s, t, near, far, k, phase, limit);
      }
    } else {
      if turn.event.kind.RangeData? { EmitIdle(setup, s, Room(turn.dev), turn.dev.nextSequence); }
      TrackedByProgress(setup.profile, s, t, near, far, k, phase, limit);
    }
  }

  lemma EmitIdle(setup: Setup, s: Session, room: nat, nextSequence: uint32)
    requires !(Streaming(setup, s) && !BudgetReached(s))
             && Emit(setup, s, room, nextSequence).session.state == STATE_ACTIVE
    ensures Emit(setup, s, room, nextSequence).session == s
  {
    hide Measure, InitSample, Evaluate, RangeDataNtf, BudgetReached;
  }

  lemma TrackedByProgress(p: Profile, s: Session, t: Session, near: uint16, far: uint16, k: nat, phase: nat, limit: nat)
    requires Tracked(p, s, near, far, k, phase, limit)
    requires t.rangingCount == s.rangingCount && t.streamRemaining <= s.streamRemaining
    requires t.hasProximity ==> s.hasProximity && t.inProximity == s.inProximity
    ensures Tracked(p, t, near, far, k, phase, limit)
  {
  }

  /** The turn of a step, from the session as the handler left it. */
  lemma TurnTracked(setup: Setup, e: Engine, step: Step, id: uint32, h: Session,
                    near: uint16, far: uint16, k: nat, phase: nat, limit: nat)
    returns (phase': nat)
    requires var turn := StepTurn(setup, e, step);
             && SessionBy(Next(setup, e, step).dev, id) == Some(AfterTurn(setup, turn, id, h))
             && (turn.Some? ==> SessionBy(turn.value.dev, id) == Some(h))
    requires Tracked(setup.profile, h, near, far, k, phase, limit) && h.inUse
    requires var t := SessionBy(Next(setup, e, step).dev, id).value; t.state == STATE_ACTIVE && Watches(t, near, far)
    ensures Tracked(setup.profile, SessionBy(Next(setup, e, step).dev, id).value, near, far,
                    k + Reports(setup, e, step, id), phase', limit)
  {
    hide Next, StepTurn, ServedSession, Tracked, Reporting, Watches;
    var t, turn := SessionBy(Next(setup, e, step).dev, id).value, StepTurn(setup, e, step);
    phase' := phase;
    if turn.Some? && turn.value.event.session == id {
      var i := FindSession(turn.value.dev.sessions, id);
      ServedProgress(setup, turn.value.dev, turn.value.event, i);
      ServedWasActive(setup, h, t, near, far);
      phase' := ServeTracked(setup, turn.value, i, near, far, k, phase, limit);
    }
  }

  lemma NextTracked(setup: Setup, e: Engine, step: Step, id: uint32, near: uint16, far: uint16, k: nat, phase: nat,
                    limit: nat)
    returns (phase': nat)
    requires Structured(e.dev) && |e.outbound| <= MAX_OUTBOUND && ProperTransitions(setup.profile)
    requires SessionBy(e.dev, id).Some? && SessionBy(e.dev, id).value.state == STATE_ACTIVE
    requires Tracked(setup.profile, SessionBy(e.dev, id).value, near, far, k, phase, limit)
    requires var t := SessionBy(Next(setup, e, step).dev, id);
             t.Some? && t.value.state == STATE_ACTIVE && Watches(t.value, near, far)
    ensures Tracked(setup.profile, SessionBy(Next(setup, e, step).dev, id).value, near, far,
                    k + Reports(setup, e, step, id), phase', limit)
  {
    hide Next, StepTurn, ServedSession, Tracked, Reports, Watches;
    var s, t := SessionBy(e.dev, id).value, SessionBy(Next(setup, e, step).dev, id).value;
    var h := NextLookup(setup, e, step, id, s);
    HandedWasActive(setup, e, step, id, h.value, near, far);
    TrackedByProgress(setup.profile, s, h.value, near, far, k, phase, limit);
    phase' := TurnTracked(setup, e, step, id, h.value, near, far, k, phase, limit);
  }

  /** A session active after a step was active when its event was served. */
  lemma HandedWasActive(setup: Setup, e: Engine, step: Step, id: uint32, h: Session, near: uint16, far: uint16)
    requires var turn := StepTurn(setup, e, step);
             && SessionBy(Next(setup, e, step).dev, id) == Some(AfterTurn(setup, turn, id, h))
             && (turn.Some? ==> SessionBy(turn.value.dev, id) == Some(h))
    requires h.inUse
    requires var t := SessionBy(Next(setup, e, step).dev, id).value; t.state == STATE_ACTIVE && Watches(t, near, far)
    ensures h.state == STATE_ACTIVE
  {
    hide Next, StepTurn, ServedSession, Watches;
    var turn := StepTurn(setup, e, step);
    if turn.Some? && turn.value.event.session == id {
      ServedProgress(setup, turn.value.dev, turn.value.event, FindSession(turn.value.dev.sessions, id));
      ServedWasActive(setup, h, SessionBy(Next(setup, e, step).dev, id).value, near, far);
    }
  }

  lemma ServedWasActive(setup: Setup, s: Session, t: Session, near: uint16, far: uint16)
    requires Progressed(setup, s, t) && t.state == STATE_ACTIVE && Watches(t, near, far)
    ensures s.state == STATE_ACTIVE && Watches(s, near, far)
  {
    hide Evaluate, InitSample, BudgetReached;
  }

  lemma {:induction false} RunTracked(setup: Setup, e: Engine, steps: seq<Step>, id: uint32, near: uint16, far: uint16,
                                      k: nat, phase: nat, limit: nat)
    returns (phase': nat)
    requires Structured(e.dev) && |e.outbound| <= MAX_OUTBOUND && ProperTransitions(setup.profile)
    requires WatchesThroughout(setup, e, steps, id, near, far)
    requires Tracked(setup.profile, SessionBy(e.dev, id).value, near, far, k, phase, limit)
    ensures var t := SessionBy(Run(setup, e, steps).dev, id);
            && t.Some? && t.value.state == STATE_ACTIVE
            && Tracked(setup.profile, t.value, near, far, k + AllReports(setup, e, steps, id), phase', limit)
    decreases |steps|
  {
    hide Next, Reports, Structured, Watches, Tracked;
    phase' := phase;
    if steps != [] {
      NextStructured(setup, e, steps[0]);
      var e' := Next(setup, e, steps[0]);
      assert WatchesThroughout(setup, e', steps[1..], id, near, far);
      phase' := NextTracked(setup, e, steps[0], id, near, far, k, phase, limit);
      phase' := RunTracked(setup, e', steps[1..], id, near, far, k + Reports(setup, e, steps[0], id), phase', limit);
    }
  }

  /** The session a step serves, if it reports, still watches the window; it may end the stream or leave the mode. */
  predicate LastWatched(setup: Setup, e: Engine, step: Step, id: uint32, near: uint16, far: uint16) {
    Reports(setup, e, step, id) == 1 ==> Watches(SessionBy(StepTurn(setup, e, step).value.dev, id).value, near, far)
  }

  /** The report of a step after which the session need not be active, or be there at all. */
  lemma LastReport(setup: Setup, e: Engine, step: Step, id: uint32, near: uint16, far: uint16, k: nat, phase: nat,
                   limit: nat)
    requires Structured(e.dev) && |e.outbound| <= MAX_OUTBOUND && ProperTransitions(setup.profile)
    requires SessionBy(e.dev, id).Some? && SessionBy(e.dev, id).value.state == STATE_ACTIVE
    requires Tracked(setup.profile, SessionBy(e.dev, id).value, near, far, k, phase, limit)
    requires LastWatched(setup, e, step, id, near, far)
    ensures k + Reports(setup, e, step, id) <= 2
  {
    hide Next, StepTurn, ServedSession, Watches, Evaluate, InitSample;
    var s := SessionBy(e.dev, id).value;
    var handed := NextLookup(setup, e, step, id, s);
    if Reports(setup, e, step, id) == 1 {
      var h := SessionBy(StepTurn(setup, e, step).value.dev, id).value;
      TurnSessionIs(setup, e, step, id, handed);
      TrackedByProgress(setup.profile, s, h, near, far, k, phase, limit);
      var phase' := MeasureTracked(setup, h, Measured(h, Evaluate(h, InitSample(setup.profile, h)).inRange),
                                   near, far, k, phase, limit);
    }
  }

  /** A dropped session has no turn. */
  lemma TurnSessionIs(setup: Setup, e: Engine, step: Step, id: uint32, h: Option<Session>)
    requires Structured(e.dev) && |e.outbound| <= MAX_OUTBOUND
    requires SessionBy(e.dev, id).Some? && StepEffect(setup, e, step, id, SessionBy(e.dev, id).value, h)
    requires StepTurn(setup, e, step).Some? && SessionBy(StepTurn(setup, e, step).value.dev, id).Some?
    ensures h.Some? && SessionBy(StepTurn(setup, e, step).value.dev, id) == h
  {
    hide Receive, Serve, ServedSession;
    if h.None? {
      var b := BeforeServe(setup, e, step).value;
      if step.SubmitPacket? { ReceiveStructured(setup, e, step.req, step.other); }
      ServeLookup(setup, b, id, SessionBy(b.dev, id).value);
    }
  }

  /**
   From a state with no remembered proximity, which is what START leaves, a stream with
   mode and window fixed queues at most two range notifications, whatever else is
   submitted and however time passes; the last step may end the stream.
   */
  lemma AtMostTwoTransitions(setup: Setup, e: Engine, steps: seq<Step>, last: Step, id: uint32, near: uint16,
                             far: uint16)
    requires Structured(e.dev) && |e.outbound| <= MAX_OUTBOUND && ProperTransitions(setup.profile)
    requires WatchesThroughout(setup, e, steps, id, near, far)
             && LastWatched(setup, Run(setup, e, steps), last, id, near, far)
    requires !SessionBy(e.dev, id).value.hasProximity
    requires NoWrap(setup.profile, SessionBy(e.dev, id).value.rangingCount + SessionBy(e.dev, id).value.streamRemaining)
    ensures AllReports(setup, e, steps, id) + Reports(setup, Run(setup, e, steps), last, id) <= 2
  {
    hide Next, AllReports, Structured, Watches, Reports;
    var s := SessionBy(e.dev, id).value;
    var limit := s.rangingCount + s.streamRemaining;
    var phase := RunTracked(setup, e, steps, id, near, far, 0, 0, limit);
    RunStructured(setup, e, steps);
    LastReport(setup, Run(setup, e, steps), last, id, near, far, AllReports(setup, e, steps, id), phase, limit);
  }

  /** From the START packet on, its own tick included: a started stream queues at most two range notifications. */
  lemma StartedAtMostTwo(setup: Setup, e: Engine, req: Packet, other: Reply, i: nat, steps: seq<Step>, last: Step,
                         near: uint16, far: uint16)
    requires Structured(e.dev) && |e.outbound| <= MAX_OUTBOUND && ProperTransitions(setup.profile)
    requires i < |e.dev.sessions| && e.dev.sessions[i].inUse && setup.scenario.RangingStream?
    requires MoveOf(setup, e.dev, req, other) == Transit(i, SESSION_START, STATE_ACTIVE)
    requires var id, e' := e.dev.sessions[i].id, Next(setup, e, SubmitPacket(req, other));
             WatchesThroughout(setup, e', steps, id, near, far)
                 && LastWatched(setup, Run(setup, e', steps), last, id, near, far)
    requires NoWrap(setup.profile, e.dev.sessions[i].rangingCount + setup.profile.burstCount)
    ensures var id, start := e.dev.sessions[i].id, SubmitPacket(req, other);
            var e' := Next(setup, e, start);
            Reports(setup, e, start, id) + AllReports(setup, e', steps, id) +
                Reports(setup, Run(setup, e', steps), last, id) <= 2
  {
    hide Next, Receive, StepTurn, AllReports, Structured, Watches, Reports, Tracked, MoveOf, AfterTurn;
    var s, start := e.dev.sessions[i], SubmitPacket(req, other);
    var h, e', limit := StartedSession(setup, s), Next(setup, e, start), s.rangingCount + setup.profile.burstCount;
    StartReceived(setup, e, req, other, i);
    SubmitEffect(setup, e, req, other, s.id, h);
    NextStructured(setup, e, start);
    StartTracked(setup, s, near, far);
    var phase := TurnTracked(setup, e, start, s.id, h, near, far, 0, 0, limit);
    var k := Reports(setup, e, start, s.id);
    phase := RunTracked(setup, e', steps, s.id, near, far, k, phase, limit);
    RunStructured(setup, e', steps);
    LastReport(setup, Run(setup, e', steps), last, s.id, near, far, k + AllReports(setup, e', steps, s.id), phase,
               limit);
  }

  lemma StartTracked(setup: Setup, s: Session, near: uint16, far: uint16)
    requires setup.scenario.RangingStream? && NoWrap(setup.profile, s.rangingCount + setup.profile.burstCount)
             && s.inUse
    ensures Tracked(setup.profile, StartedSession(setup, s), near, far, 0, 0, s.rangingCount + setup.profile.burstCount)
    ensures StartedSession(setup, s).inUse
  {
    hide DistanceOf, Interval;
  }

  /** The first sample after the remembered state was cleared never reports. */
  lemma FirstSampleSilent(setup: Setup, d: Device, s: Session)
    requires !s.hasProximity && U8Or(s.configs, NTF_CONFIG, 1) == TRANSITION_MODE
    ensures !Reporting(setup, d, s)
  {
  }
}
