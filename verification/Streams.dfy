/**
 One session over a run: conservation of its ranging stream, its measurement
 budget, its proximity notifications, and the exact output of its data transfers.
 Every statement is for all steps and all interleaved commands.
 */
module Streams {
  import opened Types
  import opened PacketCodec
  import opened Profiles
  import opened ConfigTables
  import opened EventQueues
  import opened PacketQueues
  import opened Validation
  import opened Sessions
  import opened Devices
  import opened Handlers
  import opened Engines
  import opened Moves
  import opened Ownership
  import opened Configuration

  // ----- how a step treats one session -----

  predicate SameTransfer(s: Session, t: Session) {
    t.transferring == s.transferring && t.txCount == s.txCount && t.repetitionsLeft == s.repetitionsLeft
    && t.transferSequence == s.transferSequence
  }

  /** What a handler may do to a session other than zeroing its slot. */
  predicate HandedOn(s: Session, t: Session) {
    && t.inUse && t.id == s.id && t.rangingCount == s.rangingCount
    && (s.state == STATE_ACTIVE && t.state == STATE_ACTIVE ==> t.streamRemaining == s.streamRemaining)
    && (s.transferring ==> !t.transferring || SameTransfer(s, t))
    && (t.hasProximity ==> s.hasProximity && t.inProximity == s.inProximity)
  }

  lemma MoveEffect(setup: Setup, d: Device, mv: Move, i: nat)
    requires Structured(d) && Legal(setup.profile, d, mv) && ProperTransitions(setup.profile)
    requires i < |d.sessions| && d.sessions[i].inUse
    ensures i < |Apply(setup, d, mv).sessions|
    ensures Apply(setup, d, mv).sessions[i] == ZERO_SESSION || HandedOn(d.sessions[i], Apply(setup, d, mv).sessions[i])
  {
    hide ApplyTlvs, StoreAll, StartVerdict, CoreFold, Interval, LinkMove, Armed, ShortTable, GoodSession, Bit,
        TransitionFor, ProperTransitions;
    match mv
    case Stay | SetCore(_) | Reset | Open(_, _) | Drop(_) | Relink(_, _) =>
    case Send(j, sequence, length) =>
    case Configure(j, tlvs) =>
      ConfigureFrame(setup.profile, d.sessions[j], d.events, tlvs);
      ConfigureProximity(setup.profile, d.sessions[j], d.events, tlvs);
    case Transit(j, oid, next) => TransitEffect(setup, d, j, oid, next);
  }

  lemma TransitEffect(setup: Setup, d: Device, j: nat, oid: byte, next: byte)
    requires Structured(d) && Legal(setup.profile, d, Transit(j, oid, next)) && ProperTransitions(setup.profile)
    ensures HandedOn(d.sessions[j], Apply(setup, d, Transit(j, oid, next)).sessions[j])
  {
    hide StartVerdict, Interval, Armed, TransitionFor, Bit, GoodSession, UniqueIds;
    var s := Entered(d.sessions[j], oid, next);
    if oid == SESSION_START { ArmedFrame(setup, s, d.events); }
  }

  lemma {:induction false} ConfigureProximity(p: Profile, s: Session, q: seq<Event>, tlvs: seq<Tlv>)
    ensures var t := ApplyTlvs(p, s, q, tlvs).session;
            t.hasProximity ==> s.hasProximity && t.inProximity == s.inProximity
    decreases |tlvs|
  {
    hide Refusal;
    if tlvs != [] {
      var c := ApplyTlv(p, s, q, tlvs[0]);
      if c.stop.None? { ConfigureProximity(p, c.session, c.events, tlvs[1..]); }
    }
  }

  /** The device a served event is processed in, and the event, when a step serves one. */
  datatype Turn = Turn(dev: Device, event: Event)

  function TurnOf(e: Engine): Option<Turn> {
    var at := FirstReady(e.dev.events);
    if at == |e.dev.events| then None
    else Some(Turn(e.dev.(events := RemoveAt(e.dev.events, at)), e.dev.events[at]))
  }

  /** The session of a slot after serving: unchanged, or moved on by the event of its own id. */
  lemma ServeEffect(setup: Setup, e: Engine, i: nat)
    requires Structured(e.dev) && i < |e.dev.sessions| && e.dev.sessions[i].inUse
    ensures var s, turn, d' := e.dev.sessions[i], TurnOf(e), Serve(setup, e).engine.dev;
            && |d'.sessions| == |e.dev.sessions|
            && d'.sessions[i] == (if turn.Some? && turn.value.event.session == s.id
                                  then ServedSession(setup, turn.value.dev, turn.value.event, i) else s)
  {
    hide Process, Emit, Advance;
    var turn := TurnOf(e);
    if turn.Some? {
      ProcessCore(setup, e.(dev := turn.value.dev), turn.value.event);
      FindUnique(e.dev.sessions, i);
    }
  }

  /** What serving may do to a session. */
  ghost predicate Progressed(setup: Setup, s: Session, t: Session) {
    && t.inUse && t.id == s.id && t.configs == s.configs
    && (|| (t.rangingCount == s.rangingCount && t.streamRemaining == s.streamRemaining && t.state == s.state
            && t.hasProximity == s.hasProximity && t.inProximity == s.inProximity)
        || (t == Halted(s) && BudgetReached(s))
        || (s.state == STATE_ACTIVE && s.streamRemaining > 0 && !BudgetReached(s)
            && var m := Measured(s, Evaluate(s, InitSample(setup.profile, s)).inRange);
               t == if BudgetReached(m) then Halted(m) else m))
  }

  lemma MeasureProgress(s: Session, room: nat, nextSequence: uint32, policy: Policy, ntf: Option<Packet>)
    requires s.streamRemaining > 0
    ensures var t, m := Measure(s, room, nextSequence, policy, ntf).session, Measured(s, policy.inRange);
            t == s || t == if BudgetReached(m) then Halted(m) else m
  {
    hide BudgetReached;
  }

  lemma EmitProgress(setup: Setup, s: Session, room: nat, nextSequence: uint32)
    requires s.inUse
    ensures Progressed(setup, s, Emit(setup, s, room, nextSequence).session)
  {
    hide Measure, RangeDataNtf, InitSample, Evaluate, BudgetReached;
    if Streaming(setup, s) && !BudgetReached(s) {
      var sample := InitSample(setup.profile, s);
      var policy := Evaluate(s, sample);
      MeasureProgress(s, room, nextSequence, policy,
                      RangeDataNtf(setup.profile.rangeData, sample, nextSequence, policy.fields));
    }
  }

  lemma ServedProgress(setup: Setup, d: Device, event: Event, i: nat)
    requires i < |d.sessions| && d.sessions[i].inUse
    ensures Progressed(setup, d.sessions[i], ServedSession(setup, d, event, i))
  {
    hide Emit, InitSample, Evaluate, Budget;
    EmitProgress(setup, d.sessions[i], Room(d), d.nextSequence);
  }

  // ----- steps and one session -----

  function SessionBy(d: Device, id: uint32): Option<Session> {
    var i := FindSession(d.sessions, id);
    if i < |d.sessions| then Some(d.sessions[i]) else None
  }

  /** The turn a step comes to, if it serves an event. */
  function StepTurn(setup: Setup, e: Engine, step: Step): Option<Turn> {
    var b := BeforeServe(setup, e, step);
    if b.Some? then TurnOf(b.value) else None
  }

  /** A session after its turn, when the event served is for its id. */
  function AfterTurn(setup: Setup, turn: Option<Turn>, id: uint32, s: Session): Session {
    if turn.None? || turn.value.event.session != id then s
    else
      var i := FindSession(turn.value.dev.sessions, id);
      if i < |turn.value.dev.sessions| then ServedSession(setup, turn.value.dev, turn.value.event, i) else s
  }

  /** A step hands a session on: through a handler, which may drop it, and then through serving. */
  ghost predicate StepEffect(setup: Setup, e: Engine, step: Step, id: uint32, s: Session, h: Option<Session>) {
    var after, turn := SessionBy(Next(setup, e, step).dev, id), StepTurn(setup, e, step);
    if h.None? then after == None
    else
      && HandedOn(s, h.value)
      && after == Some(AfterTurn(setup, turn, id, h.value))
      && (turn.Some? ==> SessionBy(turn.value.dev, id) == h)
  }

  lemma LookupSlot(d: Device, id: uint32, i: nat)
    requires Structured(d) && i < |d.sessions| && d.sessions[i].inUse && d.sessions[i].id == id
    ensures FindSession(d.sessions, id) == i && SessionBy(d, id) == Some(d.sessions[i])
  {
    FindUnique(d.sessions, i);
  }

  /** A handler drops a session or hands it on in its slot. */
  lemma ReceiveLookup(setup: Setup, e: Engine, req: Packet, other: Reply, id: uint32, s: Session)
      returns (h: Option<Session>)
    requires Structured(e.dev) && |e.outbound| <= MAX_OUTBOUND && ProperTransitions(setup.profile)
    requires SessionBy(e.dev, id) == Some(s)
    ensures h == SessionBy(Receive(setup, e, req, other).engine.dev, id)
    ensures h.Some? ==> HandedOn(s, h.value)
  {
    hide Receive, MoveOf, Apply;
    var i, d' := FindSession(e.dev.sessions, id), Receive(setup, e, req, other).engine.dev;
    MoveLegal(setup, e.dev, req, other);
    MoveEffect(setup, e.dev, MoveOf(setup, e.dev, req, other), i);
    ReceiveCore(setup, e, req, other);
    ReceiveStructured(setup, e, req, other);
    h := SessionBy(d', id);
    if d'.sessions[i] == ZERO_SESSION {
      DroppedStaysAway(setup, e.dev, MoveOf(setup, e.dev, req, other), id, i);
    } else {
      LookupSlot(d', id, i);
    }
  }

  /** The move that zeroes a session's slot leaves no other session with its id. */
  lemma DroppedStaysAway(setup: Setup, d: Device, mv: Move, id: uint32, i: nat)
    requires Structured(d) && Legal(setup.profile, d, mv) && ProperTransitions(setup.profile)
    requires i < |d.sessions| && d.sessions[i].inUse && d.sessions[i].id == id
    requires i < |Apply(setup, d, mv).sessions| && !Apply(setup, d, mv).sessions[i].inUse
    ensures SessionBy(Apply(setup, d, mv), id) == None
  {
    hide ApplyTlvs, StoreAll, StartVerdict, CoreFold, LinkMove, Sent, Armed, ShortTable;
    match mv
    case Stay | SetCore(_) | Reset | Open(_, _) | Drop(_) | Relink(_, _) =>
    case Send(j, sequence, length) => SentFrame(setup.profile, d.sessions[j], d.events, sequence, length);
    case Configure(j, tlvs) => ConfigureFrame(setup.profile, d.sessions[j], d.events, tlvs);
    case Transit(j, oid, next) => TransitFrame(setup, d, j, oid, next);
  }

  lemma ServeLookup(setup: Setup, e: Engine, id: uint32, s: Session)
    requires Structured(e.dev) && |e.outbound| <= MAX_OUTBOUND && SessionBy(e.dev, id) == Some(s)
    ensures SessionBy(Serve(setup, e).engine.dev, id) == Some(AfterTurn(setup, TurnOf(e), id, s))
    ensures TurnOf(e).Some? ==> TurnOf(e).value.dev.sessions == e.dev.sessions
  {
    hide Serve, ServedSession, Emit;
    var i := FindSession(e.dev.sessions, id);
    ServeEffect(setup, e, i);
    ServeStructured(setup, e);
    var turn := TurnOf(e);
    if turn.Some? { ServedProgress(setup, turn.value.dev, turn.value.event, i); }
    LookupSlot(Serve(setup, e).engine.dev, id, i);
  }

  lemma ServeGone(setup: Setup, e: Engine, id: uint32)
    requires Structured(e.dev) && SessionBy(e.dev, id) == None
    ensures SessionBy(Serve(setup, e).engine.dev, id) == None
  {
    hide Serve;
    ServeSettings(setup, e);
  }

  /** Every step hands a session on through a handler and through serving. */
  lemma NextLookup(setup: Setup, e: Engine, step: Step, id: uint32, s: Session) returns (h: Option<Session>)
    requires Structured(e.dev) && |e.outbound| <= MAX_OUTBOUND && ProperTransitions(setup.profile)
    requires SessionBy(e.dev, id) == Some(s)
    ensures StepEffect(setup, e, step, id, s, h)
  {
    hide Receive, Serve, ServedSession;
    match step
    case SubmitPacket(req, other) =>
      var a := Receive(setup, e, req, other);
      h := ReceiveLookup(setup, e, req, other, id, s);
      ReceiveStructured(setup, e, req, other);
      var b := Elapsed(a.engine, 0);
      if h.Some? { ServeLookup(setup, b, id, h.value); } else { ServeGone(setup, b, id); }
    case Wait(elapsed) =>
      h := Some(s);
      ServeLookup(setup, Elapsed(e, elapsed), id, s);
    case Take =>
      h := Some(s);
  }

  /** After a submitted packet: the session as the handler left it, moved on by the tick that follows. */
  lemma SubmitEffect(setup: Setup, e: Engine, req: Packet, other: Reply, id: uint32, h: Session)
    requires Structured(e.dev) && |e.outbound| <= MAX_OUTBOUND
             && SessionBy(Receive(setup, e, req, other).engine.dev, id) == Some(h)
    ensures var step := SubmitPacket(req, other);
            var turn := StepTurn(setup, e, step);
            && SessionBy(Next(setup, e, step).dev, id) == Some(AfterTurn(setup, turn, id, h))
            && (turn.Some? ==> SessionBy(turn.value.dev, id) == Some(h))
  {
    hide Receive, Serve, ServedSession;
    ReceiveStructured(setup, e, req, other);
    ServeLookup(setup, Elapsed(Receive(setup, e, req, other).engine, 0), id, h);
  }

  /** A session as an accepted START leaves it, before the tick that follows. */
  function StartedSession(setup: Setup, s: Session): Session {
    Armed(setup, Entered(s, SESSION_START, STATE_ACTIVE), []).0
  }

  lemma StartReceived(setup: Setup, e: Engine, req: Packet, other: Reply, i: nat)
    requires Structured(e.dev) && i < |e.dev.sessions| && e.dev.sessions[i].inUse
    requires MoveOf(setup, e.dev, req, other) == Transit(i, SESSION_START, STATE_ACTIVE)
    ensures SessionBy(Receive(setup, e, req, other).engine.dev, e.dev.sessions[i].id)
         == Some(StartedSession(setup, e.dev.sessions[i]))
  {
    hide Receive, MoveOf, Interval;
    var mv := Transit(i, SESSION_START, STATE_ACTIVE);
    MoveLegal(setup, e.dev, req, other);
    ApplyStructured(setup, e.dev, mv);
    ReceiveCore(setup, e, req, other);
    LookupSlot(Apply(setup, e.dev, mv), e.dev.sessions[i].id, i);
  }

  // ----- conservation -----

  /** The session exists and is active before the run and after each of its steps. */
  ghost predicate ActiveThroughout(setup: Setup, e: Engine, steps: seq<Step>, id: uint32)
    decreases |steps|
  {
    && SessionBy(e.dev, id).Some? && SessionBy(e.dev, id).value.state == STATE_ACTIVE
    && (steps != [] ==> ActiveThroughout(setup, Next(setup, e, steps[0]), steps[1..], id))
  }

  /** Measurements counted since a 32-bit counter stood at a value. */
  function Since(count: uint32, start: uint32): nat {
    (count - start) % WRAP32
  }

  predicate Conserved(s: Session, start: uint32, burst: byte) {
    s.streamRemaining + Since(s.rangingCount, start) == burst
  }

  lemma SinceNext(count: uint32, start: uint32)
    requires Since(count, start) + 1 < WRAP32
    ensures Since((count + 1) % WRAP32, start) == Since(count, start) + 1
  {
  }

  lemma ProgressConserves(setup: Setup, s: Session, t: Session, start: uint32, burst: byte)
    requires Progressed(setup, s, t) && Conserved(s, start, burst) && t.state == STATE_ACTIVE
    ensures Conserved(t, start, burst)
  {
    hide Evaluate, InitSample, BudgetReached;
    SinceNext(s.rangingCount, start);
  }

  lemma NextConserves(setup: Setup, e: Engine, step: Step, id: uint32, start: uint32, burst: byte)
    requires Structured(e.dev) && |e.outbound| <= MAX_OUTBOUND && ProperTransitions(setup.profile)
    requires SessionBy(e.dev, id).Some? && SessionBy(e.dev, id).value.state == STATE_ACTIVE
    requires Conserved(SessionBy(e.dev, id).value, start, burst)
    requires SessionBy(Next(setup, e, step).dev, id).Some?
             && SessionBy(Next(setup, e, step).dev, id).value.state == STATE_ACTIVE
    ensures Conserved(SessionBy(Next(setup, e, step).dev, id).value, start, burst)
  {
    hide Next, StepTurn, ServedSession, Progressed;
    var h := NextLookup(setup, e, step, id, SessionBy(e.dev, id).value);
    var turn := StepTurn(setup, e, step);
    if turn.Some? && turn.value.event.session == id {
      ServedProgress(setup, turn.value.dev, turn.value.event, FindSession(turn.value.dev.sessions, id));
      ServedActive(setup, h.value, SessionBy(Next(setup, e, step).dev, id).value);
      ProgressConserves(setup, h.value, SessionBy(Next(setup, e, step).dev, id).value, start, burst);
    }
  }

  /** A session active after serving was active before. */
  lemma ServedActive(setup: Setup, s: Session, t: Session)
    requires Progressed(setup, s, t) && t.state == STATE_ACTIVE
    ensures s.state == STATE_ACTIVE
  {
    hide Evaluate, InitSample, BudgetReached;
  }

  /** While a session stays active, what is left of its stream plus what was measured is the burst it started with. */
  lemma {:induction false} StreamConserved(setup: Setup, e: Engine, steps: seq<Step>, id: uint32, start: uint32,
                                           burst: byte)
    requires Structured(e.dev) && |e.outbound| <= MAX_OUTBOUND && ProperTransitions(setup.profile)
    requires ActiveThroughout(setup, e, steps, id) && Conserved(SessionBy(e.dev, id).value, start, burst)
    ensures var s := SessionBy(Run(setup, e, steps).dev, id);
            s.Some? && s.value.state == STATE_ACTIVE && Conserved(s.value, start, burst)
    decreases |steps|
  {
    hide Next, Conserved, Structured;
    if steps != [] {
      NextStructured(setup, e, steps[0]);
      NextConserves(setup, e, steps[0], id, start, burst);
      StreamConserved(setup, Next(setup, e, steps[0]), steps[1..], id, start, burst);
    }
  }

  /** A START in the ranging-stream scenario opens the account: a full burst left, nothing measured. */
  lemma StartOpensStream(setup: Setup, d: Device, i: nat)
    requires Structured(d) && i < |d.sessions| && d.sessions[i].inUse && setup.scenario.RangingStream?
    ensures var s := Apply(setup, d, Transit(i, SESSION_START, STATE_ACTIVE)).sessions[i];
            && s.state == STATE_ACTIVE && !s.hasProximity && s.rangingCount == d.sessions[i].rangingCount
            && Conserved(s, d.sessions[i].rangingCount, setup.profile.burstCount)
  {
  }

  /**
   From the START packet on, its own tick included: while the session stays active, what
   is left of its stream plus what was measured since is the burst count.
   */
  lemma StartedStreamConserved(setup: Setup, e: Engine, req: Packet, other: Reply, i: nat, steps: seq<Step>)
    requires Structured(e.dev) && |e.outbound| <= MAX_OUTBOUND && ProperTransitions(setup.profile)
    requires i < |e.dev.sessions| && e.dev.sessions[i].inUse && setup.scenario.RangingStream?
    requires MoveOf(setup, e.dev, req, other) == Transit(i, SESSION_START, STATE_ACTIVE)
    requires ActiveThroughout(setup, Next(setup, e, SubmitPacket(req, other)), steps, e.dev.sessions[i].id)
    ensures var s, t := e.dev.sessions[i], SessionBy(Run(setup, e, [SubmitPacket(req, other)] + steps).dev,
                                                     e.dev.sessions[i].id);
            t.Some? && t.value.state == STATE_ACTIVE && Conserved(t.value, s.rangingCount, setup.profile.burstCount)
  {
    hide Next, Receive, StepTurn, ServedSession, MoveOf, Structured, Progressed;
    var step, s := SubmitPacket(req, other), e.dev.sessions[i];
    var h, e' := StartedSession(setup, s), Next(setup, e, step);
    StartReceived(setup, e, req, other, i);
    SubmitEffect(setup, e, req, other, s.id, h);
    NextStructured(setup, e, step);
    var turn := StepTurn(setup, e, step);
    if turn.Some? && turn.value.event.session == s.id {
      ServedProgress(setup, turn.value.dev, turn.value.event, FindSession(turn.value.dev.sessions, s.id));
      ProgressConserves(setup, h, SessionBy(e'.dev, s.id).value, s.rangingCount, setup.profile.burstCount);
    }
    StreamConserved(setup, e', steps, s.id, s.rangingCount, setup.profile.burstCount);
    assert ([step] + steps)[1..] == steps;
  }

  // ----- budget -----

  /** Whenever the session exists its budget is m. */
  ghost predicate BudgetIs(d: Device, id: uint32, m: uint16) {
    SessionBy(d, id).Some? ==> Budget(SessionBy(d, id).value) == m
  }

  ghost predicate BudgetThroughout(setup: Setup, e: Engine, steps: seq<Step>, id: uint32, m: uint16)
    decreases |steps|
  {
    BudgetIs(e.dev, id, m) && (steps != [] ==> BudgetThroughout(setup, Next(setup, e, steps[0]), steps[1..], id, m))
  }

  ghost predicate WithinBudget(d: Device, id: uint32, m: uint16) {
    SessionBy(d, id).Some? ==> SessionBy(d, id).value.rangingCount <= m
  }

  lemma ProgressWithinBudget(setup: Setup, s: Session, t: Session, m: uint16)
    requires Progressed(setup, s, t) && m != 0 && Budget(t) == m && s.rangingCount <= m
    ensures t.rangingCount <= m
    ensures s.rangingCount < m && t.rangingCount == m ==> t.state == STATE_IDLE && t.streamRemaining == 0
  {
    hide Evaluate, InitSample;
  }

  /** A session that was not there is opened with its count at zero. */
  lemma NewcomerCountsZero(setup: Setup, e: Engine, req: Packet, other: Reply, id: uint32)
    requires Structured(e.dev) && |e.outbound| <= MAX_OUTBOUND && ProperTransitions(setup.profile)
    requires SessionBy(e.dev, id) == None
    ensures var s := SessionBy(Receive(setup, e, req, other).engine.dev, id); s.Some? ==> s.value.rangingCount == 0
  {
    hide Receive, MoveOf;
    var mv := MoveOf(setup, e.dev, req, other);
    MoveLegal(setup, e.dev, req, other);
    ReceiveCore(setup, e, req, other);
    NewcomerOpened(setup, e.dev, mv, id);
  }

  lemma NewcomerOpened(setup: Setup, d: Device, mv: Move, id: uint32)
    requires Structured(d) && Legal(setup.profile, d, mv) && SessionBy(d, id) == None
    ensures var i, d' := FindSession(Apply(setup, d, mv).sessions, id), Apply(setup, d, mv);
            i < |d'.sessions| ==> d'.sessions[i].rangingCount == 0
  {
    hide ApplyTlvs, StoreAll, StartVerdict, CoreFold;
    match mv
    case Stay | SetCore(_) | Reset | Open(_, _) | Drop(_) | Relink(_, _) =>
    case Send(j, sequence, length) => SentFrame(setup.profile, d.sessions[j], d.events, sequence, length);
    case Configure(j, tlvs) => ConfigureFrame(setup.profile, d.sessions[j], d.events, tlvs);
    case Transit(j, oid, next) => TransitFrame(setup, d, j, oid, next);
  }

  lemma NextWithinBudget(setup: Setup, e: Engine, step: Step, id: uint32, m: uint16)
    requires Structured(e.dev) && |e.outbound| <= MAX_OUTBOUND && ProperTransitions(setup.profile)
    requires m != 0 && WithinBudget(e.dev, id, m) && BudgetIs(Next(setup, e, step).dev, id, m)
    ensures WithinBudget(Next(setup, e, step).dev, id, m)
  {
    hide Receive, Serve, ServedSession, Progressed, MoveOf, Budget;
    var e' := Next(setup, e, step);
    if SessionBy(e.dev, id).Some? {
      var h := NextLookup(setup, e, step, id, SessionBy(e.dev, id).value);
      var turn := StepTurn(setup, e, step);
      if h.Some? && turn.Some? && turn.value.event.session == id {
        ServedProgress(setup, turn.value.dev, turn.value.event, FindSession(turn.value.dev.sessions, id));
        ProgressWithinBudget(setup, h.value, SessionBy(e'.dev, id).value, m);
      }
    } else if step.SubmitPacket? {
      var a := Receive(setup, e, step.req, step.other);
      NewcomerCountsZero(setup, e, step.req, step.other, id);
      ReceiveStructured(setup, e, step.req, step.other);
      var b := Elapsed(a.engine, 0);
      if SessionBy(a.engine.dev, id).Some? {
        ServeLookup(setup, b, id, SessionBy(a.engine.dev, id).value);
        var turn := TurnOf(b);
        if turn.Some? && turn.value.event.session == id && a.ok {
          ServedProgress(setup, turn.value.dev, turn.value.event, FindSession(b.dev.sessions, id));
          ProgressWithinBudget(setup, SessionBy(a.engine.dev, id).value, SessionBy(e'.dev, id).value, m);
        }
      } else {
        ServeGone(setup, b, id);
      }
    } else if step.Wait? {
      ServeGone(setup, Elapsed(e, step.elapsed), id);
    }
  }

  /**
   Under a fixed non-zero budget the measurement count never exceeds it, across restarts and
   re-creation of the session.
   */
  lemma {:induction false} CountNeverExceedsBudget(setup: Setup, e: Engine, steps: seq<Step>, id: uint32, m: uint16)
    requires Structured(e.dev) && |e.outbound| <= MAX_OUTBOUND && ProperTransitions(setup.profile)
    requires m != 0 && WithinBudget(e.dev, id, m) && BudgetThroughout(setup, e, steps, id, m)
    ensures WithinBudget(Run(setup, e, steps).dev, id, m)
    decreases |steps|
  {
    hide Next, WithinBudget, Structured, BudgetIs;
    if steps != [] {
      NextStructured(setup, e, steps[0]);
      NextWithinBudget(setup, e, steps[0], id, m);
      CountNeverExceedsBudget(setup, Next(setup, e, steps[0]), steps[1..], id, m);
    }
  }

  /**
   The step in which the count reaches the budget leaves the session idle with nothing remaining and
   no event queued.
   */
  lemma ReachingBudgetHalts(setup: Setup, e: Engine, step: Step, id: uint32, m: uint16)
    requires Structured(e.dev) && |e.outbound| <= MAX_OUTBOUND && ProperTransitions(setup.profile)
    requires m != 0 && BudgetIs(Next(setup, e, step).dev, id, m)
    requires SessionBy(e.dev, id).Some? && SessionBy(e.dev, id).value.rangingCount < m
    requires SessionBy(Next(setup, e, step).dev, id).Some?
             && SessionBy(Next(setup, e, step).dev, id).value.rangingCount == m
    ensures var s := SessionBy(Next(setup, e, step).dev, id).value; s.state == STATE_IDLE && s.streamRemaining == 0
    ensures NoEventsFor(Next(setup, e, step).dev.events, id)
  {
    hide Receive, Serve, ServedSession, Evaluate, InitSample;
    var e' := Next(setup, e, step);
    var h := NextLookup(setup, e, step, id, SessionBy(e.dev, id).value);
    var turn := StepTurn(setup, e, step);
    var b := BeforeServe(setup, e, step);
    assert turn.Some? && turn.value.event.session == id;
    if step.SubmitPacket? { ReceiveStructured(setup, e, step.req, step.other); }
    var i := FindSession(turn.value.dev.sessions, id);
    ServedProgress(setup, turn.value.dev, turn.value.event, i);
    ProgressWithinBudget(setup, h.value, SessionBy(e'.dev, id).value, m);
    assert e' == Serve(setup, b.value).engine;
    ReachedCancels(setup, b.value, i);
  }

  lemma EmitReachedCancels(setup: Setup, s: Session, room: nat, nextSequence: uint32)
    requires Budget(s) != 0 && s.rangingCount < Budget(s)
    requires Emit(setup, s, room, nextSequence).session.rangingCount == Budget(s)
    ensures Emit(setup, s, room, nextSequence).cancels
            && Emit(setup, s, room, nextSequence).session.streamRemaining == 0
  {
    hide InitSample, Evaluate, RangeDataNtf;
  }

  lemma ReachedCancels(setup: Setup, e: Engine, i: nat)
    requires Structured(e.dev) && i < |e.dev.sessions| && TurnOf(e).Some?
    requires var s := e.dev.sessions[i];
             && s.inUse && TurnOf(e).value.event.session == s.id && Budget(s) != 0 && s.rangingCount < Budget(s)
             && ServedSession(setup, TurnOf(e).value.dev, TurnOf(e).value.event, i).rangingCount == Budget(s)
    ensures NoEventsFor(Serve(setup, e).engine.dev.events, e.dev.sessions[i].id)
  {
    hide Process, Emit, Budget;
    var turn, s := TurnOf(e).value, e.dev.sessions[i];
    FindUnique(e.dev.sessions, i);
    ProcessCore(setup, e.(dev := turn.dev), turn.event);
    WithoutMembers(turn.dev.events, None, s.id);
    if turn.event.kind.RangeData? { EmitReachedCancels(setup, s, Room(turn.dev), turn.dev.nextSequence); }
  }
}
