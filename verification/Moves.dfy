/**
 What a step does to sessions and events, and the structural invariant of every
 reachable device: eight slots, distinct session ids, free slots all zero,
 bounded queues, well-formed links and short parameter values.
 */
module Moves {
  import opened Types
  import opened PacketCodec
  import opened Profiles
  import opened ConfigTables
  import opened LogicalLinks
  import opened EventQueues
  import opened PacketQueues
  import opened Validation
  import opened Sessions
  import opened Devices
  import opened Handlers
  import opened Engines

  /** The move a request leads to. */
  function MoveOf(setup: Setup, d: Device, req: Packet, other: Reply): (mv: Move)
    ensures SlotOf(d, mv)
  {
    if req.mt != MT_DATA && req.mt != MT_COMMAND then Stay else Decide(setup.profile, d, req, other).move
  }

  /** The links a create or close request can leave. */
  ghost predicate LinkMove(before: seq<Link>, after: seq<Link>) {
    || (exists id: byte :: after == Close(before, id))
    || (exists requested: byte, mode: byte, credit: byte ::
          && |before| < MAX_LINKS && (requested != ANY_ID ==> !Exists(before, requested))
          && AssignedId(before, requested) <= 0xFF
          && after == before + [Link(true, AssignedId(before, requested), mode, credit)])
  }

  /** The circumstances under which the handlers choose each move. */
  ghost predicate Legal(p: Profile, d: Device, mv: Move) {
    && SlotOf(d, mv)
    && match mv
       case Stay | Reset | SetCore(_) => true
       case Open(i, id) => !d.sessions[i].inUse && FindSession(d.sessions, id) == |d.sessions|
       case Drop(i) => d.sessions[i].inUse
       case Configure(i, _) => d.sessions[i].inUse
       case Transit(i, oid, next) =>
         var t := TransitionFor(p.transitions, oid);
         && d.sessions[i].inUse && t.Some? && t.value.nextState == next
         && Bit(t.value.allowedStates, d.sessions[i].state)
         && (oid == SESSION_START ==> StartVerdict(p, d.sessions[i].configs).Accept?)
       case Relink(i, links) => d.sessions[i].inUse && LinkMove(d.sessions[i].links, links)
       case Send(i, _, _) => d.sessions[i].inUse && d.sessions[i].state == STATE_ACTIVE && !d.sessions[i].transferring
  }

  lemma LinksLegal(s: Session, i: nat, req: Packet)
    requires |req.payload| >= 4
    ensures var mv := DecideLinkCreate(s, i, req).move;
            mv == Stay || (mv.Relink? && mv.slot == i && LinkMove(s.links, mv.links))
    ensures var mv := DecideLinkClose(s, i, req).move;
            mv == Stay || (mv.Relink? && mv.slot == i && LinkMove(s.links, mv.links))
  {
  }

  lemma TransitionLegal(p: Profile, d: Device, i: nat, req: Packet)
    requires |req.payload| >= 4 && i < |d.sessions| && d.sessions[i].inUse
    ensures Legal(p, d, DecideTransition(p, d.sessions[i], i, req).move)
  {
  }

  lemma QueryStays(s: Session, req: Packet)
    ensures DecideLinkQuery(s, req).move == Stay
  {
  }

  lemma ControlLegal(p: Profile, d: Device, req: Packet)
    ensures Legal(p, d, DecideSessionControl(p, d, req).move)
  {
    hide DecideLinkCreate, DecideLinkClose, DecideLinkQuery, DecideTransition, LinkMove, StartVerdict, Bit,
        TransitionFor, U32;
    if |req.payload| >= 4 {
      var i := FindSession(d.sessions, SessionId(req));
      if i < |d.sessions| {
        LinksLegal(d.sessions[i], i, req);
        TransitionLegal(p, d, i, req);
        QueryStays(d.sessions[i], req);
      }
    }
  }

  lemma SetAppLegal(p: Profile, d: Device, req: Packet)
    ensures Legal(p, d, DecideSetApp(p, d, req).move)
  {
  }

  lemma LifecycleLegal(p: Profile, d: Device, req: Packet)
    ensures Legal(p, d, DecideInit(p, d, req).move)
    ensures Legal(p, d, DecideDeinit(p, d, req).move)
  {
  }

  lemma QueriesStay(p: Profile, d: Device, req: Packet)
    ensures DecideGetApp(p, d, req).move == DecideGetState(d, req).move == DecideDataSize(d, req).move == Stay
  {
  }

  lemma ConfigLegal(p: Profile, d: Device, req: Packet, other: Reply)
    ensures Legal(p, d, DecideSessionConfig(p, d, req, other).move)
  {
    if req.oid == SESSION_INIT || req.oid == SESSION_DEINIT {
      LifecycleLegal(p, d, req);
    } else if req.oid == SESSION_SET_APP_CONFIG {
      SetAppLegal(p, d, req);
    } else {
      QueriesStay(p, d, req);
    }
  }

  lemma CoreLegal(p: Profile, d: Device, req: Packet, other: Reply)
    ensures Legal(p, d, DecideCore(p, d, req, other).move)
  {
  }

  lemma DataLegal(p: Profile, d: Device, req: Packet)
    ensures Legal(p, d, DecideData(p, d, req).move)
  {
  }

  lemma MoveLegal(setup: Setup, d: Device, req: Packet, other: Reply)
    ensures Legal(setup.profile, d, MoveOf(setup, d, req, other))
  {
    var p := setup.profile;
    if req.mt == MT_DATA {
      DataLegal(p, d, req);
    } else if req.gid == GID_CORE {
      CoreLegal(p, d, req, other);
    } else if req.gid == GID_SESSION_CONFIG {
      ConfigLegal(p, d, req, other);
    } else if req.gid == GID_SESSION_CONTROL {
      ControlLegal(p, d, req);
    }
  }

  /** Handing out notifications and flushing touch neither sessions nor events. */
  ghost predicate SameCore(a: Device, b: Device) {
    a.sessions == b.sessions && a.events == b.events && a.configs == b.configs && a.state == b.state
  }

  lemma ReceiveCore(setup: Setup, e: Engine, req: Packet, other: Reply)
    ensures SameCore(Receive(setup, e, req, other).engine.dev, Apply(setup, e.dev, MoveOf(setup, e.dev, req, other)))
  {
  }

  /** The events left after serving: what was queued, minus a cancelled session's, plus the re-armed event. */
  function ServedEvents(setup: Setup, d: Device, event: Event, i: nat): seq<Event>
    requires i < |d.sessions|
  {
    var s, p := d.sessions[i], setup.profile;
    match event.kind
    case NoEvent => d.events
    case RangeData =>
      var em := Emit(setup, s, Room(d), d.nextSequence);
      var q := if em.cancels then Cancel(d.events, s.id) else d.events;
      var again := em.ok && em.session.streamRemaining > 0 && em.session.state == STATE_ACTIVE && |q| < MAX_EVENTS;
      if again then q + [RangeEvent(p, em.session)] else q
    case DataTransfer =>
      var a := Advance(s);
      var again := s.state == STATE_ACTIVE && s.transferring && |a.notes| <= Room(d) && a.session.transferring
          && |d.events| < MAX_EVENTS;
      if again then d.events + [TransferEvent(p, a.session)] else d.events
  }

  function ServedSession(setup: Setup, d: Device, event: Event, i: nat): Session
    requires i < |d.sessions|
  {
    var s := d.sessions[i];
    match event.kind
    case NoEvent => s
    case RangeData => Emit(setup, s, Room(d), d.nextSequence).session
    case DataTransfer => if s.state == STATE_ACTIVE && s.transferring then Advance(s).session else s
  }

  lemma ServeRangeCore(setup: Setup, e: Engine, event: Event)
    requires event.kind.RangeData?
    ensures var d, d', i := e.dev, Process(setup, e, event).engine.dev, FindSession(e.dev.sessions, event.session);
            if i == |d.sessions| then d' == d
            else
              && d'.sessions == d.sessions[i := ServedSession(setup, d, event, i)]
              && d'.events == ServedEvents(setup, d, event, i)
              && d'.configs == d.configs && d'.state == d.state
  {
  }

  lemma ServeTransferCore(setup: Setup, e: Engine, event: Event)
    requires event.kind.DataTransfer?
    ensures var d, d', i := e.dev, Process(setup, e, event).engine.dev, FindSession(e.dev.sessions, event.session);
            if i == |d.sessions| then d' == d
            else
              && d'.sessions == d.sessions[i := ServedSession(setup, d, event, i)]
              && d'.events == ServedEvents(setup, d, event, i)
              && d'.configs == d.configs && d'.state == d.state
  {
  }

  lemma ProcessCore(setup: Setup, e: Engine, event: Event)
    ensures var d, d', i := e.dev, Process(setup, e, event).engine.dev, FindSession(e.dev.sessions, event.session);
            if i == |d.sessions| then d' == d
            else
              && d'.sessions == d.sessions[i := ServedSession(setup, d, event, i)]
              && d'.events == ServedEvents(setup, d, event, i)
              && d'.configs == d.configs && d'.state == d.state
  {
    if event.kind.RangeData? {
      ServeRangeCore(setup, e, event);
    } else if event.kind.DataTransfer? {
      ServeTransferCore(setup, e, event);
    }
  }

  // ----- structure -----

  predicate ShortTable(m: Table) {
    forall id :: id in m ==> |m[id]| <= MAX_CONFIG_VALUE
  }

  ghost predicate GoodSession(s: Session) {
    WellFormed(s.links) && ShortTable(s.configs) && (!s.inUse ==> s == ZERO_SESSION)
  }

  ghost predicate UniqueIds(sessions: seq<Session>) {
    forall i, j :: 0 <= i < j < |sessions| && sessions[i].inUse && sessions[j].inUse ==>
      sessions[i].id != sessions[j].id
  }

  ghost predicate Structured(d: Device) {
    && |d.sessions| == MAX_SESSIONS && |d.events| <= MAX_EVENTS && |d.pending| <= MAX_PENDING
    && UniqueIds(d.sessions)
    && forall i :: 0 <= i < |d.sessions| ==> GoodSession(d.sessions[i])
  }

  /** With distinct ids, the session in a slot is the one its id finds. */
  lemma FindUnique(sessions: seq<Session>, i: nat)
    requires UniqueIds(sessions) && i < |sessions| && sessions[i].inUse
    ensures FindSession(sessions, sessions[i].id) == i
  {
  }

  /** Replacing a session by one with the same id changes no lookup. */
  lemma FindAfterPut(sessions: seq<Session>, i: nat, s: Session, id: uint32)
    requires i < |sessions| && s.inUse == sessions[i].inUse && s.id == sessions[i].id
    ensures FindSession(sessions[i := s], id) == FindSession(sessions, id)
  {
    var after := sessions[i := s];
    var a, b := FindSession(sessions, id), FindSession(after, id);
    assert forall j :: 0 <= j < |after| ==> after[j].inUse == sessions[j].inUse && after[j].id == sessions[j].id;
    assert a < |sessions| ==> after[a].inUse && after[a].id == id;
    assert b < |sessions| ==> sessions[b].inUse && sessions[b].id == id;
  }

  lemma {:induction false} DefaultsStayShort(m: Table, capacity: nat, tlvs: seq<Tlv>)
    requires ShortTable(m)
    ensures ShortTable(StoreAll(m, capacity, tlvs))
    decreases |tlvs|
  {
    if tlvs != [] {
      DefaultsStayShort(StoreOrKeep(m, capacity, tlvs[0]), capacity, tlvs[1..]);
    }
  }

  /** Two sessions that differ at most in configuration and remembered proximity. */
  predicate SameWork(s: Session, t: Session) {
    t == s.(configs := t.configs, hasProximity := t.hasProximity, inProximity := t.inProximity)
  }

  /**
   A stored parameter changes one entry and the proximity state, and only a running stream's interval
   its range event.
   */
  lemma SetFrame(p: Profile, s: Session, q: seq<Event>, t: Tlv)
    ensures var c := SetTlv(p, s, q, t);
            && SameWork(s, c.session)
            && (|q| <= MAX_EVENTS ==> |c.events| <= MAX_EVENTS)
            && c.session.configs == s.configs[t.id := t.value]
            && (c.events != q ==> t.id == RANGING_INTERVAL && s.state == STATE_ACTIVE && s.streamRemaining > 0)
            && (forall e: Event :: !(e.kind.RangeData? && e.session == s.id) ==> (e in c.events <==> e in q))
            && (forall e :: e in c.events && e.kind.RangeData? && e.session == s.id ==>
                e in q || e == RangeEvent(p, c.session))
  {
    WithoutMembers(q, Some(EventKind.RangeData), s.id);
  }

  lemma RefusalFrame(p: Profile, m: Table, t: Tlv)
    ensures Refusal(p, m, t).None? ==> |t.value| <= MAX_CONFIG_VALUE
  {
  }

  /**
   Setting parameters keeps the session's identity and progress, and lengthens the queue by no more
   than its limit.
   */
  lemma {:induction false} ConfigureFrame(p: Profile, s: Session, q: seq<Event>, tlvs: seq<Tlv>)
    ensures var c := ApplyTlvs(p, s, q, tlvs);
            && SameWork(s, c.session)
            && (|q| <= MAX_EVENTS ==> |c.events| <= MAX_EVENTS)
            && (ShortTable(s.configs) ==> ShortTable(c.session.configs))
    decreases |tlvs|
  {
    hide Refusal, SetTlv;
    if tlvs != [] {
      SetFrame(p, s, q, tlvs[0]);
      RefusalFrame(p, s.configs, tlvs[0]);
      var c := ApplyTlv(p, s, q, tlvs[0]);
      if c.stop.None? { ConfigureFrame(p, c.session, c.events, tlvs[1..]); }
    }
  }

  lemma LinkMoveKeeps(before: seq<Link>, after: seq<Link>)
    requires WellFormed(before) && LinkMove(before, after)
    ensures WellFormed(after)
  {
    if id: byte :| after == Close(before, id) {
      CloseWellFormed(before, id);
    } else {
      var requested: byte, mode: byte, credit: byte :|
        && |before| < MAX_LINKS && (requested != ANY_ID ==> !Exists(before, requested))
        && AssignedId(before, requested) <= 0xFF
        && after == before + [Link(true, AssignedId(before, requested), mode, credit)];
      AppendKeeps(before, requested, mode, credit);
    }
  }

  lemma PutStructured(d: Device, i: nat, s: Session, q: seq<Event>)
    requires Structured(d) && i < |d.sessions| && GoodSession(s) && |q| <= MAX_EVENTS
    requires s.inUse ==> forall j :: 0 <= j < |d.sessions| && j != i && d.sessions[j].inUse ==> d.sessions[j].id != s.id
    ensures Structured(Put(d, i, s).(events := q))
  {
  }

  lemma OwnId(d: Device, i: nat)
    requires Structured(d) && i < |d.sessions| && d.sessions[i].inUse
    ensures forall j :: 0 <= j < |d.sessions| && j != i && d.sessions[j].inUse ==> d.sessions[j].id != d.sessions[i].id
  {
  }

  lemma InitialStructured(p: Profile)
    ensures Structured(InitialDevice(p))
  {
  }

  lemma ArmedFrame(setup: Setup, s: Session, q: seq<Event>)
    requires |q| <= MAX_EVENTS
    ensures var (s', q') := Armed(setup, s, q); |q'| <= MAX_EVENTS && s' == s.(streamRemaining := s'.streamRemaining)
  {
  }

  /** Entering a state changes only progress fields and the queue. */
  lemma TransitFrame(setup: Setup, d: Device, i: nat, oid: byte, next: byte)
    requires i < |d.sessions| && |d.events| <= MAX_EVENTS
    ensures var d', s := Apply(setup, d, Transit(i, oid, next)), d.sessions[i];
            && |d'.events| <= MAX_EVENTS && d' == Put(d, i, d'.sessions[i]).(events := d'.events)
            && d'.sessions[i].state == next && SameSetting(s, d'.sessions[i])
  {
    if oid == SESSION_START {
      ArmedFrame(setup, Entered(d.sessions[i], oid, next), d.events);
    } else {
      WithoutMembers(d.events, None, d.sessions[i].id);
    }
  }

  /** Two sessions with the same identity, parameters and links. */
  predicate SameSetting(s: Session, t: Session) {
    t.inUse == s.inUse && t.id == s.id && t.configs == s.configs && t.links == s.links
  }

  lemma TransitStructured(setup: Setup, d: Device, mv: Move)
    requires Structured(d) && Legal(setup.profile, d, mv) && mv.Transit?
    ensures Structured(Apply(setup, d, mv))
  {
    OwnId(d, mv.slot);
    TransitFrame(setup, d, mv.slot, mv.oid, mv.next);
    var d' := Apply(setup, d, mv);
    PutStructured(d, mv.slot, d'.sessions[mv.slot], d'.events);
  }

  lemma SentFrame(p: Profile, s: Session, q: seq<Event>, sequence: uint16, length: uint16)
    ensures var (s', q', ok) := Sent(p, s, q, sequence, length);
            && SameSetting(s, s') && s'.state == s.state && (|q| <= MAX_EVENTS ==> |q'| <= MAX_EVENTS)
  {
  }

  lemma SendStructured(setup: Setup, d: Device, mv: Move)
    requires Structured(d) && Legal(setup.profile, d, mv) && mv.Send?
    ensures Structured(Apply(setup, d, mv))
  {
    OwnId(d, mv.slot);
    SentFrame(setup.profile, d.sessions[mv.slot], d.events, mv.sequence, mv.length);
    var (s', q', ok) := Sent(setup.profile, d.sessions[mv.slot], d.events, mv.sequence, mv.length);
    PutStructured(d, mv.slot, s', q');
  }

  lemma OpenStructured(setup: Setup, d: Device, mv: Move)
    requires Structured(d) && Legal(setup.profile, d, mv) && mv.Open?
    ensures Structured(Apply(setup, d, mv))
  {
    DefaultsStayShort(d.sessions[mv.slot].configs, MAX_SESSION_CONFIGS, setup.profile.defaults);
    PutStructured(d, mv.slot, Opened(setup.profile, d.sessions[mv.slot], mv.id), d.events);
  }

  lemma ConfigureStructured(setup: Setup, d: Device, mv: Move)
    requires Structured(d) && Legal(setup.profile, d, mv) && mv.Configure?
    ensures Structured(Apply(setup, d, mv))
  {
    OwnId(d, mv.slot);
    ConfigureFrame(setup.profile, d.sessions[mv.slot], d.events, mv.tlvs);
    var c := ApplyTlvs(setup.profile, d.sessions[mv.slot], d.events, mv.tlvs);
    PutStructured(d, mv.slot, c.session, c.events);
  }

  lemma ApplyStructured(setup: Setup, d: Device, mv: Move)
    requires Structured(d) && Legal(setup.profile, d, mv)
    ensures Structured(Apply(setup, d, mv))
  {
    match mv
    case Stay | SetCore(_) =>
    case Reset => InitialStructured(setup.profile);
    case Open(_, _) => OpenStructured(setup, d, mv);
    case Drop(i) => PutStructured(d, i, ZERO_SESSION, d.events);
    case Configure(_, _) => ConfigureStructured(setup, d, mv);
    case Transit(_, _, _) => TransitStructured(setup, d, mv);
    case Relink(i, links) =>
      OwnId(d, i);
      LinkMoveKeeps(d.sessions[i].links, links);
      PutStructured(d, i, d.sessions[i].(links := links), d.events);
    case Send(_, _, _) => SendStructured(setup, d, mv);
  }

  lemma MeasureFrame(s: Session, room: nat, nextSequence: uint32, policy: Policy, ntf: Option<Packet>)
    requires s.streamRemaining > 0
    ensures var em := Measure(s, room, nextSequence, policy, ntf);
            && em.session == s.(state := em.session.state, streamRemaining := em.session.streamRemaining,
                                rangingCount := em.session.rangingCount, hasProximity := em.session.hasProximity,
                                inProximity := em.session.inProximity)
            && |em.notes| <= room
  {
  }

  lemma EmitFrame(setup: Setup, s: Session, room: nat, nextSequence: uint32)
    ensures var em := Emit(setup, s, room, nextSequence);
            && em.session == s.(state := em.session.state, streamRemaining := em.session.streamRemaining,
                                rangingCount := em.session.rangingCount, hasProximity := em.session.hasProximity,
                                inProximity := em.session.inProximity)
            && |em.notes| <= room
  {
    if Streaming(setup, s) && !BudgetReached(s) {
      var sample := InitSample(setup.profile, s);
      var policy := Evaluate(s, sample);
      MeasureFrame(s, room, nextSequence, policy,
                   RangeDataNtf(setup.profile.rangeData, sample, nextSequence, policy.fields));
    }
  }

  lemma {:induction false} HandAllBounded(defers: bool, m: Mail, notes: seq<Note>)
    requires |m.pending| <= MAX_PENDING
    ensures |HandAll(defers, m, notes).pending| <= MAX_PENDING
    decreases |notes|
  {
    if notes != [] { HandAllBounded(defers, Hand(defers, m, notes[0]), notes[1..]); }
  }

  lemma {:induction false} FlushShrinks(pending: seq<Packet>, outbound: seq<Packet>)
    ensures |Flush(pending, outbound).pending| <= |pending|
    ensures |outbound| <= MAX_OUTBOUND ==> |Flush(pending, outbound).outbound| <= MAX_OUTBOUND
    decreases |pending|
  {
    if pending != [] && |outbound| < MAX_OUTBOUND { FlushShrinks(pending[1..], outbound + [pending[0]]); }
  }

  lemma ReceiveStructured(setup: Setup, e: Engine, req: Packet, other: Reply)
    requires Structured(e.dev) && |e.outbound| <= MAX_OUTBOUND
    ensures Structured(Receive(setup, e, req, other).engine.dev)
            && |Receive(setup, e, req, other).engine.outbound| <= MAX_OUTBOUND
  {
    MoveLegal(setup, e.dev, req, other);
    var mv := MoveOf(setup, e.dev, req, other);
    ApplyStructured(setup, e.dev, mv);
    ReceiveCore(setup, e, req, other);
    ReceivePending(setup, e, req, other);
  }

  lemma ReceivePending(setup: Setup, e: Engine, req: Packet, other: Reply)
    requires Structured(e.dev) && |e.outbound| <= MAX_OUTBOUND
    requires Structured(Apply(setup, e.dev, MoveOf(setup, e.dev, req, other)))
    ensures |Receive(setup, e, req, other).engine.dev.pending| <= MAX_PENDING
    ensures |Receive(setup, e, req, other).engine.outbound| <= MAX_OUTBOUND
  {
    var h := Handle(setup, e.dev, req, other);
    assert |h.dev.pending| <= MAX_PENDING by {
      if req.mt == MT_DATA || req.mt == MT_COMMAND {
        var k := Decide(setup.profile, e.dev, req, other);
        HandAllBounded(setup.scenario.DelayedNotifications?,
                       Mail(None, Apply(setup, e.dev, k.move).pending, true), k.notes + ErrorNotes(k));
      }
    }
    var out1 := Push(e.outbound, h.result.response);
    if out1.Some? {
      var out2 := Push(out1.value, h.result.notification);
      if out2.Some? { FlushShrinks(h.dev.pending, out2.value); }
    }
  }

  lemma ServeStructured(setup: Setup, e: Engine)
    requires Structured(e.dev) && |e.outbound| <= MAX_OUTBOUND
    ensures Structured(Serve(setup, e).engine.dev) && |Serve(setup, e).engine.outbound| <= MAX_OUTBOUND
  {
    var at := FirstReady(e.dev.events);
    if at < |e.dev.events| {
      ProcessStructured(setup, e.(dev := e.dev.(events := RemoveAt(e.dev.events, at))), e.dev.events[at]);
    }
  }

  lemma ProcessPending(setup: Setup, e: Engine, event: Event)
    requires Structured(e.dev) && |e.outbound| <= MAX_OUTBOUND
    ensures |Process(setup, e, event).engine.dev.pending| <= MAX_PENDING
    ensures |Process(setup, e, event).engine.outbound| <= MAX_OUTBOUND
  {
    var d, i := e.dev, FindSession(e.dev.sessions, event.session);
    if i < |d.sessions| {
      EmitFrame(setup, d.sessions[i], Room(d), d.nextSequence);
      FlushShrinks(ServeRange(setup, d, i).dev.pending, e.outbound);
      FlushShrinks(ServeTransfer(d, i).dev.pending, e.outbound);
    }
  }

  lemma ProcessStructured(setup: Setup, e: Engine, event: Event)
    requires Structured(e.dev) && |e.outbound| <= MAX_OUTBOUND
    ensures Structured(Process(setup, e, event).engine.dev)
    ensures |Process(setup, e, event).engine.outbound| <= MAX_OUTBOUND
  {
    hide Process, Emit, Interval, WellFormed, ShortTable;
    var d, i := e.dev, FindSession(e.dev.sessions, event.session);
    ProcessCore(setup, e, event);
    ProcessPending(setup, e, event);
    if i < |d.sessions| {
      OwnId(d, i);
      EmitFrame(setup, d.sessions[i], Room(d), d.nextSequence);
      WithoutMembers(d.events, None, d.sessions[i].id);
      PutStructured(d, i, ServedSession(setup, d, event, i), ServedEvents(setup, d, event, i));
    }
  }

  lemma NextStructured(setup: Setup, e: Engine, step: Step)
    requires Structured(e.dev) && |e.outbound| <= MAX_OUTBOUND
    ensures Structured(Next(setup, e, step).dev) && |Next(setup, e, step).outbound| <= MAX_OUTBOUND
  {
    match step
    case SubmitPacket(req, other) =>
      ReceiveStructured(setup, e, req, other);
      var a := Receive(setup, e, req, other);
      if a.ok { ServeStructured(setup, Elapsed(a.engine, 0)); }
    case Wait(elapsed) => ServeStructured(setup, Elapsed(e, elapsed));
    case Take =>
  }

  /** Every reachable engine is structured. */
  lemma {:induction false} RunStructured(setup: Setup, e: Engine, steps: seq<Step>)
    requires Structured(e.dev) && |e.outbound| <= MAX_OUTBOUND
    ensures Structured(Run(setup, e, steps).dev) && |Run(setup, e, steps).outbound| <= MAX_OUTBOUND
    decreases |steps|
  {
    if steps != [] {
      NextStructured(setup, e, steps[0]);
      RunStructured(setup, Next(setup, e, steps[0]), steps[1..]);
    }
  }
}
