/**
 Every queued event belongs to a session that is active and still has that work
 to do, and no session has two events of one kind. This is kept by every step
 except a DEINIT of a session that has events queued.
 */
module Ownership {
  import opened Types
  import opened PacketCodec
  import opened Profiles
  import opened EventQueues
  import opened PacketQueues
  import opened Sessions
  import opened Devices
  import opened Handlers
  import opened Engines
  import opened Moves

  predicate Working(s: Session, kind: EventKind) {
    && s.inUse && s.state == STATE_ACTIVE && !kind.NoEvent?
    && (kind.RangeData? ==> s.streamRemaining > 0)
    && (kind.DataTransfer? ==> s.transferring)
  }

  ghost predicate EventOwned(sessions: seq<Session>, e: Event) {
    exists i :: 0 <= i < |sessions| && sessions[i].id == e.session && Working(sessions[i], e.kind)
  }

  ghost predicate OnePerKind(q: seq<Event>) {
    forall i, j :: 0 <= i < j < |q| ==> q[i].kind != q[j].kind || q[i].session != q[j].session
  }

  ghost predicate Owned(d: Device) {
    && (forall e :: e in d.events ==> EventOwned(d.sessions, e))
    && OnePerKind(d.events)
  }

  ghost predicate OneOfEach(q: seq<Event>, id: uint32) {
    forall i, j :: 0 <= i < j < |q| && q[i].session == id && q[j].session == id ==> q[i].kind != q[j].kind
  }

  /** The same for the events of one session. */
  ghost predicate OwnedFor(d: Device, id: uint32) {
    && (forall e :: e in d.events && e.session == id ==> EventOwned(d.sessions, e))
    && OneOfEach(d.events, id)
  }

  lemma OwnedForAll(d: Device)
    ensures Owned(d) <==> forall id: uint32 :: OwnedFor(d, id)
  {
    if forall id: uint32 :: OwnedFor(d, id) {
      forall e | e in d.events ensures EventOwned(d.sessions, e) {
        assert OwnedFor(d, e.session);
      }
      forall i, j | 0 <= i < j < |d.events|
        ensures d.events[i].kind != d.events[j].kind || d.events[i].session != d.events[j].session
      {
        assert OwnedFor(d, d.events[i].session);
      }
    }
  }

  ghost predicate NoEventsFor(q: seq<Event>, session: uint32) {
    forall e :: e in q ==> e.session != session
  }

  /** The one unsafe move for a session: dropping it while it still has events queued. */
  ghost predicate SafeMoveFor(d: Device, mv: Move, id: uint32) {
    mv.Drop? && mv.slot < |d.sessions| && d.sessions[mv.slot].id == id ==> NoEventsFor(d.events, id)
  }

  ghost predicate SafeMove(d: Device, mv: Move) {
    mv.Drop? && mv.slot < |d.sessions| ==> NoEventsFor(d.events, d.sessions[mv.slot].id)
  }

  // ----- queue operations keep one event per kind -----

  lemma WithoutOneOfEach(q: seq<Event>, kind: Option<EventKind>, session: uint32, id: uint32)
    requires OneOfEach(q, id)
    ensures OneOfEach(Without(q, kind, session), id)
  {
    var r := Without(q, kind, session);
    forall a, b | 0 <= a < b < |r| && r[a].session == id && r[b].session == id ensures r[a].kind != r[b].kind {
      var i, j := WithoutOrdered(q, kind, session, a, b);
    }
  }

  lemma AppendOneOfEach(q: seq<Event>, e: Event, id: uint32)
    requires OneOfEach(q, id) && forall x :: x in q && x.session == e.session == id ==> x.kind != e.kind
    ensures OneOfEach(q + [e], id)
  {
  }

  lemma RemoveOneOfEach(q: seq<Event>, i: nat, id: uint32)
    requires OneOfEach(q, id) && i < |q|
    ensures OneOfEach(RemoveAt(q, i), id)
    ensures forall x :: x in RemoveAt(q, i) ==> x in q && (x.session == q[i].session == id ==> x.kind != q[i].kind)
  {
    var r := RemoveAt(q, i);
    assert forall k :: 0 <= k < |r| ==> r[k] == q[if k < i then k else k + 1];
  }

  // ----- changing one session -----

  /**
   Replacing one session keeps ownership when each event left is another session's, or is work the
   new session has.
   */
  lemma PutOwned(d: Device, k: nat, s: Session, q: seq<Event>, id: uint32)
    requires OwnedFor(d, id) && k < |d.sessions| && OneOfEach(q, id)
    requires forall e :: e in q && e.session == id ==>
               || (e in d.events && !(d.sessions[k].inUse && d.sessions[k].id == id))
               || (s.id == id && Working(s, e.kind))
    ensures OwnedFor(Put(d, k, s).(events := q), id)
  {
    var after := d.sessions[k := s];
    forall e | e in q && e.session == id ensures EventOwned(after, e) {
      if s.id == id && Working(s, e.kind) {
        assert after[k] == s;
      } else {
        var i :| 0 <= i < |d.sessions| && d.sessions[i].id == e.session && Working(d.sessions[i], e.kind);
        assert after[i] == d.sessions[i];
      }
    }
  }

  lemma OwnerIs(d: Device, e: Event, k: nat)
    requires Structured(d) && OwnedFor(d, e.session) && e in d.events
    requires k < |d.sessions| && d.sessions[k].inUse && d.sessions[k].id == e.session
    ensures Working(d.sessions[k], e.kind)
  {
    var i :| 0 <= i < |d.sessions| && d.sessions[i].id == e.session && Working(d.sessions[i], e.kind);
  }

  /** A session that is not active has no events queued, so a DEINIT of it is safe. */
  lemma IdleDropSafe(d: Device, k: nat)
    requires Structured(d) && k < |d.sessions| && d.sessions[k].inUse && OwnedFor(d, d.sessions[k].id)
    requires d.sessions[k].state != STATE_ACTIVE
    ensures NoEventsFor(d.events, d.sessions[k].id) && SafeMove(d, Drop(k))
  {
    forall e | e in d.events && e.session == d.sessions[k].id ensures false {
      OwnerIs(d, e, k);
    }
  }

  // ----- moves -----

  lemma {:induction false} ConfigureOwned(p: Profile, d: Device, k: nat, s: Session, q: seq<Event>, tlvs: seq<Tlv>,
                                          id: uint32)
    requires Structured(d) && OwnedFor(d, id) && k < |d.sessions| && d.sessions[k].inUse
    requires SameWork(d.sessions[k], s) && OneOfEach(q, id)
    requires forall e :: e in q && e.session == id ==>
               || (e in d.events && d.sessions[k].id != id) || (s.id == id && Working(s, e.kind))
    ensures var c := ApplyTlvs(p, s, q, tlvs); OwnedFor(Put(d, k, c.session).(events := c.events), id)
    decreases |tlvs|
  {
    var c := if tlvs == [] then Configured(s, q, None) else ApplyTlv(p, s, q, tlvs[0]);
    SetOwned(p, s, q, tlvs, id);
    if tlvs != [] && c.stop.None? {
      SetFrame(p, s, q, tlvs[0]);
      ConfigureOwned(p, d, k, c.session, c.events, tlvs[1..], id);
    } else {
      PutOwned(d, k, c.session, c.events, id);
    }
  }

  lemma SetOwned(p: Profile, s: Session, q: seq<Event>, tlvs: seq<Tlv>, id: uint32)
    requires OneOfEach(q, id) && s.inUse
    ensures tlvs != [] ==>
              var c := ApplyTlv(p, s, q, tlvs[0]);
              && OneOfEach(c.events, id) && SameWork(s, c.session)
              && forall e :: e in c.events ==> e in q || (e.session == s.id && Working(s, e.kind))
  {
    if tlvs != [] {
      SetFrame(p, s, q, tlvs[0]);
      var c := SetTlv(p, s, q, tlvs[0]);
      var ranged := Without(q, Some(EventKind.RangeData), s.id);
      WithoutMembers(q, Some(EventKind.RangeData), s.id);
      WithoutOneOfEach(q, Some(EventKind.RangeData), s.id, id);
      if c.events != q && c.events != ranged {
        AppendOneOfEach(ranged, RangeEvent(p, c.session), id);
      }
    }
  }

  lemma ConfigureMoveOwned(setup: Setup, d: Device, mv: Move, id: uint32)
    requires Structured(d) && OwnedFor(d, id) && Legal(setup.profile, d, mv) && mv.Configure?
    ensures OwnedFor(Apply(setup, d, mv), id)
  {
    var k := mv.slot;
    forall e | e in d.events && e.session == id ensures d.sessions[k].id != id || Working(d.sessions[k], e.kind) {
      if d.sessions[k].id == id { OwnerIs(d, e, k); }
    }
    ConfigureOwned(setup.profile, d, k, d.sessions[k], d.events, mv.tlvs, id);
  }

  lemma StartOwned(setup: Setup, d: Device, k: nat, id: uint32)
    requires Structured(d) && OwnedFor(d, id) && k < |d.sessions| && d.sessions[k].inUse
             && d.sessions[k].state != STATE_ACTIVE
    ensures OwnedFor(Apply(setup, d, Transit(k, SESSION_START, STATE_ACTIVE)), id)
  {
    forall e | e in d.events && e.session == id ensures d.sessions[k].id != id {
      if d.sessions[k].id == id { OwnerIs(d, e, k); }
    }
    var (s, q) := Armed(setup, Entered(d.sessions[k], SESSION_START, STATE_ACTIVE), d.events);
    if q != d.events {
      AppendOneOfEach(d.events, RangeEvent(setup.profile, s), id);
    }
    PutOwned(d, k, s, q, id);
  }

  lemma StopOwned(setup: Setup, d: Device, k: nat, next: byte, id: uint32)
    requires Structured(d) && OwnedFor(d, id) && k < |d.sessions| && d.sessions[k].inUse
    ensures OwnedFor(Apply(setup, d, Transit(k, SESSION_STOP, next)), id)
  {
    var own := d.sessions[k].id;
    WithoutMembers(d.events, None, own);
    WithoutOneOfEach(d.events, None, own, id);
    PutOwned(d, k, Stopped(Entered(d.sessions[k], SESSION_STOP, next)), Cancel(d.events, own), id);
  }

  lemma SendOwned(setup: Setup, d: Device, mv: Move, id: uint32)
    requires Structured(d) && OwnedFor(d, id) && Legal(setup.profile, d, mv) && mv.Send?
    ensures OwnedFor(Apply(setup, d, mv), id)
  {
    var k := mv.slot;
    var (s, q, ok) := Sent(setup.profile, d.sessions[k], d.events, mv.sequence, mv.length);
    forall e | e in d.events && e.session == id && d.sessions[k].id == id
      ensures e.kind.RangeData? && Working(s, e.kind)
    {
      OwnerIs(d, e, k);
    }
    if q != d.events {
      AppendOneOfEach(d.events, q[|d.events|], id);
    }
    PutOwned(d, k, s, q, id);
  }

  lemma QuietPutOwned(d: Device, k: nat, s: Session, id: uint32)
    requires Structured(d) && OwnedFor(d, id) && k < |d.sessions|
    requires d.sessions[k].inUse ==>
             s.id == d.sessions[k].id && (forall kind :: Working(d.sessions[k], kind) ==> Working(s, kind))
    ensures OwnedFor(Put(d, k, s), id)
  {
    forall e | e in d.events && e.session == id && d.sessions[k].inUse && d.sessions[k].id == id
      ensures Working(s, e.kind)
    {
      OwnerIs(d, e, k);
    }
    PutOwned(d, k, s, d.events, id);
  }

  /** Dropping a session never touches ownership of another session's events. */
  lemma DropOwnedFor(setup: Setup, d: Device, mv: Move, id: uint32)
    requires Structured(d) && OwnedFor(d, id) && Legal(setup.profile, d, mv) && mv.Drop?
    ensures OwnedFor(Apply(setup, d, mv), id) <==> SafeMoveFor(d, mv, id)
  {
    var k := mv.slot;
    if SafeMoveFor(d, mv, id) {
      PutOwned(d, k, ZERO_SESSION, d.events, id);
    } else {
      var e :| e in d.events && e.session == id;
      OwnId(d, k);
      var after := Apply(setup, d, mv);
      forall i | 0 <= i < |after.sessions|
        ensures after.sessions[i].id != e.session || !Working(after.sessions[i], e.kind)
      {
      }
      assert !EventOwned(after.sessions, e);
      assert e in after.events;
    }
  }

  /** Dropping a session keeps ownership exactly when none of its events are queued. */
  lemma DropOwnedIff(setup: Setup, d: Device, mv: Move)
    requires Structured(d) && Owned(d) && Legal(setup.profile, d, mv) && mv.Drop?
    ensures Owned(Apply(setup, d, mv)) <==> NoEventsFor(d.events, d.sessions[mv.slot].id)
  {
    OwnedForAll(d);
    OwnedForAll(Apply(setup, d, mv));
    forall id: uint32 ensures OwnedFor(Apply(setup, d, mv), id) <==> SafeMoveFor(d, mv, id) {
      DropOwnedFor(setup, d, mv, id);
    }
    assert SafeMoveFor(d, mv, d.sessions[mv.slot].id) == NoEventsFor(d.events, d.sessions[mv.slot].id);
  }

  lemma ApplyOwned(setup: Setup, d: Device, mv: Move, id: uint32)
    requires Structured(d) && OwnedFor(d, id) && Legal(setup.profile, d, mv)
    requires ProperTransitions(setup.profile) && SafeMoveFor(d, mv, id)
    ensures OwnedFor(Apply(setup, d, mv), id)
  {
    match mv
    case Stay | SetCore(_) | Reset =>
    case Open(i, other) => QuietPutOwned(d, i, Opened(setup.profile, d.sessions[i], other), id);
    case Drop(_) => DropOwnedFor(setup, d, mv, id);
    case Configure(_, _) => ConfigureMoveOwned(setup, d, mv, id);
    case Transit(i, oid, next) =>
      if oid == SESSION_START {
        StartOwned(setup, d, i, id);
      } else if oid == SESSION_STOP {
        StopOwned(setup, d, i, next, id);
      } else {
        QuietPutOwned(d, i, Entered(d.sessions[i], oid, next), id);
      }
    case Relink(i, links) => QuietPutOwned(d, i, d.sessions[i].(links := links), id);
    case Send(_, _, _) => SendOwned(setup, d, mv, id);
  }

  // ----- serving -----

  /** Whether an emission leaves the session with work for its other events, or cancels them. */
  lemma EmitKeepsWork(setup: Setup, s: Session, room: nat, nextSequence: uint32)
    requires s.inUse && s.streamRemaining > 0
    ensures var em := Emit(setup, s, room, nextSequence);
            && em.session.id == s.id && em.session.inUse
            && (!em.cancels ==> em.session.state == s.state && em.session.transferring == s.transferring)
            && (em.ok && em.session.streamRemaining > 0 && em.session.state == STATE_ACTIVE ==>
                Working(em.session, EventKind.RangeData))
  {
    EmitFrame(setup, s, room, nextSequence);
    EmitCancels(setup, s, room, nextSequence);
  }

  lemma MeasureCancels(s: Session, room: nat, nextSequence: uint32, policy: Policy, ntf: Option<Packet>)
    requires s.streamRemaining > 0
    ensures !Measure(s, room, nextSequence, policy, ntf).cancels ==>
            Measure(s, room, nextSequence, policy, ntf).session.state == s.state
  {
  }

  /** Only an emission that cancels the session's events changes its state. */
  lemma EmitCancels(setup: Setup, s: Session, room: nat, nextSequence: uint32)
    ensures !Emit(setup, s, room, nextSequence).cancels ==> Emit(setup, s, room, nextSequence).session.state == s.state
  {
    if Streaming(setup, s) && !BudgetReached(s) {
      var sample := InitSample(setup.profile, s);
      var policy := Evaluate(s, sample);
      MeasureCancels(s, room, nextSequence, policy,
                     RangeDataNtf(setup.profile.rangeData, sample, nextSequence, policy.fields));
    }
  }

  /** Serving an event that has just left the queue keeps ownership of its session's other events. */
  lemma ProcessOwned(setup: Setup, e: Engine, event: Event, k: nat)
    requires Structured(e.dev) && OwnedFor(e.dev, event.session)
    requires k < |e.dev.sessions| && e.dev.sessions[k].id == event.session && Working(e.dev.sessions[k], event.kind)
    requires forall x :: x in e.dev.events ==> x.kind != event.kind || x.session != event.session
    ensures OwnedFor(Process(setup, e, event).engine.dev, event.session)
  {
    var d, s := e.dev, e.dev.sessions[k];
    FindUnique(d.sessions, k);
    ProcessCore(setup, e, event);
    var s', q' := ServedSession(setup, d, event, k), ServedEvents(setup, d, event, k);
    ServedOwned(setup, d, event, k);
    PutOwned(d, k, s', q', event.session);
  }

  lemma ServedOwned(setup: Setup, d: Device, event: Event, k: nat)
    requires Structured(d) && OwnedFor(d, event.session)
    requires k < |d.sessions| && d.sessions[k].id == event.session && Working(d.sessions[k], event.kind)
    requires forall x :: x in d.events ==> x.kind != event.kind || x.session != event.session
    ensures OneOfEach(ServedEvents(setup, d, event, k), event.session)
    ensures var s' := ServedSession(setup, d, event, k);
            forall x :: x in ServedEvents(setup, d, event, k) && x.session == event.session ==>
              s'.id == x.session && Working(s', x.kind)
  {
    var id := event.session;
    var s, s', q' := d.sessions[k], ServedSession(setup, d, event, k), ServedEvents(setup, d, event, k);
    forall x | x in d.events && x.session == id ensures Working(s, x.kind) {
      OwnerIs(d, x, k);
    }
    if event.kind.RangeData? {
      EmitKeepsWork(setup, s, Room(d), d.nextSequence);
      WithoutMembers(d.events, None, id);
      WithoutOneOfEach(d.events, None, id, id);
      var q := if Emit(setup, s, Room(d), d.nextSequence).cancels then Cancel(d.events, id) else d.events;
      if q' != q { AppendOneOfEach(q, RangeEvent(setup.profile, s'), id); }
    } else {
      if q' != d.events { AppendOneOfEach(d.events, TransferEvent(setup.profile, s'), id); }
    }
  }

  /** Serving an event of one session leaves the events of another as they are. */
  lemma OthersServed(setup: Setup, d: Device, event: Event, k: nat, id: uint32)
    requires k < |d.sessions| && d.sessions[k].id == event.session != id
    ensures forall x: Event :: x.session == id ==> (x in ServedEvents(setup, d, event, k) <==> x in d.events)
    ensures OneOfEach(d.events, id) ==> OneOfEach(ServedEvents(setup, d, event, k), id)
  {
    hide Emit, Advance, Interval, OneOfEach;
    var s, own := d.sessions[k], event.session;
    EmitFrame(setup, s, Room(d), d.nextSequence);
    AdvanceKeepsId(s);
    WithoutMembers(d.events, None, own);
    if OneOfEach(d.events, id) {
      WithoutOneOfEach(d.events, None, own, id);
      var em := Emit(setup, s, Room(d), d.nextSequence);
      AppendOneOfEach(d.events, RangeEvent(setup.profile, em.session), id);
      AppendOneOfEach(Cancel(d.events, own), RangeEvent(setup.profile, em.session), id);
      AppendOneOfEach(d.events, TransferEvent(setup.profile, Advance(s).session), id);
    }
  }

  lemma AdvanceKeepsId(s: Session)
    ensures Advance(s).session.id == s.id
  {
  }

  /** Serving an event of one session keeps ownership of another's. */
  lemma OtherServedOwned(setup: Setup, e: Engine, event: Event, id: uint32)
    requires Structured(e.dev) && OwnedFor(e.dev, id) && event.session != id
    ensures OwnedFor(Process(setup, e, event).engine.dev, id)
  {
    hide Process, ServedEvents, ServedSession, OneOfEach, EventOwned;
    var d, k := e.dev, FindSession(e.dev.sessions, event.session);
    ProcessCore(setup, e, event);
    if k < |d.sessions| {
      var d' := Process(setup, e, event).engine.dev;
      OthersServed(setup, d, event, k, id);
      PutOwned(d, k, ServedSession(setup, d, event, k), ServedEvents(setup, d, event, k), id);
      OwnedByCore(Put(d, k, ServedSession(setup, d, event, k)).(events := ServedEvents(setup, d, event, k)), d', id);
    }
  }

  lemma OwnedByCore(a: Device, b: Device, id: uint32)
    requires OwnedFor(a, id) && a.sessions == b.sessions && a.events == b.events
    ensures OwnedFor(b, id)
  {
  }

  lemma ServeOwned(setup: Setup, e: Engine, id: uint32)
    requires Structured(e.dev) && OwnedFor(e.dev, id)
    ensures OwnedFor(Serve(setup, e).engine.dev, id)
  {
    var d := e.dev;
    var at := FirstReady(d.events);
    if at < |d.events| {
      var event := d.events[at];
      RemoveOneOfEach(d.events, at, id);
      var e' := e.(dev := d.(events := RemoveAt(d.events, at)));
      assert event in d.events;
      if event.session == id {
        var k :| 0 <= k < |d.sessions| && d.sessions[k].id == event.session && Working(d.sessions[k], event.kind);
        ProcessOwned(setup, e', event, k);
      } else {
        OtherServedOwned(setup, e', event, id);
      }
    }
  }

  lemma ElapsedOwned(e: Engine, elapsed: uint32, id: uint32)
    requires Structured(e.dev) && OwnedFor(e.dev, id)
    ensures Structured(Elapsed(e, elapsed).dev) && OwnedFor(Elapsed(e, elapsed).dev, id)
  {
    var q, q' := e.dev.events, Elapsed(e, elapsed).dev.events;
    forall x | x in q' && x.session == id ensures EventOwned(e.dev.sessions, x) {
      var i :| 0 <= i < |q'| && q'[i] == x;
      assert q[i] in q && EventOwned(e.dev.sessions, q[i]);
      var j :| 0 <= j < |e.dev.sessions| && e.dev.sessions[j].id == q[i].session
          && Working(e.dev.sessions[j], q[i].kind);
      assert e.dev.sessions[j].id == x.session && Working(e.dev.sessions[j], x.kind);
    }
  }

  // ----- steps and runs -----

  /** A step that does not deinitialise this session with events queued. */
  ghost predicate SafeStepFor(setup: Setup, e: Engine, step: Step, id: uint32) {
    step.SubmitPacket? ==> SafeMoveFor(e.dev, MoveOf(setup, e.dev, step.req, step.other), id)
  }

  ghost predicate SafeRunFor(setup: Setup, e: Engine, steps: seq<Step>, id: uint32)
    decreases |steps|
  {
    steps != [] ==> SafeStepFor(setup, e, steps[0], id) && SafeRunFor(setup, Next(setup, e, steps[0]), steps[1..], id)
  }

  /** A step that does not deinitialise a session with events queued. */
  ghost predicate SafeStep(setup: Setup, e: Engine, step: Step) {
    step.SubmitPacket? ==> SafeMove(e.dev, MoveOf(setup, e.dev, step.req, step.other))
  }

  ghost predicate SafeRun(setup: Setup, e: Engine, steps: seq<Step>)
    decreases |steps|
  {
    steps != [] ==> SafeStep(setup, e, steps[0]) && SafeRun(setup, Next(setup, e, steps[0]), steps[1..])
  }

  ghost predicate SoundFor(e: Engine, id: uint32) {
    Structured(e.dev) && |e.outbound| <= MAX_OUTBOUND && OwnedFor(e.dev, id)
  }

  ghost predicate Sound(e: Engine) {
    Structured(e.dev) && |e.outbound| <= MAX_OUTBOUND && Owned(e.dev)
  }

  lemma ReceiveSoundFor(setup: Setup, e: Engine, req: Packet, other: Reply, id: uint32)
    requires SoundFor(e, id) && ProperTransitions(setup.profile) && SafeStepFor(setup, e, SubmitPacket(req, other), id)
    ensures SoundFor(Receive(setup, e, req, other).engine, id)
  {
    hide Receive, MoveOf, Apply;
    MoveLegal(setup, e.dev, req, other);
    ApplyOwned(setup, e.dev, MoveOf(setup, e.dev, req, other), id);
    ReceiveCore(setup, e, req, other);
    ReceiveStructured(setup, e, req, other);
  }

  lemma NextSoundFor(setup: Setup, e: Engine, step: Step, id: uint32)
    requires SoundFor(e, id) && ProperTransitions(setup.profile) && SafeStepFor(setup, e, step, id)
    ensures SoundFor(Next(setup, e, step), id)
  {
    hide Receive, Serve, MoveOf;
    NextStructured(setup, e, step);
    match step
    case SubmitPacket(req, other) =>
      ReceiveSoundFor(setup, e, req, other, id);
      var a := Receive(setup, e, req, other);
      if a.ok {
        ElapsedOwned(a.engine, 0, id);
        ServeOwned(setup, Elapsed(a.engine, 0), id);
      }
    case Wait(elapsed) =>
      ElapsedOwned(e, elapsed, id);
      ServeOwned(setup, Elapsed(e, elapsed), id);
    case Take =>
  }

  /** Over every run that never deinitialises one session with events queued, that session's events are owned. */
  lemma {:induction false} RunSoundFor(setup: Setup, e: Engine, steps: seq<Step>, id: uint32)
    requires SoundFor(e, id) && ProperTransitions(setup.profile) && SafeRunFor(setup, e, steps, id)
    ensures SoundFor(Run(setup, e, steps), id)
    decreases |steps|
  {
    hide Next, SoundFor, SafeStepFor;
    if steps != [] {
      NextSoundFor(setup, e, steps[0], id);
      RunSoundFor(setup, Next(setup, e, steps[0]), steps[1..], id);
    }
  }

  lemma {:induction false} SafeForEach(setup: Setup, e: Engine, steps: seq<Step>, id: uint32)
    requires SafeRun(setup, e, steps)
    ensures SafeRunFor(setup, e, steps, id)
    decreases |steps|
  {
    hide Next, MoveOf;
    if steps != [] { SafeForEach(setup, Next(setup, e, steps[0]), steps[1..], id); }
  }

  /** Over every run without an unsafe DEINIT, every queued event has a working owner and none is doubled. */
  lemma RunSound(setup: Setup, e: Engine, steps: seq<Step>)
    requires Sound(e) && ProperTransitions(setup.profile) && SafeRun(setup, e, steps)
    ensures Sound(Run(setup, e, steps))
  {
    hide Owned, OwnedFor, SafeRun, SafeRunFor, Run, Structured;
    RunStructured(setup, e, steps);
    OwnedForAll(e.dev);
    OwnedForAll(Run(setup, e, steps).dev);
    forall id: uint32 ensures OwnedFor(Run(setup, e, steps).dev, id) {
      SafeForEach(setup, e, steps, id);
      RunSoundFor(setup, e, steps, id);
    }
  }

  lemma NextSound(setup: Setup, e: Engine, step: Step)
    requires Sound(e) && ProperTransitions(setup.profile) && SafeStep(setup, e, step)
    ensures Sound(Next(setup, e, step))
  {
    assert Run(setup, e, [step]) == Run(setup, Next(setup, e, step), []) by { assert [step][1..] == []; }
    RunSound(setup, e, [step]);
  }

  // ----- what a host can check -----

  /** The host deinitialises no session that is ACTIVE. */
  ghost predicate PoliteRun(setup: Setup, e: Engine, steps: seq<Step>)
    decreases |steps|
  {
    steps != [] ==>
      && (steps[0].SubmitPacket? ==>
           var mv := MoveOf(setup, e.dev, steps[0].req, steps[0].other);
           mv.Drop? ==> e.dev.sessions[mv.slot].state != STATE_ACTIVE)
      && PoliteRun(setup, Next(setup, e, steps[0]), steps[1..])
  }

  /** Such a host never makes an unsafe step, so ownership holds throughout. */
  lemma {:induction false} PoliteRunSound(setup: Setup, e: Engine, steps: seq<Step>)
    requires Sound(e) && ProperTransitions(setup.profile) && PoliteRun(setup, e, steps)
    ensures SafeRun(setup, e, steps) && Sound(Run(setup, e, steps))
    decreases |steps|
  {
    hide Next, MoveOf, Owned, OwnedFor, Structured;
    if steps != [] {
      if steps[0].SubmitPacket? {
        var mv := MoveOf(setup, e.dev, steps[0].req, steps[0].other);
        MoveLegal(setup, e.dev, steps[0].req, steps[0].other);
        if mv.Drop? {
          OwnedForAll(e.dev);
          IdleDropSafe(e.dev, mv.slot);
        }
      }
      NextSound(setup, e, steps[0]);
      PoliteRunSound(setup, Next(setup, e, steps[0]), steps[1..]);
    }
  }

  lemma InitialSound(setup: Setup)
    ensures Sound(Initial(setup))
  {
    InitialStructured(setup.profile);
  }
}
