/**
 Whether a data transfer in progress always has an event queued that carries it on.
 The handlers keep this; serving an event keeps it except in two cases that are
 given exactly: the budget stop of a session in the middle of a transfer, and a
 repetition whose report finds the pending queue full.
 */
module Carriage {
  import opened Types
  import opened PacketCodec
  import opened Profiles
  import opened Validation
  import opened ConfigTables
  import opened EventQueues
  import opened PacketQueues
  import opened Sessions
  import opened Devices
  import opened Handlers
  import opened Engines
  import opened Moves
  import opened Ownership
  import opened Streams
  import opened Delivery

  ghost predicate HasCarrier(q: seq<Event>, id: uint32) {
    exists e :: e in q && e.kind.DataTransfer? && e.session == id
  }

  /** A transfer of this session in progress has its event queued. */
  ghost predicate CarriedFor(d: Device, id: uint32) {
    forall i :: 0 <= i < |d.sessions| && d.sessions[i].inUse && d.sessions[i].id == id && d.sessions[i].transferring ==>
      HasCarrier(d.events, id)
  }

  /** Every transfer in progress has its event queued. */
  ghost predicate AllCarried(d: Device) {
    forall i :: 0 <= i < |d.sessions| && d.sessions[i].inUse && d.sessions[i].transferring ==>
      HasCarrier(d.events, d.sessions[i].id)
  }

  lemma CarriedForAll(d: Device)
    ensures AllCarried(d) <==> forall id: uint32 :: CarriedFor(d, id)
  {
    hide HasCarrier;
    if forall id: uint32 :: CarriedFor(d, id) {
      forall i | 0 <= i < |d.sessions| && d.sessions[i].inUse && d.sessions[i].transferring
        ensures HasCarrier(d.events, d.sessions[i].id)
      {
        assert CarriedFor(d, d.sessions[i].id);
      }
    }
  }

  // ----- when serving strands a transfer -----

  /** A due measurement is taken: its notification, if the policy asks for one, can be built and queued. */
  predicate Measures(setup: Setup, s: Session, room: nat) {
    Evaluate(s, InitSample(setup.profile, s)).emit ==>
      room > 0 && 0 < |setup.profile.rangeData.template| <= MAX_PAYLOAD
  }

  /** The count has reached the budget, or reaches it with the measurement now due. */
  predicate StopsAtBudget(setup: Setup, s: Session, room: nat) {
    && Streaming(setup, s) && Budget(s) != 0
    && (s.rangingCount >= Budget(s) || (s.rangingCount + 1 == Budget(s) && Measures(setup, s, room)))
  }

  lemma MeasureStops(s: Session, room: nat, nextSequence: uint32, policy: Policy, ntf: Option<Packet>)
    requires s.streamRemaining > 0 && !BudgetReached(s)
    ensures Measure(s, room, nextSequence, policy, ntf).cancels <==>
            Budget(s) != 0 && s.rangingCount + 1 == Budget(s) && (policy.emit ==> ntf.Some? && room > 0)
  {
  }

  /** An emission stops the session and cancels its events in exactly these cases. */
  lemma EmitCancelsIff(setup: Setup, s: Session, room: nat, nextSequence: uint32)
    ensures Emit(setup, s, room, nextSequence).cancels <==> StopsAtBudget(setup, s, room)
  {
    hide Measure, InitSample, Evaluate, Budget;
    if Streaming(setup, s) && !BudgetReached(s) {
      var sample := InitSample(setup.profile, s);
      var policy := Evaluate(s, sample);
      MeasureStops(s, room, nextSequence, policy,
                   RangeDataNtf(setup.profile.rangeData, sample, nextSequence, policy.fields));
    }
  }

  /** Serving this event, already taken off the queue, leaves a transfer in progress without an event. */
  predicate Strands(setup: Setup, turn: Turn) {
    var d, k := turn.dev, FindSession(turn.dev.sessions, turn.event.session);
    && k < |d.sessions| && d.sessions[k].transferring
    && (|| (turn.event.kind.RangeData? && StopsAtBudget(setup, d.sessions[k], Room(d)))
        || (turn.event.kind.DataTransfer? && d.sessions[k].repetitionsLeft > 0 && Room(d) == 0))
  }

  /** What serving leaves of the session's own transfer and its event. */
  lemma ServedCarrier(setup: Setup, turn: Turn, k: nat)
    requires Structured(turn.dev) && |turn.dev.events| < MAX_EVENTS && k < |turn.dev.sessions|
    requires turn.dev.sessions[k].id == turn.event.session && Working(turn.dev.sessions[k], turn.event.kind)
    requires turn.event.kind.DataTransfer? ==> !HasCarrier(turn.dev.events, turn.event.session)
    requires turn.event.kind.RangeData? && turn.dev.sessions[k].transferring ==>
             HasCarrier(turn.dev.events, turn.event.session)
    ensures var id, s' := turn.event.session, ServedSession(setup, turn.dev, turn.event, k);
            s'.transferring && !HasCarrier(ServedEvents(setup, turn.dev, turn.event, k), id) <==> Strands(setup, turn)
  {
    hide Emit, InitSample, Evaluate, StopsAtBudget, Interval;
    var d, event, s := turn.dev, turn.event, turn.dev.sessions[k];
    FindUnique(d.sessions, k);
    var q' := ServedEvents(setup, d, event, k);
    if event.kind.RangeData? {
      EmitCancelsIff(setup, s, Room(d), d.nextSequence);
      EmitFrame(setup, s, Room(d), d.nextSequence);
      WithoutMembers(d.events, None, s.id);
      if !Emit(setup, s, Room(d), d.nextSequence).cancels && s.transferring {
        var e :| e in d.events && e.kind.DataTransfer? && e.session == s.id;
        assert e in q';
      }
    } else if q' != d.events {
      assert q'[|d.events|] in q';
    }
  }

  /** Serving keeps one session's transfer carried if and only if the event served does not strand it. */
  lemma ServeCarriedFor(setup: Setup, e: Engine, id: uint32)
    requires Structured(e.dev) && OwnedFor(e.dev, id) && CarriedFor(e.dev, id)
    ensures CarriedFor(Serve(setup, e).engine.dev, id) <==>
            !(TurnOf(e).Some? && TurnOf(e).value.event.session == id && Strands(setup, TurnOf(e).value))
  {
    hide Process, ServedSession, ServedEvents, Strands, HasCarrier;
    var d, turn := e.dev, TurnOf(e);
    if turn.Some? {
      var event, at := turn.value.event, FirstReady(d.events);
      var k := FindSession(d.sessions, event.session);
      ProcessCore(setup, e.(dev := turn.value.dev), event);
      if event.session == id {
        OwnEventServed(setup, e, id);
      } else if k < |d.sessions| {
        OthersServed(setup, turn.value.dev, event, k, id);
        RemovedCarrier(d.events, at, id);
        SameCarriers(turn.value.dev.events, ServedEvents(setup, turn.value.dev, event, k), id);
        ServedId(setup, turn.value.dev, event, k);
      } else {
        RemovedCarrier(d.events, at, id);
      }
    }
  }

  lemma ServedId(setup: Setup, d: Device, event: Event, k: nat)
    requires k < |d.sessions|
    ensures ServedSession(setup, d, event, k).id == d.sessions[k].id
            && ServedSession(setup, d, event, k).inUse == d.sessions[k].inUse
  {
    hide Emit;
    EmitFrame(setup, d.sessions[k], Room(d), d.nextSequence);
  }

  lemma SameCarriers(a: seq<Event>, b: seq<Event>, id: uint32)
    requires forall x: Event :: x.session == id ==> (x in a <==> x in b)
    ensures HasCarrier(a, id) <==> HasCarrier(b, id)
  {
  }

  /** Taking another event off the queue leaves the session's carrier. */
  lemma RemovedCarrier(q: seq<Event>, i: nat, id: uint32)
    requires i < |q| && (q[i].session != id || !q[i].kind.DataTransfer?)
    ensures HasCarrier(RemoveAt(q, i), id) <==> HasCarrier(q, id)
  {
    var r := RemoveAt(q, i);
    assert forall k :: 0 <= k < |r| ==> r[k] == q[if k < i then k else k + 1];
    if HasCarrier(q, id) {
      var j :| 0 <= j < |q| && q[j].kind.DataTransfer? && q[j].session == id;
      assert r[if j < i then j else j - 1] == q[j];
    }
  }

  lemma OwnEventServed(setup: Setup, e: Engine, id: uint32)
    requires Structured(e.dev) && OwnedFor(e.dev, id) && CarriedFor(e.dev, id)
    requires TurnOf(e).Some? && TurnOf(e).value.event.session == id
    ensures CarriedFor(Serve(setup, e).engine.dev, id) <==> !Strands(setup, TurnOf(e).value)
  {
    hide Process, ServedSession, ServedEvents, Strands;
    var d, turn := e.dev, TurnOf(e).value;
    var event, at := turn.event, FirstReady(d.events);
    assert event in d.events && EventOwned(d.sessions, event);
    var k :| 0 <= k < |d.sessions| && d.sessions[k].id == id && Working(d.sessions[k], event.kind);
    FindUnique(d.sessions, k);
    OwnId(d, k);
    ProcessCore(setup, e.(dev := turn.dev), event);
    RemoveOneOfEach(d.events, at, id);
    if event.kind.RangeData? { RemovedCarrier(d.events, at, id); }
    ServedCarrier(setup, turn, k);
    ServedId(setup, turn.dev, event, k);
    assert Serve(setup, e).engine.dev.sessions[k].inUse;
  }

  /** Serving keeps every transfer carried if and only if the event served strands none. */
  lemma ServeCarriedIff(setup: Setup, e: Engine)
    requires Structured(e.dev) && Owned(e.dev) && AllCarried(e.dev)
    ensures AllCarried(Serve(setup, e).engine.dev) <==> !(TurnOf(e).Some? && Strands(setup, TurnOf(e).value))
  {
    hide Serve, Strands, Owned, OwnedFor, AllCarried, CarriedFor, TurnOf;
    var d' := Serve(setup, e).engine.dev;
    CarriedForAll(e.dev);
    CarriedForAll(d');
    OwnedForAll(e.dev);
    forall id: uint32
      ensures CarriedFor(d', id) <==> !(TurnOf(e).Some? && TurnOf(e).value.event.session == id
                                        && Strands(setup, TurnOf(e).value))
    {
      ServeCarriedFor(setup, e, id);
    }
    if TurnOf(e).Some? && Strands(setup, TurnOf(e).value) {
      assert !CarriedFor(d', TurnOf(e).value.event.session);
    }
  }

  // ----- moves keep transfers carried -----

  lemma WithoutCarriers(q: seq<Event>, kind: Option<EventKind>, session: uint32, id: uint32)
    requires session != id || kind == Some(EventKind.RangeData)
    ensures HasCarrier(Without(q, kind, session), id) <==> HasCarrier(q, id)
  {
    WithoutMembers(q, kind, session);
  }

  lemma AppendCarriers(q: seq<Event>, e: Event, id: uint32)
    ensures HasCarrier(q, id) ==> HasCarrier(q + [e], id)
    ensures e.kind.DataTransfer? && e.session == id ==> HasCarrier(q + [e], id)
  {
    assert e in q + [e];
    assert forall x :: x in q ==> x in q + [e];
  }

  lemma {:induction false} ConfigureCarriers(p: Profile, s: Session, q: seq<Event>, tlvs: seq<Tlv>, id: uint32)
    ensures HasCarrier(q, id) ==> HasCarrier(ApplyTlvs(p, s, q, tlvs).events, id)
    decreases |tlvs|
  {
    hide HasCarrier, Interval, Refusal;
    if tlvs != [] {
      var c := ApplyTlv(p, s, q, tlvs[0]);
      var ranged := Without(q, Some(EventKind.RangeData), s.id);
      WithoutCarriers(q, Some(EventKind.RangeData), s.id, id);
      AppendCarriers(ranged, RangeEvent(p, c.session), id);
      if c.stop.None? { ConfigureCarriers(p, c.session, c.events, tlvs[1..], id); }
    }
  }

  /** Another session may change as it likes, and this one too unless a transfer begins. */
  lemma PutCarried(d: Device, k: nat, s: Session, q: seq<Event>, id: uint32)
    requires CarriedFor(d, id) && k < |d.sessions|
    requires HasCarrier(d.events, id) && !(s.inUse && s.id == id && !s.transferring) ==> HasCarrier(q, id)
    requires s.inUse && s.id == id && s.transferring ==>
               HasCarrier(q, id) || (d.sessions[k].inUse && d.sessions[k].id == id && d.sessions[k].transferring)
    requires s.inUse && s.id == id ==>
             forall j :: 0 <= j < |d.sessions| && j != k && d.sessions[j].inUse ==> d.sessions[j].id != id
    ensures CarriedFor(Put(d, k, s).(events := q), id)
  {
  }

  lemma TransitCarried(setup: Setup, d: Device, mv: Move, id: uint32)
    requires Structured(d) && CarriedFor(d, id) && Legal(setup.profile, d, mv) && mv.Transit?
    ensures CarriedFor(Apply(setup, d, mv), id)
  {
    hide HasCarrier, CarriedFor, StartVerdict, Interval;
    var k, own := mv.slot, d.sessions[mv.slot].id;
    var d' := Apply(setup, d, mv);
    OwnId(d, k);
    if mv.oid == SESSION_START {
      var (s, q) := Armed(setup, Entered(d.sessions[k], mv.oid, mv.next), d.events);
      AppendCarriers(d.events, RangeEvent(setup.profile, s), id);
    } else if mv.oid == SESSION_STOP && own != id {
      WithoutCarriers(d.events, None, own, id);
    }
    PutCarried(d, k, d'.sessions[k], d'.events, id);
  }

  /** No handler strands a transfer. */
  lemma ApplyCarried(setup: Setup, d: Device, mv: Move, id: uint32)
    requires Structured(d) && CarriedFor(d, id) && Legal(setup.profile, d, mv)
    ensures CarriedFor(Apply(setup, d, mv), id)
  {
    hide HasCarrier, CarriedFor, StartVerdict, StoreAll, ApplyTlvs, LinkMove;
    match mv
    case Stay | SetCore(_) => SameCarried(d, Apply(setup, d, mv), id);
    case Reset => NothingCarried(InitialDevice(setup.profile), id);
    case Open(i, _) => PutCarried(d, i, Opened(setup.profile, d.sessions[i], mv.id), d.events, id);
    case Drop(i) => PutCarried(d, i, ZERO_SESSION, d.events, id);
    case Configure(i, tlvs) =>
      OwnId(d, i);
      ConfigureFrame(setup.profile, d.sessions[i], d.events, tlvs);
      ConfigureCarriers(setup.profile, d.sessions[i], d.events, tlvs, id);
      var c := ApplyTlvs(setup.profile, d.sessions[i], d.events, tlvs);
      PutCarried(d, i, c.session, c.events, id);
    case Transit(_, _, _) => TransitCarried(setup, d, mv, id);
    case Relink(i, links) =>
      OwnId(d, i);
      PutCarried(d, i, d.sessions[i].(links := links), d.events, id);
    case Send(i, sequence, length) =>
      OwnId(d, i);
      var (s, q, sent) := Sent(setup.profile, d.sessions[i], d.events, sequence, length);
      SentFrame(setup.profile, d.sessions[i], d.events, sequence, length);
      AppendCarriers(d.events, TransferEvent(setup.profile, s), id);
      PutCarried(d, i, s, q, id);
  }

  lemma SameCarried(a: Device, b: Device, id: uint32)
    requires CarriedFor(a, id) && a.sessions == b.sessions && a.events == b.events
    ensures CarriedFor(b, id)
  {
  }

  lemma NothingCarried(d: Device, id: uint32)
    requires forall i :: 0 <= i < |d.sessions| ==> !d.sessions[i].inUse
    ensures CarriedFor(d, id)
  {
  }

  // ----- steps and runs -----

  /** The step serves an event of the session that strands its transfer. */
  predicate StepStrands(setup: Setup, e: Engine, step: Step, id: uint32) {
    var turn := StepTurn(setup, e, step);
    turn.Some? && turn.value.event.session == id && Strands(setup, turn.value)
  }

  lemma ReceiveCarried(setup: Setup, e: Engine, req: Packet, other: Reply, id: uint32)
    requires Structured(e.dev) && CarriedFor(e.dev, id)
    ensures CarriedFor(Receive(setup, e, req, other).engine.dev, id)
  {
    hide Receive, MoveOf, Apply, CarriedFor;
    var mv := MoveOf(setup, e.dev, req, other);
    MoveLegal(setup, e.dev, req, other);
    ApplyCarried(setup, e.dev, mv, id);
    ReceiveCore(setup, e, req, other);
    SameCarried(Apply(setup, e.dev, mv), Receive(setup, e, req, other).engine.dev, id);
  }

  lemma ElapsedCarried(e: Engine, elapsed: uint32, id: uint32)
    ensures CarriedFor(Elapsed(e, elapsed).dev, id) <==> CarriedFor(e.dev, id)
  {
    var q, q' := e.dev.events, Elapsed(e, elapsed).dev.events;
    if HasCarrier(q, id) {
      var i :| 0 <= i < |q| && q[i].kind.DataTransfer? && q[i].session == id;
      assert q'[i] in q';
    }
    if HasCarrier(q', id) {
      var i :| 0 <= i < |q'| && q'[i].kind.DataTransfer? && q'[i].session == id;
      assert q[i] in q;
    }
  }

  /** A step keeps the session's transfer carried if and only if it does not strand it. */
  lemma NextCarriedIff(setup: Setup, e: Engine, step: Step, id: uint32)
    requires SoundFor(e, id) && ProperTransitions(setup.profile) && SafeStepFor(setup, e, step, id)
             && CarriedFor(e.dev, id)
    ensures CarriedFor(Next(setup, e, step).dev, id) <==> !StepStrands(setup, e, step, id)
  {
    hide Receive, Serve, MoveOf, OwnedFor, CarriedFor, Strands;
    match step
    case SubmitPacket(req, other) =>
      var a := Receive(setup, e, req, other);
      ReceiveSoundFor(setup, e, req, other, id);
      ReceiveCarried(setup, e, req, other, id);
      if a.ok {
        ElapsedOwned(a.engine, 0, id);
        ElapsedCarried(a.engine, 0, id);
        ServeCarriedFor(setup, Elapsed(a.engine, 0), id);
      }
    case Wait(elapsed) =>
      ElapsedOwned(e, elapsed, id);
      ElapsedCarried(e, elapsed, id);
      ServeCarriedFor(setup, Elapsed(e, elapsed), id);
    case Take => SameCarried(e.dev, Next(setup, e, step).dev, id);
  }

  ghost predicate CarriedThroughout(setup: Setup, e: Engine, steps: seq<Step>, id: uint32)
    decreases |steps|
  {
    CarriedFor(e.dev, id) && (steps != [] ==> CarriedThroughout(setup, Next(setup, e, steps[0]), steps[1..], id))
  }

  predicate NeverStranded(setup: Setup, e: Engine, steps: seq<Step>, id: uint32)
    decreases |steps|
  {
    steps != [] ==>
      !StepStrands(setup, e, steps[0], id) && NeverStranded(setup, Next(setup, e, steps[0]), steps[1..], id)
  }

  /** Over a whole run the session's transfer always has its event if and only if no step strands it. */
  lemma {:induction false} RunCarriedIff(setup: Setup, e: Engine, steps: seq<Step>, id: uint32)
    requires SoundFor(e, id) && ProperTransitions(setup.profile) && SafeRunFor(setup, e, steps, id)
             && CarriedFor(e.dev, id)
    ensures CarriedThroughout(setup, e, steps, id) <==> NeverStranded(setup, e, steps, id)
    decreases |steps|
  {
    hide Next, SoundFor, SafeStepFor, StepStrands, CarriedFor;
    if steps != [] {
      NextCarriedIff(setup, e, steps[0], id);
      NextSoundFor(setup, e, steps[0], id);
      if !StepStrands(setup, e, steps[0], id) {
        RunCarriedIff(setup, Next(setup, e, steps[0]), steps[1..], id);
      } else {
        assert !CarriedFor(Next(setup, e, steps[0]).dev, id);
      }
    }
  }

  /** From the initial engine: no transfer is ever without its event if and only if none is stranded. */
  lemma ReachableCarriedIff(setup: Setup, steps: seq<Step>, id: uint32)
    requires ProperTransitions(setup.profile) && SafeRunFor(setup, Initial(setup), steps, id)
    ensures CarriedThroughout(setup, Initial(setup), steps, id) <==> NeverStranded(setup, Initial(setup), steps, id)
  {
    hide CarriedThroughout, NeverStranded, SafeRunFor, Owned, OwnedFor;
    InitialSound(setup);
    OwnedForAll(Initial(setup).dev);
    NothingCarried(Initial(setup).dev, id);
    RunCarriedIff(setup, Initial(setup), steps, id);
  }

  // ----- a host that drains after every step -----

  /** The scenario does not defer, and range notifications can be built. */
  predicate Prompt(setup: Setup) {
    !setup.scenario.DelayedNotifications? && 0 < |setup.profile.rangeData.template| <= MAX_PAYLOAD
  }

  /**
   In count and budget: the session streams in the middle of a transfer, and its next measurement
   uses up its budget.
   */
  predicate LastMeasurementDue(setup: Setup, s: Session) {
    s.transferring && Streaming(setup, s) && Budget(s) != 0 && s.rangingCount + 1 >= Budget(s)
  }

  /** The step serves that measurement. */
  predicate TakesLastMeasurement(setup: Setup, e: Engine, step: Step, id: uint32) {
    var turn := StepTurn(setup, e, step);
    && turn.Some? && turn.value.event.kind.RangeData? && turn.value.event.session == id
    && SessionBy(turn.value.dev, id).Some? && LastMeasurementDue(setup, SessionBy(turn.value.dev, id).value)
  }

  /** With every queue drained and a usable template, only the last measurement of a budget strands a transfer. */
  lemma DrainedStrandsIff(setup: Setup, e: Engine, step: Step, id: uint32)
    requires Prompt(setup) && Drained(e)
    ensures StepStrands(setup, e, step, id) <==> TakesLastMeasurement(setup, e, step, id)
  {
    hide Receive, InitSample, Evaluate, Budget;
    if step.SubmitPacket? { ReceiveInOrder(setup, e, step.req, step.other); }
    var turn := StepTurn(setup, e, step);
    if turn.Some? { assert turn.value.dev.pending == []; }
  }

  /** When such a host only lets time pass, the session is the one it can query now. */
  lemma DrainedWaitStrandsIff(setup: Setup, e: Engine, elapsed: uint32, id: uint32)
    requires Prompt(setup) && Drained(e)
    ensures var served := ServedEvent(setup, e, Wait(elapsed));
            StepStrands(setup, e, Wait(elapsed), id) <==>
              && served.Some? && served.value.kind.RangeData? && served.value.session == id
              && SessionBy(e.dev, id).Some? && LastMeasurementDue(setup, SessionBy(e.dev, id).value)
  {
    hide LastMeasurementDue, StepStrands;
    DrainedStrandsIff(setup, e, Wait(elapsed), id);
  }

  /** The host never deinitialises this session with events queued. */
  ghost predicate HostSafe(setup: Setup, e: Engine, steps: seq<Step>, id: uint32)
    decreases |steps|
  {
    steps != [] ==> SafeStepFor(setup, e, steps[0], id) && HostSafe(setup, HostNext(setup, e, steps[0]), steps[1..], id)
  }

  ghost predicate HostCarried(setup: Setup, e: Engine, steps: seq<Step>, id: uint32)
    decreases |steps|
  {
    CarriedFor(e.dev, id) && (steps != [] ==> HostCarried(setup, HostNext(setup, e, steps[0]), steps[1..], id))
  }

  predicate NoLastMeasurement(setup: Setup, e: Engine, steps: seq<Step>, id: uint32)
    decreases |steps|
  {
    steps != [] ==>
      !TakesLastMeasurement(setup, e, steps[0], id)
          && NoLastMeasurement(setup, HostNext(setup, e, steps[0]), steps[1..], id)
  }

  /**
   For a host that takes everything after each step, the session's transfer always has
   its event if and only if no step takes the last measurement of its budget during it.
   */
  lemma {:induction false} HostCarriedIff(setup: Setup, e: Engine, steps: seq<Step>, id: uint32)
    requires Prompt(setup) && ProperTransitions(setup.profile) && Drained(e)
    requires SoundFor(e, id) && HostSafe(setup, e, steps, id) && CarriedFor(e.dev, id)
    ensures HostCarried(setup, e, steps, id) <==> NoLastMeasurement(setup, e, steps, id)
    decreases |steps|
  {
    hide Next, OwnedFor, Structured, SafeStepFor, StepStrands, TakesLastMeasurement, CarriedFor, StepProduced;
    if steps != [] {
      DrainedStrandsIff(setup, e, steps[0], id);
      NextCarriedIff(setup, e, steps[0], id);
      NextSoundFor(setup, e, steps[0], id);
      StepInOrder(setup, e, steps[0]);
      if !TakesLastMeasurement(setup, e, steps[0], id) {
        HostCarriedIff(setup, HostNext(setup, e, steps[0]), steps[1..], id);
      } else {
        assert !CarriedFor(HostNext(setup, e, steps[0]).dev, id);
      }
    }
  }
}
