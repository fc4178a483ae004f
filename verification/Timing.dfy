/**
 Scheduling over runs: no range measurement is early, a ready event is served
 after at most as many ticks as its place in the queue, and re-arming finds room.
 */
module Timing {
  import opened Types
  import opened PacketCodec
  import opened Profiles
  import opened ConfigTables
  import opened EventQueues
  import opened PacketQueues
  import opened Validation
  import opened StartGate
  import opened Sessions
  import opened Devices
  import opened Handlers
  import opened Engines
  import opened Moves
  import opened Ownership
  import opened Configuration

  // ----- no measurement is early -----

  predicate IsRange(e: Event, id: uint32) {
    e.kind.RangeData? && e.session == id
  }

  /** 1 when the step serves a range event of the session. */
  function RangeServed(setup: Setup, e: Engine, step: Step, id: uint32): nat {
    var served := ServedEvent(setup, e, step);
    if served.Some? && IsRange(served.value, id) then 1 else 0
  }

  function Measurements(setup: Setup, e: Engine, steps: seq<Step>, id: uint32): nat
    decreases |steps|
  {
    if steps == [] then 0
    else RangeServed(setup, e, steps[0], id) + Measurements(setup, Next(setup, e, steps[0]), steps[1..], id)
  }

  function Duration(step: Step): nat {
    if step.Wait? then step.elapsed else 0
  }

  function TotalTime(steps: seq<Step>): nat
    decreases |steps|
  {
    if steps == [] then 0 else Duration(steps[0]) + TotalTime(steps[1..])
  }

  predicate Runs(s: Session) {
    s.inUse && s.state == STATE_ACTIVE && s.streamRemaining > 0
  }

  /** While the session's stream runs, its ranging interval is at least some length. */
  ghost predicate IntervalAtLeast(p: Profile, d: Device, id: uint32, interval: nat) {
    forall i :: 0 <= i < |d.sessions| && Runs(d.sessions[i]) && d.sessions[i].id == id ==>
      Interval(p, d.sessions[i]) >= interval
  }

  /**
   So in every state of the run, including those between a submitted packet's handling and the tick
   that follows it.
   */
  ghost predicate IntervalThroughout(setup: Setup, e: Engine, steps: seq<Step>, id: uint32, interval: nat)
    decreases |steps|
  {
    && IntervalAtLeast(setup.profile, e.dev, id, interval)
    && (steps != [] ==>
         && (steps[0].SubmitPacket? ==>
              IntervalAtLeast(setup.profile, Receive(setup, e, steps[0].req, steps[0].other).engine.dev, id, interval))
         && IntervalThroughout(setup, Next(setup, e, steps[0]), steps[1..], id, interval))
  }

  /** After k measurements in time t: they were not early, and the next queued one will not be. */
  ghost predicate Paced(q: seq<Event>, id: uint32, interval: nat, k: nat, t: nat) {
    && k * interval <= t
    && forall e :: e in q && IsRange(e, id) ==> (k + 1) * interval <= t + e.delay
  }

  /** A range event that a move leaves was there before, or has the interval now stored of a stream that runs. */
  ghost predicate ArmedAtInterval(p: Profile, before: seq<Event>, after: seq<Event>, s: Session) {
    forall e :: e in after && IsRange(e, s.id) ==>
      e in before || (e.delay == Interval(p, s) && s.state == STATE_ACTIVE && s.streamRemaining > 0)
  }

  lemma {:induction false} ConfigureArms(p: Profile, q0: seq<Event>, s: Session, q: seq<Event>, tlvs: seq<Tlv>)
    requires ArmedAtInterval(p, q0, q, s)
    ensures var c := ApplyTlvs(p, s, q, tlvs); ArmedAtInterval(p, q0, c.events, c.session)
    ensures forall e, id :: e in ApplyTlvs(p, s, q, tlvs).events && IsRange(e, id) && id != s.id ==> e in q
    decreases |tlvs|
  {
    if tlvs != [] && Refusal(p, s.configs, tlvs[0]).None? {
      SetFrame(p, s, q, tlvs[0]);
      SetArms(p, q0, s, q, tlvs[0]);
      var c := SetTlv(p, s, q, tlvs[0]);
      if c.stop.None? { ConfigureArms(p, q0, c.session, c.events, tlvs[1..]); }
    }
  }

  lemma SetArms(p: Profile, q0: seq<Event>, s: Session, q: seq<Event>, t: Tlv)
    requires ArmedAtInterval(p, q0, q, s)
    ensures var c := SetTlv(p, s, q, t); ArmedAtInterval(p, q0, c.events, c.session)
    ensures forall e, id :: e in SetTlv(p, s, q, t).events && IsRange(e, id) && id != s.id ==> e in q
  {
    WithoutMembers(q, Some(EventKind.RangeData), s.id);
    if t.id != RANGING_INTERVAL {
      assert Interval(p, SetTlv(p, s, q, t).session) == Interval(p, s);
    }
  }

  /** Moves arm range events only at the interval then stored. */
  lemma ApplyArms(setup: Setup, d: Device, mv: Move, id: uint32, interval: nat)
    requires Structured(d) && Legal(setup.profile, d, mv) && ProperTransitions(setup.profile)
    requires IntervalAtLeast(setup.profile, Apply(setup, d, mv), id, interval)
    ensures forall e :: e in Apply(setup, d, mv).events && IsRange(e, id) ==> e in d.events || e.delay >= interval
  {
    hide ApplyTlvs, StartVerdict, StoreAll;
    var p := setup.profile;
    match mv
    case Stay | SetCore(_) | Reset | Open(_, _) | Drop(_) | Relink(_, _) =>
    case Send(i, sequence, length) =>
    case Configure(i, tlvs) =>
      ConfigureFrame(p, d.sessions[i], d.events, tlvs);
      ConfigureArms(p, d.events, d.sessions[i], d.events, tlvs);
      assert Apply(setup, d, mv).sessions[i] == ApplyTlvs(p, d.sessions[i], d.events, tlvs).session;
    case Transit(i, oid, next) =>
      WithoutMembers(d.events, None, d.sessions[i].id);
      TransitFrame(setup, d, i, oid, next);
  }

  lemma ReceivePaced(setup: Setup, e: Engine, req: Packet, other: Reply, id: uint32, interval: nat, k: nat, t: nat)
    requires Structured(e.dev) && Paced(e.dev.events, id, interval, k, t) && ProperTransitions(setup.profile)
    requires IntervalAtLeast(setup.profile, Receive(setup, e, req, other).engine.dev, id, interval)
    ensures Paced(Receive(setup, e, req, other).engine.dev.events, id, interval, k, t)
  {
    var mv := MoveOf(setup, e.dev, req, other);
    MoveLegal(setup, e.dev, req, other);
    ReceiveCore(setup, e, req, other);
    ApplyArms(setup, e.dev, mv, id, interval);
    assert (k + 1) * interval == k * interval + interval;
  }

  lemma ElapsedPaced(e: Engine, elapsed: uint32, id: uint32, interval: nat, k: nat, t: nat)
    requires Paced(e.dev.events, id, interval, k, t)
    ensures Paced(Elapsed(e, elapsed).dev.events, id, interval, k, t + elapsed)
  {
    var q, q' := e.dev.events, Elapsed(e, elapsed).dev.events;
    forall x | x in q' && IsRange(x, id) ensures (k + 1) * interval <= t + elapsed + x.delay {
      var i :| 0 <= i < |q'| && q'[i] == x;
      assert q[i] in q && x == Aged(q[i], elapsed);
    }
  }

  /** Serving counts at most one measurement, and re-arms it a full interval ahead. */
  lemma ServePaced(setup: Setup, e: Engine, id: uint32, interval: nat, k: nat, t: nat)
    requires SoundFor(e, id) && Paced(e.dev.events, id, interval, k, t)
    requires IntervalAtLeast(setup.profile, e.dev, id, interval)
    ensures var at, q := FirstReady(e.dev.events), e.dev.events;
            var k' := if at < |q| && IsRange(q[at], id) then k + 1 else k;
            Paced(Serve(setup, e).engine.dev.events, id, interval, k', t)
  {
    var d, at := e.dev, FirstReady(e.dev.events);
    if at < |d.events| {
      var event := d.events[at];
      RemoveOneOfEach(d.events, at, id);
      assert event in d.events;
      var d1 := d.(events := RemoveAt(d.events, at));
      var i := FindSession(d.sessions, event.session);
      ProcessCore(setup, e.(dev := d1), event);
      if i < |d.sessions| {
        ServedArms(setup, d1, event, i);
        if IsRange(event, id) { OwnerRuns(d, event, i); }
      }
      var k' := if IsRange(event, id) then k + 1 else k;
      assert (k + 1) * interval == k * interval + interval && (k + 2) * interval == k * interval + 2 * interval;
    }
  }

  /** The session of a queued range event runs. */
  lemma OwnerRuns(d: Device, event: Event, i: nat)
    requires Structured(d) && OwnedFor(d, event.session) && event in d.events && event.kind.RangeData?
    requires i < |d.sessions| && d.sessions[i].inUse && d.sessions[i].id == event.session
    ensures Runs(d.sessions[i])
  {
    OwnerIs(d, event, i);
  }

  lemma ServedArms(setup: Setup, d: Device, event: Event, i: nat)
    requires i < |d.sessions| && d.sessions[i].id == event.session
    ensures forall x :: x in ServedEvents(setup, d, event, i) ==>
              x in d.events || (x.kind == event.kind && x.session == event.session
                                && x.delay == Interval(setup.profile, d.sessions[i]))
  {
    hide Emit;
    WithoutMembers(d.events, None, d.sessions[i].id);
    EmitFrame(setup, d.sessions[i], Room(d), d.nextSequence);
  }

  lemma SubmitPaced(setup: Setup, e: Engine, req: Packet, other: Reply, id: uint32, interval: nat, k: nat, t: nat)
    requires SoundFor(e, id) && ProperTransitions(setup.profile) && SafeStepFor(setup, e, SubmitPacket(req, other), id)
    requires Paced(e.dev.events, id, interval, k, t)
    requires IntervalAtLeast(setup.profile, Receive(setup, e, req, other).engine.dev, id, interval)
    ensures var a := Receive(setup, e, req, other);
            var b := Elapsed(a.engine, 0).dev.events;
            var at := FirstReady(b);
            var k' := if a.ok && at < |b| && IsRange(b[at], id) then k + 1 else k;
            Paced(Submit(setup, e, req, other).engine.dev.events, id, interval, k', t)
  {
    var a := Receive(setup, e, req, other);
    ReceiveSoundFor(setup, e, req, other, id);
    if a.ok {
      var b := Elapsed(a.engine, 0);
      ElapsedOwned(a.engine, 0, id);
      ReceivePaced(setup, e, req, other, id, interval, k, t);
      ElapsedPaced(a.engine, 0, id, interval, k, t);
      ServePaced(setup, b, id, interval, k, t);
    } else {
      ReceivePaced(setup, e, req, other, id, interval, k, t);
    }
  }

  lemma NextPaced(setup: Setup, e: Engine, step: Step, id: uint32, interval: nat, k: nat, t: nat)
    requires SoundFor(e, id) && ProperTransitions(setup.profile) && SafeStepFor(setup, e, step, id)
    requires Paced(e.dev.events, id, interval, k, t)
    requires IntervalAtLeast(setup.profile, e.dev, id, interval)
    requires step.SubmitPacket? ==>
             IntervalAtLeast(setup.profile, Receive(setup, e, step.req, step.other).engine.dev, id, interval)
    ensures Paced(Next(setup, e, step).dev.events, id, interval, k + RangeServed(setup, e, step, id),
                  t + Duration(step))
  {
    hide Receive, Serve, MoveOf, OwnedFor, Paced, Interval, Structured;
    match step
    case SubmitPacket(req, other) => SubmitPaced(setup, e, req, other, id, interval, k, t);
    case Wait(elapsed) =>
      ElapsedOwned(e, elapsed, id);
      ElapsedPaced(e, elapsed, id, interval, k, t);
      ServePaced(setup, Elapsed(e, elapsed), id, interval, k, t + elapsed);
    case Take =>
  }

  lemma {:induction false} RunPaced(setup: Setup, e: Engine, steps: seq<Step>, id: uint32, interval: nat, k: nat,
                                    t: nat)
    requires SoundFor(e, id) && ProperTransitions(setup.profile) && SafeRunFor(setup, e, steps, id)
    requires Paced(e.dev.events, id, interval, k, t) && IntervalThroughout(setup, e, steps, id, interval)
    ensures (k + Measurements(setup, e, steps, id)) * interval <= t + TotalTime(steps)
    decreases |steps|
  {
    hide Next, ServedEvent, SafeStepFor, SoundFor, IntervalAtLeast;
    if steps != [] {
      var step := steps[0];
      NextSoundFor(setup, e, step, id);
      NextPaced(setup, e, step, id, interval, k, t);
      RunPaced(setup, Next(setup, e, step), steps[1..], id, interval, k + RangeServed(setup, e, step, id),
               t + Duration(step));
    }
  }

  /**
   However time is split and whatever commands come between: from a state in
   which any queued measurement of the session is a full interval away, the
   k-th measurement is served only after ticks totalling k intervals.
   */
  lemma NoEarlyMeasurement(setup: Setup, e: Engine, steps: seq<Step>, id: uint32, interval: nat)
    requires SoundFor(e, id) && ProperTransitions(setup.profile) && SafeRunFor(setup, e, steps, id)
    requires forall x :: x in e.dev.events && IsRange(x, id) ==> x.delay >= interval
    requires IntervalThroughout(setup, e, steps, id, interval)
    ensures Measurements(setup, e, steps, id) * interval <= TotalTime(steps)
  {
    hide Measurements, SoundFor, SafeRunFor, TotalTime, IntervalThroughout, ProperTransitions;
    RunPaced(setup, e, steps, id, interval, 0, 0);
  }

  /** Sound tables bound every interval from below by the profile's minimum. */
  lemma SoundTablesBoundIntervals(p: Profile, d: Device, id: uint32)
    requires TablesSound(p, d) && SoundTable(p, FreshTable(p.defaults))
    ensures IntervalAtLeast(p, d, id, p.limits.minRangingInterval)
  {
    forall i | 0 <= i < |d.sessions| && d.sessions[i].inUse && d.sessions[i].id == id
      ensures Interval(p, d.sessions[i]) >= p.limits.minRangingInterval
    {
      assert InBounds(p.limits, RANGING_INTERVAL, d.sessions[i].configs[RANGING_INTERVAL]);
    }
  }

  lemma {:induction false} MinimumThroughout(setup: Setup, e: Engine, steps: seq<Step>, id: uint32)
    requires CompleteProfile(setup.profile) && Structured(e.dev) && |e.outbound| <= MAX_OUTBOUND
             && TablesSound(setup.profile, e.dev)
    ensures IntervalThroughout(setup, e, steps, id, setup.profile.limits.minRangingInterval)
    decreases |steps|
  {
    hide Next, Receive, SoundProfile, SoundTable, FreshTable, TablesSound, Structured, IntervalAtLeast;
    SoundTablesBoundIntervals(setup.profile, e.dev, id);
    if steps != [] {
      if steps[0].SubmitPacket? {
        ReceiveTablesSound(setup, e, steps[0].req, steps[0].other);
        SoundTablesBoundIntervals(setup.profile, Receive(setup, e, steps[0].req, steps[0].other).engine.dev, id);
      }
      NextTablesSound(setup, e, steps[0]);
      NextStructured(setup, e, steps[0]);
      MinimumThroughout(setup, Next(setup, e, steps[0]), steps[1..], id);
    }
  }

  /**
   In the default profile, with nothing assumed of the configuration: k measurements of a session
   take at least 50 k ms.
   */
  lemma DefaultMeasurementRate(setup: Setup, steps: seq<Step>, id: uint32)
    requires setup.profile == DefaultProfile() && SafeRunFor(setup, Initial(setup), steps, id)
    ensures Measurements(setup, Initial(setup), steps, id) * 50 <= TotalTime(steps)
  {
    hide Measurements, SafeRunFor, TotalTime, IntervalThroughout;
    DefaultProfileSound();
    DefaultTransitionsProper();
    InitialSound(setup);
    OwnedForAll(Initial(setup).dev);
    MinimumThroughout(setup, Initial(setup), steps, id);
    NoEarlyMeasurement(setup, Initial(setup), steps, id, 50);
  }

  // ----- no starvation -----

  /** The engine after some ticks. */
  function Ticks(setup: Setup, e: Engine, waits: seq<uint32>): Engine
    decreases |waits|
  {
    if waits == [] then e else Ticks(setup, Tick(setup, e, waits[0]).engine, waits[1..])
  }

  /** Serving this event halts its session's stream and cancels the session's other events. */
  predicate BudgetStop(setup: Setup, d: Device, event: Event) {
    var i := FindSession(d.sessions, event.session);
    event.kind.RangeData? && i < |d.sessions| && Emit(setup, d.sessions[i], Room(d), d.nextSequence).cancels
  }

  /** What happens at one tick to a ready event: it is served, or dropped by its session's budget stop. */
  ghost predicate Resolved(setup: Setup, e: Engine, wait: uint32, event: Event) {
    var served := ServedEvent(setup, e, Wait(wait));
    && served.Some?
    && (served.value == event || (BudgetStop(setup, e.dev, served.value) && served.value.session == event.session))
  }

  /** Serving an earlier event moves a ready event at least one place forward, unless it is cancelled. */
  lemma ServeMovesUp(setup: Setup, e: Engine, i: nat) returns (j: nat)
    requires FirstReady(e.dev.events) < i < |e.dev.events|
    requires var event := e.dev.events[FirstReady(e.dev.events)];
             !(BudgetStop(setup, e.dev, event) && event.session == e.dev.events[i].session)
    ensures j < i && j < |Serve(setup, e).engine.dev.events| && Serve(setup, e).engine.dev.events[j] == e.dev.events[i]
  {
    hide Process, Emit, Advance, RangeEvent, TransferEvent;
    var q, at := e.dev.events, FirstReady(e.dev.events);
    var d := e.dev.(events := RemoveAt(q, at));
    assert d.events[i - 1] == q[i];
    var k := FindSession(d.sessions, q[at].session);
    ProcessCore(setup, e.(dev := d), q[at]);
    j := i - 1;
    if k < |d.sessions| && BudgetStop(setup, e.dev, q[at]) {
      j := Shifted(d.events, None, d.sessions[k].id, i - 1);
    }
  }

  /** At a tick that does not resolve a ready event, the event moves at least one place forward. */
  lemma ReadyMovesUp(setup: Setup, e: Engine, wait: uint32, i: nat) returns (j: nat)
    requires i < |e.dev.events| && e.dev.events[i].delay == 0 && !Resolved(setup, e, wait, e.dev.events[i])
    ensures j < i && j < |Tick(setup, e, wait).engine.dev.events|
            && Tick(setup, e, wait).engine.dev.events[j] == e.dev.events[i]
  {
    var b := Elapsed(e, wait);
    assert b.dev.events[i] == e.dev.events[i];
    assert FirstReady(b.dev.events) != i;
    var first := b.dev.events[FirstReady(b.dev.events)];
    assert BudgetStop(setup, b.dev, first) == BudgetStop(setup, e.dev, first);
    j := ServeMovesUp(setup, b, i);
  }

  /** A ready event at place i is resolved within i + 1 consecutive ticks. */
  lemma {:induction false} NoStarvation(setup: Setup, e: Engine, waits: seq<uint32>, i: nat) returns (n: nat)
    requires i < |e.dev.events| && e.dev.events[i].delay == 0 && |waits| > i
    ensures n <= i && Resolved(setup, Ticks(setup, e, waits[..n]), waits[n], e.dev.events[i])
    decreases |waits|
  {
    hide Tick, Resolved;
    if Resolved(setup, e, waits[0], e.dev.events[i]) {
      n := 0;
    } else {
      var j := ReadyMovesUp(setup, e, waits[0], i);
      var n' := NoStarvation(setup, Tick(setup, e, waits[0]).engine, waits[1..], j);
      n := n' + 1;
      assert waits[..n][1..] == waits[1..][..n'];
    }
  }

  /** Serving fails only when a notification finds no room: the dequeued slot is always free for the re-armed event. */
  lemma RearmNeverFails(setup: Setup, e: Engine)
    requires Structured(e.dev) && FirstReady(e.dev.events) < |e.dev.events|
    ensures var at := FirstReady(e.dev.events);
            var event, d := e.dev.events[at], e.dev.(events := RemoveAt(e.dev.events, at));
            var i := FindSession(d.sessions, event.session);
            Serve(setup, e).ok <==>
              || i == |d.sessions|
              || event.kind.NoEvent?
              || (event.kind.RangeData? && ServeRange(setup, d, i).ok)
              || (event.kind.DataTransfer? &&
                   (d.sessions[i].state != STATE_ACTIVE || !d.sessions[i].transferring || ServeTransfer(d, i).ok))
  {
    var at := FirstReady(e.dev.events);
    var d := e.dev.(events := RemoveAt(e.dev.events, at));
    var i := FindSession(d.sessions, e.dev.events[at].session);
    if i < |d.sessions| {
      WithoutMembers(d.events, None, d.sessions[i].id);
    }
  }
}
