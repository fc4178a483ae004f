/**
 The engine (src/core/uci_sim_engine.c) as a step machine: a host submits a
 packet, time passes, or the host takes an outbound packet.
 */
module Engines {
  import opened Types
  import opened PacketCodec
  import opened Profiles
  import opened EventQueues
  import opened PacketQueues
  import opened Sessions
  import opened Devices
  import opened Handlers

  datatype Engine = Engine(dev: Device, outbound: seq<Packet>)

  /** An engine after an operation and whether the operation reported success. */
  datatype Outcome = Outcome(engine: Engine, ok: bool)

  function Initial(setup: Setup): Engine {
    Engine(InitialDevice(setup.profile), [])
  }

  function FlushEngine(setup: Setup, e: Engine): Engine {
    if setup.scenario.DelayedNotifications? then e
    else
      var f := Flush(e.dev.pending, e.outbound);
      Engine(e.dev.(pending := f.pending), f.outbound)
  }

  function Room(d: Device): nat {
    if |d.pending| >= MAX_PENDING then 0 else MAX_PENDING - |d.pending|
  }

  /** What serving an event does to the device before notifications are flushed. */
  datatype Serving = Serving(dev: Device, ok: bool)

  function ServeRange(setup: Setup, d: Device, i: nat): Serving
    requires i < |d.sessions|
  {
    var em := Emit(setup, d.sessions[i], Room(d), d.nextSequence);
    var q := if em.cancels then Cancel(d.events, d.sessions[i].id) else d.events;
    Serving(Put(d, i, em.session).(events := q, pending := d.pending + em.notes, nextSequence := em.nextSequence),
            em.ok)
  }

  function ServeTransfer(d: Device, i: nat): Serving
    requires i < |d.sessions|
  {
    var a := Advance(d.sessions[i]);
    var n := Min(Room(d), |a.notes|);
    Serving(Put(d, i, a.session).(pending := d.pending + a.notes[..n]), n == |a.notes|)
  }

  /** Queues the next event of periodic work. */
  function Rearm(e: Engine, event: Event): Outcome {
    var q := Schedule(e.dev.events, event);
    if q.None? then Outcome(e, false) else Outcome(e.(dev := e.dev.(events := q.value)), true)
  }

  /** A range event of a session: emit, flush, and re-arm while the stream goes on. */
  function AfterRange(setup: Setup, e: Engine, i: nat): Outcome
    requires i < |e.dev.sessions|
  {
    var served := ServeRange(setup, e.dev, i);
    if !served.ok then Outcome(e.(dev := served.dev), false)
    else
      var e' := FlushEngine(setup, e.(dev := served.dev));
      var s := e'.dev.sessions[i];
      if s.streamRemaining > 0 && s.state == STATE_ACTIVE then Rearm(e', RangeEvent(setup.profile, s))
      else Outcome(e', true)
  }

  /** A transfer event of a session: one transmission, flush, and re-arm while the transfer goes on. */
  function AfterTransfer(setup: Setup, e: Engine, i: nat): Outcome
    requires i < |e.dev.sessions|
  {
    var s := e.dev.sessions[i];
    if s.state != STATE_ACTIVE || !s.transferring then Outcome(e, true)
    else
      var served := ServeTransfer(e.dev, i);
      if !served.ok then Outcome(e.(dev := served.dev), false)
      else
        var e' := FlushEngine(setup, e.(dev := served.dev));
        var s' := e'.dev.sessions[i];
        if s'.transferring then Rearm(e', TransferEvent(setup.profile, s')) else Outcome(e', true)
  }

  /** Serves one event that was taken off the queue: emit, flush, and re-arm while there is work left. */
  function Process(setup: Setup, e: Engine, event: Event): Outcome {
    var i := FindSession(e.dev.sessions, event.session);
    if i == |e.dev.sessions| then Outcome(e, true)
    else
      match event.kind
      case NoEvent => Outcome(e, true)
      case RangeData => AfterRange(setup, e, i)
      case DataTransfer => AfterTransfer(setup, e, i)
  }

  /** Time passes, then at most one ready event is served. */
  function Tick(setup: Setup, e: Engine, elapsed: uint32): Outcome {
    Serve(setup, Elapsed(e, elapsed))
  }

  function Elapsed(e: Engine, elapsed: uint32): Engine {
    e.(dev := e.dev.(events := Age(e.dev.events, elapsed)))
  }

  function Serve(setup: Setup, e: Engine): Outcome {
    var i := FirstReady(e.dev.events);
    if i == |e.dev.events| then Outcome(e, true)
    else Process(setup, e.(dev := e.dev.(events := RemoveAt(e.dev.events, i))), e.dev.events[i])
  }

  /** The outbound queue after one packet, or nothing when it is full. */
  function Push(outbound: seq<Packet>, packet: Option<Packet>): Option<seq<Packet>> {
    if packet.None? then Some(outbound)
    else if |outbound| >= MAX_OUTBOUND then None
    else Some(outbound + [packet.value])
  }

  /** The engine once a packet is handled and its results are queued and flushed; not ok when that ended the submit. */
  function Receive(setup: Setup, e: Engine, req: Packet, other: Reply): Outcome {
    var h := Handle(setup, e.dev, req, other);
    var e' := e.(dev := h.dev);
    if !h.ok && h.result.response.None? && h.result.notification.None? then Outcome(e', false)
    else
      var out1 := Push(e'.outbound, h.result.response);
      if out1.None? then Outcome(e', false)
      else
        var out2 := Push(out1.value, h.result.notification);
        if out2.None? then Outcome(e'.(outbound := out1.value), false)
        else Outcome(FlushEngine(setup, e'.(outbound := out2.value)), true)
  }

  function Submit(setup: Setup, e: Engine, req: Packet, other: Reply): Outcome {
    var a := Receive(setup, e, req, other);
    if !a.ok then a else Tick(setup, a.engine, 0)
  }

  // ----- runs -----

  datatype Step =
    | SubmitPacket(req: Packet, other: Reply)
    | Wait(elapsed: uint32)
    | Take

  function Next(setup: Setup, e: Engine, step: Step): Engine {
    match step
    case SubmitPacket(req, other) => Submit(setup, e, req, other).engine
    case Wait(elapsed) => Tick(setup, e, elapsed).engine
    case Take => if e.outbound == [] then e else e.(outbound := e.outbound[1..])
  }

  function Run(setup: Setup, e: Engine, steps: seq<Step>): Engine
    decreases |steps|
  {
    if steps == [] then e else Run(setup, Next(setup, e, steps[0]), steps[1..])
  }

  /** The state in which a step looks for a ready event, if it gets that far. */
  function BeforeServe(setup: Setup, e: Engine, step: Step): Option<Engine> {
    match step
    case SubmitPacket(req, other) =>
      var a := Receive(setup, e, req, other);
      if a.ok then Some(Elapsed(a.engine, 0)) else None
    case Wait(elapsed) => Some(Elapsed(e, elapsed))
    case Take => None
  }

  /** The event a step serves. */
  function ServedEvent(setup: Setup, e: Engine, step: Step): Option<Event> {
    var b := BeforeServe(setup, e, step);
    if b.None? then None
    else
      var q := b.value.dev.events;
      var i := FirstReady(q);
      if i < |q| then Some(q[i]) else None
  }
}
