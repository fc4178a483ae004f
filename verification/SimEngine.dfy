/** The engine of the simulator (src/core/uci_sim_engine.c) over its device and its outbound array. */
module SimEngines {
  import opened Types
  import opened PacketCodec
  import opened Profiles
  import opened EventQueues
  import opened PacketQueues
  import opened Sessions
  import opened Devices
  import opened Handlers
  import opened Engines
  import opened SimSessions
  import opened SimDevices
  import opened SimHandlers

  class SimEngine {
    const device: SimDevice
    const outbound: PacketQueue

    ghost function Footprint(): set<object> {
      device.Footprint() + {outbound, outbound.slots}
    }

    ghost predicate Valid()
      reads Footprint()
    {
      && outbound != device.pending && outbound.slots != device.pending.slots
      && device.Valid()
      && outbound.Valid() && outbound.slots.Length == MAX_OUTBOUND
    }

    ghost function View(): Engine
      reads Footprint()
      requires Valid()
    {
      Engine(device.View(), outbound.View())
    }

    constructor (device: SimDevice, outbound: PacketQueue)
      requires device.Valid() && outbound != device.pending && outbound.slots != device.pending.slots
      requires outbound.Valid() && outbound.slots.Length == MAX_OUTBOUND
      ensures this.device == device && this.outbound == outbound
      ensures Valid() && View() == Engine(device.View(), outbound.View())
    {
      this.device, this.outbound := device, outbound;
    }

    /** Clears everything and applies the profile's defaults. */
    method Init()
      requires Valid()
      modifies Footprint()
      ensures Valid() && View() == Initial(device.setup)
    {
      hide SimDevice.Valid, SimDevice.View, SimDevice.Footprint, InitialDevice;
      OutboundApart();
      outbound.Clear();
      device.Undisturbed();
      device.ResetRuntimeState();
    }

    method QueueOutbound(packet: Packet) returns (ok: bool)
      requires Valid()
      modifies outbound, outbound.slots
      ensures Valid()
      ensures var q := Push(old(View()).outbound, Some(packet));
              ok == q.Some? && View() == if ok then old(View()).(outbound := q.value) else old(View())
    {
      hide SimDevice.Valid, SimDevice.View;
      ok := outbound.Add(packet);
      device.Undisturbed();
    }

    /** The outbound array is not part of the device. */
    lemma OutboundApart()
      requires Valid()
      ensures outbound !in device.Footprint() && outbound.slots !in device.Footprint()
    {
    }

    /** Drains the pending notifications; a packet that finds no room is lost and ends the drain. */
    method FlushDeviceNotifications()
      requires Valid()
      modifies Footprint()
      ensures Valid() && View() == FlushEngine(device.setup, old(View()))
    {
      hide SimDevice.Valid, SimDevice.View, SimDevice.Footprint;
      if device.setup.scenario.DelayedNotifications? { return; }
      ghost var before := View();
      ghost var f := Flush(before.dev.pending, before.outbound);
      device.Within(0);
      var more := true;
      while more
        invariant Valid()
        invariant View().dev == before.dev.(pending := View().dev.pending)
        invariant if more then Flush(View().dev.pending, View().outbound) == f
                  else f == Flushed(View().dev.pending, View().outbound)
        decreases more, |View().dev.pending|
      {
        var next := device.DequeueNotification();
        if next.None? {
          more := false;
        } else {
          var queued := QueueOutbound(next.value);
          more := queued;
        }
      }
    }

    method DequeueOutbound() returns (r: Option<Packet>)
      requires Valid()
      modifies outbound, outbound.slots
      ensures Valid()
      ensures var q := old(View()).outbound;
              if q == [] then r == None && View() == old(View())
              else r == Some(q[0]) && View() == old(View()).(outbound := q[1..])
    {
      hide SimDevice.Valid, SimDevice.View;
      r := outbound.Take();
      device.Undisturbed();
    }

    /** Queues the next event of periodic work. */
    method RearmEvent(event: Event) returns (ok: bool)
      requires Valid()
      modifies Footprint()
      ensures Valid() && Outcome(View(), ok) == Rearm(old(View()), event)
    {
      hide SimDevice.Valid, SimDevice.View, SimDevice.Footprint;
      assert |View().dev.sessions| == |device.sessions|;
      device.Within(0);
      ok := device.ScheduleEvent(event);
    }

    /** A range event: emit, flush, and re-arm while the stream goes on. */
    method ProcessRange(i: nat) returns (ok: bool)
      requires Valid() && i < |device.sessions|
      modifies Footprint()
      ensures Valid() && Outcome(View(), ok) == AfterRange(device.setup, old(View()), i)
    {
      hide SimDevice.Valid, SimDevice.View, SimDevice.Footprint, SimSession.View, SimSession.Valid, ServeRange,
          FlushEngine, Rearm, Interval;
      device.Within(0);
      OutboundApart();
      ok := device.EmitRangingStream(i);
      if !ok { return; }
      FlushDeviceNotifications();
      device.RecordIs(i);
      var s := device.sessions[i].record;
      if s.streamRemaining > 0 && s.state == STATE_ACTIVE {
        var interval := device.ReadInterval(i);
        ok := RearmEvent(Event(RangeData, s.id, interval));
      }
    }

    /** A transfer event: one transmission, flush, and re-arm while the transfer goes on. */
    method ProcessTransfer(i: nat) returns (ok: bool)
      requires Valid() && i < |device.sessions| && View().dev.sessions[i].inUse
      modifies Footprint()
      ensures Valid() && Outcome(View(), ok) == AfterTransfer(device.setup, old(View()), i)
    {
      hide SimDevice.Valid, SimDevice.View, SimDevice.Footprint, SimSession.View, SimSession.Valid, ServeTransfer,
          FlushEngine, Rearm, Interval;
      device.Within(0);
      OutboundApart();
      device.RecordIs(i);
      var s := device.sessions[i].record;
      if s.state != STATE_ACTIVE || !s.transferring { return true; }
      ok := device.ProgressDataTransfer(i);
      if !ok { return; }
      FlushDeviceNotifications();
      device.RecordIs(i);
      s := device.sessions[i].record;
      if s.transferring {
        var interval := device.ReadInterval(i);
        ok := RearmEvent(Event(DataTransfer, s.id, interval));
      }
    }

    method ProcessReadyEvent(event: Event) returns (ok: bool)
      requires Valid()
      modifies Footprint()
      ensures Valid() && Outcome(View(), ok) == Process(device.setup, old(View()), event)
    {
      hide SimDevice.Valid, SimDevice.View, SimDevice.Footprint, AfterRange, AfterTransfer;
      var i := device.FindSlot(event.session);
      if i >= |device.sessions| { return true; }
      match event.kind {
        case NoEvent => return true;
        case RangeData => ok := ProcessRange(i);
        case DataTransfer => ok := ProcessTransfer(i);
      }
    }

    /** Ages the events, then serves at most one that is ready. */
    method Tick(elapsed: uint32) returns (ok: bool)
      requires Valid()
      modifies Footprint()
      ensures Valid() && Outcome(View(), ok) == Engines.Tick(device.setup, old(View()), elapsed)
    {
      hide SimDevice.Valid, SimDevice.View, SimDevice.Footprint, Process, Age;
      assert |View().dev.sessions| == |device.sessions|;
      device.Within(0);
      device.TickEvents(elapsed);
      var ready := device.DequeueReadyEvent();
      ok := true;
      if ready.Some? {
        ok := ProcessReadyEvent(ready.value);
      }
    }

    /** Handles a packet and queues its results, then flushes. */
    method ReceivePacket(req: Packet, other: Reply) returns (ok: bool)
      requires Valid()
      modifies Footprint()
      ensures Valid() && Outcome(View(), ok) == Receive(device.setup, old(View()), req, other)
    {
      hide SimDevice.Valid, SimDevice.View, SimDevice.Footprint, Handle, FlushEngine;
      OutboundApart();
      var result, handled := HandlePacket(device, req, other);
      if !handled && result.response.None? && result.notification.None? { return false; }
      if result.response.Some? {
        ok := QueueOutbound(result.response.value);
        if !ok { return; }
      }
      if result.notification.Some? {
        ok := QueueOutbound(result.notification.value);
        if !ok { return; }
      }
      FlushDeviceNotifications();
      return true;
    }

    method SubmitPacket(req: Packet, other: Reply) returns (ok: bool)
      requires Valid()
      modifies Footprint()
      ensures Valid() && Outcome(View(), ok) == Submit(device.setup, old(View()), req, other)
    {
      hide Receive, Engines.Tick, SimDevice.Valid, SimDevice.View;
      ok := ReceivePacket(req, other);
      if !ok { return; }
      ok := Tick(0);
    }

    /** One step of a host, whichever it is, is the step of the model; so every run is a run of the model. */
    method Perform(step: Step)
      requires Valid()
      modifies Footprint()
      ensures Valid() && View() == Next(device.setup, old(View()), step)
    {
      hide SimDevice.Valid, SimDevice.View, SimDevice.Footprint, Submit, Engines.Tick;
      match step {
        case SubmitPacket(req, other) => var ok := SubmitPacket(req, other);
        case Wait(elapsed) => var ok := Tick(elapsed);
        case Take => var taken := DequeueOutbound();
      }
    }
  }
}
