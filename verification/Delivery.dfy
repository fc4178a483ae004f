/**
 Delivery to a host that takes every packet after each step: nothing stays
 pending and packets arrive in the order they were produced.
 */
module Delivery {
  import opened Types
  import opened PacketCodec
  import opened Profiles
  import opened ConfigTables
  import opened EventQueues
  import opened PacketQueues
  import opened Sessions
  import opened Devices
  import opened Handlers
  import opened Engines
  import opened Streams

  function Packets(notes: seq<Note>): (r: seq<Packet>)
    ensures |r| == |notes| && forall i :: 0 <= i < |r| ==> r[i] == notes[i].packet
  {
    seq(|notes|, i requires 0 <= i < |notes| => notes[i].packet)
  }

  function ListOf(packet: Option<Packet>): seq<Packet> {
    if packet.Some? then [packet.value] else []
  }

  /** The notifications a request hands out, in order. */
  function NotesOf(setup: Setup, d: Device, req: Packet, other: Reply): seq<Note> {
    if req.mt != MT_DATA && req.mt != MT_COMMAND then []
    else var k := Decide(setup.profile, d, req, other); k.notes + ErrorNotes(k)
  }

  lemma {:induction false} DeliverAppends(m: Mail, notes: seq<Note>)
    requires m.direct.Some? && |m.pending| + |notes| <= MAX_PENDING
             && forall i :: 0 <= i < |notes| ==> notes[i].Deliver?
    ensures HandAll(false, m, notes) == m.(pending := m.pending + Packets(notes))
    decreases |notes|
  {
    if notes == [] {
      assert m.pending + Packets(notes) == m.pending;
    } else {
      DeliverAppends(Hand(false, m, notes[0]), notes[1..]);
      assert m.pending + [notes[0].packet] + Packets(notes[1..]) == m.pending + Packets(notes);
    }
  }

  lemma {:induction false} PostAppends(m: Mail, notes: seq<Note>)
    requires |m.pending| + |notes| <= MAX_PENDING && forall i :: 0 <= i < |notes| ==> notes[i].Post?
    ensures HandAll(false, m, notes) == m.(pending := m.pending + Packets(notes))
    decreases |notes|
  {
    if notes == [] {
      assert m.pending + Packets(notes) == m.pending;
    } else {
      PostAppends(Hand(false, m, notes[0]), notes[1..]);
      assert m.pending + [notes[0].packet] + Packets(notes[1..]) == m.pending + Packets(notes);
    }
  }

  lemma DeliveredFirst(notes: seq<Note>)
    requires notes != [] && |notes| <= MAX_PENDING && forall i :: 0 <= i < |notes| ==> notes[i].Deliver?
    ensures HandAll(false, Mail(None, [], true), notes) == Mail(Some(notes[0].packet), Packets(notes)[1..], true)
  {
    DeliverAppends(Mail(Some(notes[0].packet), [], true), notes[1..]);
    assert [] + Packets(notes[1..]) == Packets(notes)[1..];
  }

  /** From empty queues the result slot and the pending queue together hold the notifications in order. */
  lemma MailInOrder(setup: Setup, notes: seq<Note>, before: nat)
    requires !setup.scenario.DelayedNotifications? && Uniform(notes) && |notes| <= MAX_PENDING
    ensures var m := Finalize(setup, HandAll(false, Mail(None, [], true), notes), before);
            m.ok && ListOf(m.direct) + m.pending == Packets(notes) && (m.direct.None? ==> m.pending == [])
    ensures HandAll(false, Mail(None, [], true), notes).ok
  {
    hide HandAll, Packets;
    var start, all := Mail(None, [], true), Packets(notes);
    if notes == [] {
      PostAppends(start, notes);
    } else {
      PacketsSplit(notes);
      if notes[0].Deliver? {
        DeliveredFirst(notes);
      } else if notes[0].Post? {
        PostAppends(start, notes);
        assert [] + all == all;
      } else {
        SingleDirect(notes);
      }
    }
  }

  lemma PacketsSplit(notes: seq<Note>)
    requires notes != []
    ensures var all := Packets(notes); |all| == |notes| && all[0] == notes[0].packet && [all[0]] + all[1..] == all
  {
  }

  lemma SingleDirect(notes: seq<Note>)
    requires |notes| == 1 && notes[0].Direct?
    ensures HandAll(false, Mail(None, [], true), notes) == Mail(Some(notes[0].packet), [], true)
  {
  }

  lemma NotesUniform(setup: Setup, d: Device, req: Packet, other: Reply)
    ensures Uniform(NotesOf(setup, d, req, other)) && |NotesOf(setup, d, req, other)| <= 2
  {
    hide DecideCore, DecideSessionConfig, DecideSessionControl, DecideData;
    var p := setup.profile;
    CoreNotes(p, d, req, other);
    ConfigNotes(p, d, req, other);
    ControlNotes(p, d, req);
    DataNotes(p, d, req);
  }

  /** A reset empties the pending queue; no other move touches it. */
  lemma ApplyPending(setup: Setup, d: Device, mv: Move)
    requires SlotOf(d, mv) && d.pending == []
    ensures Apply(setup, d, mv).pending == []
  {
    hide ApplyTlvs, StoreAll, CoreFold, Sent, Armed;
  }

  predicate Drained(e: Engine) {
    e.dev.pending == [] && e.outbound == []
  }

  /** What a submitted packet produces before any event is served. */
  function Produced(setup: Setup, d: Device, req: Packet, other: Reply): seq<Packet> {
    ListOf(Handle(setup, d, req, other).result.response) + Packets(NotesOf(setup, d, req, other))
  }

  lemma HandleInOrder(setup: Setup, d: Device, req: Packet, other: Reply)
    requires !setup.scenario.DelayedNotifications? && d.pending == []
    ensures var h, all := Handle(setup, d, req, other), Packets(NotesOf(setup, d, req, other));
            && ListOf(h.result.notification) + h.dev.pending == all
            && (h.result.notification.None? ==> h.dev.pending == [])
            && |all| <= 2
  {
    hide Decide, Apply, HandAll, Finalize;
    NotesUniform(setup, d, req, other);
    MailInOrder(setup, NotesOf(setup, d, req, other), |d.pending|);
    if req.mt == MT_DATA || req.mt == MT_COMMAND {
      ApplyPending(setup, d, Decide(setup.profile, d, req, other).move);
    }
  }

  lemma PushBoth(response: Option<Packet>, notification: Option<Packet>)
    ensures Push([], response) == Some(ListOf(response))
    ensures Push(ListOf(response), notification) == Some(ListOf(response) + ListOf(notification))
  {
    assert [] + ListOf(response) == ListOf(response) && ListOf(response) + [] == ListOf(response);
  }

  lemma ReceiveInOrder(setup: Setup, e: Engine, req: Packet, other: Reply)
    requires !setup.scenario.DelayedNotifications? && Drained(e)
    ensures var a := Receive(setup, e, req, other);
            a.engine.dev.pending == [] && a.engine.outbound == Produced(setup, e.dev, req, other)
  {
    hide Handle, NotesOf, Flush, Packets, Push, ListOf;
    HandleInOrder(setup, e.dev, req, other);
    var h := Handle(setup, e.dev, req, other);
    PushBoth(h.result.response, h.result.notification);
    if h.result == Result(None, None) { NothingProduced(setup, e.dev, req, other); }
    var queued := ListOf(h.result.response) + ListOf(h.result.notification);
    QueuedShort(h.result);
    FlushExact(h.dev.pending, queued);
    assert queued + h.dev.pending == ListOf(h.result.response) + (ListOf(h.result.notification) + h.dev.pending);
  }

  lemma QueuedShort(r: Result)
    ensures |ListOf(r.response) + ListOf(r.notification)| <= 2
  {
  }

  lemma NothingProduced(setup: Setup, d: Device, req: Packet, other: Reply)
    requires !setup.scenario.DelayedNotifications? && d.pending == []
    requires Handle(setup, d, req, other).result == Result(None, None)
    ensures Produced(setup, d, req, other) == [] && Handle(setup, d, req, other).dev.pending == []
  {
    hide Handle, NotesOf;
    HandleInOrder(setup, d, req, other);
  }

  /** The notifications queued when an event is served. */
  function TurnNotes(setup: Setup, turn: Turn): seq<Packet> {
    var i, d := FindSession(turn.dev.sessions, turn.event.session), turn.dev;
    if i == |d.sessions| || turn.event.kind.NoEvent? then []
    else if turn.event.kind.RangeData? then Emit(setup, d.sessions[i], Room(d), d.nextSequence).notes
    else if d.sessions[i].state != STATE_ACTIVE || !d.sessions[i].transferring then []
    else Advance(d.sessions[i]).notes
  }

  lemma MeasureWithRoom(s: Session, room: nat, nextSequence: uint32, policy: Policy, ntf: Option<Packet>)
    requires s.streamRemaining > 0 && room >= 2
    ensures var em := Measure(s, room, nextSequence, policy, ntf); |em.notes| <= 2 && (!em.ok ==> em.notes == [])
  {
    hide BudgetReached;
  }

  lemma EmitWithRoom(setup: Setup, s: Session, room: nat, nextSequence: uint32)
    requires room >= 2
    ensures var em := Emit(setup, s, room, nextSequence); |em.notes| <= 2 && (!em.ok ==> em.notes == [])
  {
    hide Measure, RangeDataNtf, InitSample, Evaluate, BudgetReached;
    if Streaming(setup, s) && !BudgetReached(s) {
      var sample := InitSample(setup.profile, s);
      var policy := Evaluate(s, sample);
      MeasureWithRoom(s, room, nextSequence, policy,
                      RangeDataNtf(setup.profile.rangeData, sample, nextSequence, policy.fields));
    }
  }

  /** Serving from an empty pending queue passes its notifications straight on. */
  lemma ServeInOrder(setup: Setup, e: Engine)
    requires !setup.scenario.DelayedNotifications? && e.dev.pending == [] && |e.outbound| <= 3
    ensures var e' := Serve(setup, e).engine;
            && e'.dev.pending == []
            && e'.outbound == e.outbound + (if TurnOf(e).Some? then TurnNotes(setup, TurnOf(e).value) else [])
  {
    hide Process, TurnNotes;
    if TurnOf(e).Some? {
      var turn := TurnOf(e).value;
      if turn.event.kind.RangeData? {
        RangeInOrder(setup, e.(dev := turn.dev), turn.event);
      } else {
        TransferInOrder(setup, e.(dev := turn.dev), turn.event);
      }
    }
  }

  lemma RangeInOrder(setup: Setup, e: Engine, event: Event)
    requires !setup.scenario.DelayedNotifications? && e.dev.pending == [] && |e.outbound| <= 3 && event.kind.RangeData?
    ensures var e' := Process(setup, e, event).engine;
            e'.dev.pending == [] && e'.outbound == e.outbound + TurnNotes(setup, Turn(e.dev, event))
  {
    hide Emit, RangeEvent, Flush, Cancel;
    var i := FindSession(e.dev.sessions, event.session);
    if i < |e.dev.sessions| {
      EmitWithRoom(setup, e.dev.sessions[i], Room(e.dev), e.dev.nextSequence);
      var notes := TurnNotes(setup, Turn(e.dev, event));
      assert [] + notes == notes;
      FlushExact(notes, e.outbound);
    }
  }

  lemma TransferInOrder(setup: Setup, e: Engine, event: Event)
    requires !setup.scenario.DelayedNotifications? && e.dev.pending == [] && |e.outbound| <= 3 && !event.kind.RangeData?
    ensures var e' := Process(setup, e, event).engine;
            e'.dev.pending == [] && e'.outbound == e.outbound + TurnNotes(setup, Turn(e.dev, event))
  {
    hide TransferEvent, Flush, TransferNtf, CreditNtf;
    var notes := TurnNotes(setup, Turn(e.dev, event));
    assert [] + notes == notes && notes[..|notes|] == notes && |notes| <= 2;
    FlushExact(notes, e.outbound);
  }

  /** Everything a step produces: response, handler notifications, then those of the event it serves. */
  function StepProduced(setup: Setup, e: Engine, step: Step): seq<Packet> {
    var turn := StepTurn(setup, e, step);
    (if step.SubmitPacket? then Produced(setup, e.dev, step.req, step.other) else [])
    + (if turn.Some? then TurnNotes(setup, turn.value) else [])
  }

  /**
   For a drained engine outside the deferring scenario a step leaves nothing pending and outputs what
   it produced, in order.
   */
  lemma StepInOrder(setup: Setup, e: Engine, step: Step)
    requires !setup.scenario.DelayedNotifications? && Drained(e)
    ensures Next(setup, e, step).dev.pending == [] && Next(setup, e, step).outbound == StepProduced(setup, e, step)
  {
    hide Receive, Serve, Produced, TurnNotes;
    match step
    case SubmitPacket(req, other) =>
      ReceiveInOrder(setup, e, req, other);
      ProducedShort(setup, e.dev, req, other);
      ServeInOrder(setup, Elapsed(Receive(setup, e, req, other).engine, 0));
    case Wait(elapsed) => ServeInOrder(setup, Elapsed(e, elapsed));
    case Take =>
  }

  lemma ProducedShort(setup: Setup, d: Device, req: Packet, other: Reply)
    ensures |Produced(setup, d, req, other)| <= 3
  {
    hide Handle;
    NotesUniform(setup, d, req, other);
  }

  /** The host takes packets until none is left. */
  function TakeAll(e: Engine): Engine {
    e.(outbound := [])
  }

  lemma {:induction false} TakeAllIsTakes(setup: Setup, e: Engine)
    ensures Run(setup, e, seq(|e.outbound|, i => Take)) == TakeAll(e)
    decreases |e.outbound|
  {
    hide Submit, Tick;
    var takes: seq<Step> := seq(|e.outbound|, i => Take);
    if e.outbound != [] {
      var e' := e.(outbound := e.outbound[1..]);
      TakeAllIsTakes(setup, e');
      assert takes[1..] == seq(|e'.outbound|, i => Take);
    }
  }

  /** One step of a host that takes everything after it. */
  function HostNext(setup: Setup, e: Engine, step: Step): Engine {
    TakeAll(Next(setup, e, step))
  }

  function HostRun(setup: Setup, e: Engine, steps: seq<Step>): Engine
    decreases |steps|
  {
    if steps == [] then e else HostRun(setup, HostNext(setup, e, steps[0]), steps[1..])
  }

  /** Such a host makes an ordinary run. */
  lemma {:induction false} HostRunIsRun(setup: Setup, e: Engine, steps: seq<Step>) returns (all: seq<Step>)
    ensures Run(setup, e, all) == HostRun(setup, e, steps)
    decreases |steps|
  {
    hide Next;
    if steps == [] {
      all := [];
    } else {
      var e' := Next(setup, e, steps[0]);
      var takes: seq<Step> := seq(|e'.outbound|, i => Take);
      var rest := HostRunIsRun(setup, TakeAll(e'), steps[1..]);
      TakeAllIsTakes(setup, e');
      RunAppend(setup, e', takes, rest);
      all := [steps[0]] + (takes + rest);
      assert all[1..] == takes + rest;
    }
  }

  lemma {:induction false} RunAppend(setup: Setup, e: Engine, a: seq<Step>, b: seq<Step>)
    ensures Run(setup, e, a + b) == Run(setup, Run(setup, e, a), b)
    decreases |a|
  {
    hide Next;
    if a == [] {
      assert a + b == b;
    } else {
      assert (a + b)[1..] == a[1..] + b;
      RunAppend(setup, Next(setup, e, a[0]), a[1..], b);
    }
  }

  /** What a host receives that takes everything after each step. */
  function Received(setup: Setup, e: Engine, steps: seq<Step>): seq<Packet>
    decreases |steps|
  {
    if steps == [] then []
    else Next(setup, e, steps[0]).outbound + Received(setup, HostNext(setup, e, steps[0]), steps[1..])
  }

  /** What is produced over the same run, in order of production. */
  function ProducedOver(setup: Setup, e: Engine, steps: seq<Step>): seq<Packet>
    decreases |steps|
  {
    if steps == [] then []
    else StepProduced(setup, e, steps[0]) + ProducedOver(setup, HostNext(setup, e, steps[0]), steps[1..])
  }

  /** Such a host receives everything that is produced, in the order it is produced. */
  lemma {:induction false} DeliveredInOrder(setup: Setup, e: Engine, steps: seq<Step>)
    requires !setup.scenario.DelayedNotifications? && Drained(e)
    ensures Received(setup, e, steps) == ProducedOver(setup, e, steps)
    decreases |steps|
  {
    hide Next, StepProduced;
    if steps != [] {
      StepInOrder(setup, e, steps[0]);
      DeliveredInOrder(setup, HostNext(setup, e, steps[0]), steps[1..]);
    }
  }
}
