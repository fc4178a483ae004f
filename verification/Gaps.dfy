/**
 Two places where the simulator loses track of scheduled work, on any device. A DEINIT
 leaves the session's events queued (src/handlers/uci_sim_handlers.c:590-604), so a
 session created again under the id inherits them. The stop at a measurement budget
 cancels the events of a transfer without ending it, before a measurement
 (src/model/uci_sim_device.c:892-902) or after the one that reaches it (927-939).
 Carriage gives the exact condition for the second, and one more way to it: a repetition
 that finds the pending queue full. Witnesses makes all three happen from a new engine.
 */
module Gaps {
  import opened Types
  import opened PacketCodec
  import opened Profiles
  import opened ConfigTables
  import opened EventQueues
  import opened Sessions
  import opened Devices
  import opened Handlers
  import opened Engines
  import opened Moves
  import opened Ownership
  import opened Timing
  import opened Carriage

  /** How many range events of a session are queued. */
  function RangeEvents(q: seq<Event>, id: uint32): nat {
    if q == [] then 0 else RangeEvents(q[..|q| - 1], id) + (if IsRange(q[|q| - 1], id) then 1 else 0)
  }

  lemma RangeEventsAppend(q: seq<Event>, e: Event)
    ensures RangeEvents(q + [e], e.session) == RangeEvents(q, e.session) + (if e.kind.RangeData? then 1 else 0)
  {
    assert (q + [e])[..|q|] == q;
  }

  lemma {:induction false} TwoEventsTwoPlaces(q: seq<Event>, id: uint32)
    requires RangeEvents(q, id) >= 2
    ensures !OnePerKind(q)
  {
    var last := |q| - 1;
    if IsRange(q[last], id) {
      var i := EventExists(q[..last], id);
      assert q[i].kind == q[last].kind && q[i].session == q[last].session;
    } else {
      TwoEventsTwoPlaces(q[..last], id);
      var front := q[..last];
      var i, j :| 0 <= i < j < |front| && front[i].kind == front[j].kind && front[i].session == front[j].session;
      assert q[i].kind == q[j].kind && q[i].session == q[j].session;
    }
  }

  lemma {:induction false} EventExists(q: seq<Event>, id: uint32) returns (i: nat)
    requires RangeEvents(q, id) >= 1
    ensures i < |q| && IsRange(q[i], id)
  {
    if IsRange(q[|q| - 1], id) {
      i := |q| - 1;
    } else {
      i := EventExists(q[..|q| - 1], id);
    }
  }

  /** INIT after DEINIT finds the id gone and opens the first free slot for it; neither touches the events. */
  lemma DroppedAndReborn(setup: Setup, d: Device, i: nat)
    requires Structured(d) && i < |d.sessions| && d.sessions[i].inUse
    ensures var id, dropped := d.sessions[i].id, Apply(setup, d, Drop(i));
            var j := FirstFree(dropped.sessions);
            && FindSession(dropped.sessions, id) == |dropped.sessions| && j < |dropped.sessions|
            && var reborn := Apply(setup, dropped, Move.Open(j, id));
               |reborn.sessions| == |dropped.sessions| && FindSession(reborn.sessions, id) == j
               && reborn.events == d.events && reborn.sessions[j].id == id
  {
    hide StoreAll;
    var id, dropped := d.sessions[i].id, Apply(setup, d, Drop(i));
    assert !dropped.sessions[i].inUse;
    forall k | 0 <= k < |d.sessions| && d.sessions[k].inUse && d.sessions[k].id == id ensures k == i {
    }
    var j := FirstFree(dropped.sessions);
    var reborn := Apply(setup, dropped, Move.Open(j, id));
    FirstIs(reborn.sessions, id, j);
  }

  lemma FirstIs(sessions: seq<Session>, id: uint32, j: nat)
    requires j < |sessions| && sessions[j].inUse && sessions[j].id == id
    requires forall k :: 0 <= k < |sessions| && k != j ==> !(sessions[k].inUse && sessions[k].id == id)
    ensures FindSession(sessions, id) == j
  {
  }

  /** START queues one more range event for its session. */
  lemma StartAddsEvent(setup: Setup, d: Device, j: nat)
    requires j < |d.sessions| && |d.events| < MAX_EVENTS
    requires setup.scenario.RangingStream? && setup.profile.burstCount > 0
    ensures var id := d.sessions[j].id;
            RangeEvents(Apply(setup, d, Transit(j, SESSION_START, STATE_ACTIVE)).events, id) ==
                RangeEvents(d.events, id) + 1
  {
    hide Interval;
    var started := Apply(setup, d, Transit(j, SESSION_START, STATE_ACTIVE));
    RangeEventsAppend(d.events, RangeEvent(setup.profile, started.sessions[j]));
  }

  /**
   DEINIT of a streaming session, INIT of the same id, START: two range events are
   queued for the one session, so ownership is lost and it is served twice as often.
   */
  lemma DeinitLeavesStream(setup: Setup, d: Device, i: nat)
    requires Structured(d) && i < |d.sessions| && d.sessions[i].inUse
    requires setup.scenario.RangingStream? && setup.profile.burstCount > 0
    requires RangeEvents(d.events, d.sessions[i].id) == 1 && |d.events| < MAX_EVENTS
    ensures var id, dropped := d.sessions[i].id, Apply(setup, d, Drop(i));
            var j := FirstFree(dropped.sessions);
            && FindSession(dropped.sessions, id) == |dropped.sessions| && j < |dropped.sessions|
            && var reborn := Apply(setup, dropped, Move.Open(j, id));
               var started := Apply(setup, reborn, Transit(j, SESSION_START, STATE_ACTIVE));
               FindSession(reborn.sessions, id) == j && RangeEvents(started.events, id) == 2 && !Owned(started)
  {
    hide Apply, RangeEvents;
    DroppedAndReborn(setup, d, i);
    var dropped := Apply(setup, d, Drop(i));
    var j := FirstFree(dropped.sessions);
    var reborn := Apply(setup, dropped, Move.Open(j, d.sessions[i].id));
    StartAddsEvent(setup, reborn, j);
    TwoEventsTwoPlaces(Apply(setup, reborn, Transit(j, SESSION_START, STATE_ACTIVE)).events, d.sessions[i].id);
  }

  lemma EmitStops(setup: Setup, s: Session, room: nat, nextSequence: uint32)
    requires StopsAtBudget(setup, s, room)
    ensures var em := Emit(setup, s, room, nextSequence);
            && em.cancels && em.session.state == STATE_IDLE && em.session.streamRemaining == 0
            && em.session.transferring == s.transferring && em.session.txCount == s.txCount
            && em.session.id == s.id && em.session.inUse == s.inUse
  {
    hide Measure, InitSample, Evaluate, BudgetReached;
    EmitCancelsIff(setup, s, room, nextSequence);
    EmitFrame(setup, s, room, nextSequence);
    if !BudgetReached(s) {
      var sample := InitSample(setup.profile, s);
      var policy := Evaluate(s, sample);
      MeasureHalts(s, room, nextSequence, policy,
                   RangeDataNtf(setup.profile.rangeData, sample, nextSequence, policy.fields));
    }
  }

  lemma MeasureHalts(s: Session, room: nat, nextSequence: uint32, policy: Policy, ntf: Option<Packet>)
    requires s.streamRemaining > 0 && Measure(s, room, nextSequence, policy, ntf).cancels
    ensures Measure(s, room, nextSequence, policy, ntf).session == Halted(Measured(s, policy.inRange))
  {
  }

  /**
   The budget stop, before or after a measurement, halts the session and cancels its events, but
   keeps its transfer.
   */
  lemma BudgetStopKeepsTransfer(setup: Setup, d: Device, i: nat)
    requires i < |d.sessions| && StopsAtBudget(setup, d.sessions[i], Room(d))
    ensures var s, halted := d.sessions[i], ServeRange(setup, d, i).dev;
            && |halted.sessions| == |d.sessions| && halted.sessions == d.sessions[i := halted.sessions[i]]
            && halted.events == Cancel(d.events, s.id)
            && halted.sessions[i].state == STATE_IDLE && halted.sessions[i].transferring == s.transferring
            && halted.sessions[i].txCount == s.txCount
            && halted.sessions[i].id == s.id && halted.sessions[i].inUse == s.inUse
  {
    hide Emit, StopsAtBudget;
    EmitStops(setup, d.sessions[i], Room(d), d.nextSequence);
  }

  /** A START on a session without events leaves it active, its transfer as it was, with at most a range event. */
  lemma StartArmsRangeOnly(setup: Setup, d: Device, i: nat)
    requires i < |d.sessions| && NoEventsFor(d.events, d.sessions[i].id)
    ensures var s, started := d.sessions[i], Apply(setup, d, Transit(i, SESSION_START, STATE_ACTIVE));
            && started.sessions == d.sessions[i := started.sessions[i]]
            && started.sessions[i].inUse == s.inUse && started.sessions[i].id == s.id
            && started.sessions[i].state == STATE_ACTIVE && started.sessions[i].transferring == s.transferring
            && started.sessions[i].txCount == s.txCount
            && (forall e :: e in started.events && e.session == s.id ==> e.kind.RangeData?)
  {
    hide Interval;
  }

  /**
   The budget stop in the middle of a transfer, then START: the transfer is still
   marked in progress with no event to carry it on, so every well-formed data message
   of the session is rebuffed as ongoing.
   */
  lemma BudgetStopStrandsTransfer(setup: Setup, d: Device, i: nat, req: Packet)
    requires Structured(d) && i < |d.sessions| && d.sessions[i].inUse && d.sessions[i].transferring
    requires StopsAtBudget(setup, d.sessions[i], Room(d))
    requires req.mt == MT_DATA && req.gid == 1 && req.oid == 0 && |req.payload| >= 16
    requires SessionId(req) == d.sessions[i].id && 16 + U16(req.payload[14..16]) <= |req.payload|
    ensures var started := Apply(setup, ServeRange(setup, d, i).dev, Transit(i, SESSION_START, STATE_ACTIVE));
            && (forall e :: e in started.events && e.session == d.sessions[i].id ==> e.kind.RangeData?)
            && DecideData(setup.profile, started, req)
            == Rebuff(SessionId(req), U16(req.payload[12..14]), TRANSFER_ONGOING, d.sessions[i].txCount)
  {
    hide U16, U32, Apply, ServeRange, DecideNewMessage, StopsAtBudget;
    BudgetStopKeepsTransfer(setup, d, i);
    WithoutMembers(d.events, None, d.sessions[i].id);
    var halted := ServeRange(setup, d, i).dev;
    StartArmsRangeOnly(setup, halted, i);
    var started := Apply(setup, halted, Transit(i, SESSION_START, STATE_ACTIVE));
    assert started.sessions == d.sessions[i := started.sessions[i]];
    FindUnique(d.sessions, i);
    FindAfterPut(d.sessions, i, started.sessions[i], d.sessions[i].id);
  }
}
