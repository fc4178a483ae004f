/** What a host is answered by the session control commands: START, STOP and the logical links. */
module ControlAnswers {
  import opened Types
  import opened PacketCodec
  import opened Profiles
  import opened ConfigTables
  import opened LogicalLinks
  import opened EventQueues
  import opened PacketQueues
  import opened Validation
  import opened StartGate
  import opened Sessions
  import opened Devices
  import opened Handlers
  import opened Engines
  import opened Moves
  import opened Configuration
  import opened Reports
  import opened Acceptance
  import opened StartChecks
  import opened Answers

  // ----- START and STOP in the default profile -----

  lemma DefaultTransition(oid: byte)
    ensures TransitionFor(DefaultProfile().transitions, oid) ==
              if oid == 0 then Some(Transition(0, 9, 2, 1)) else if oid == 1 then Some(Transition(1, 4, 3, 1)) else None
  {
    hide DefaultLimits, DefaultFaults, DefaultRangeData, DefaultTlvs, DefaultAppConfigIds;
    var ts := DefaultProfile().transitions;
    assert ts[1..] == [ts[1]] && ts[1..][1..] == [];
    assert TransitionFor(ts[1..], oid) == if oid == 1 then Some(ts[1]) else TransitionFor(ts[1..][1..], oid);
  }

  /** A START or STOP that names no session, or one in the wrong state. */
  lemma TransitionRefused(setup: Setup, d: Device, req: Packet, other: Reply)
    requires setup.profile == DefaultProfile() && (IsCommand(req, 2, 0) || IsCommand(req, 2, 1))
    ensures var h := Handle(setup, d, req, other);
            && (|req.payload| < 4 ==> RefusedWith(setup, d, req, h, [6]))
            && (|req.payload| >= 4 && NamedSlot(d, req) == |d.sessions| ==> RefusedWith(setup, d, req, h, [4]))
            && (|req.payload| >= 4 && NamedSlot(d, req) < |d.sessions| ==>
                  var state := d.sessions[NamedSlot(d, req)].state;
                  (if req.oid == 0 then state != 0 && state != 3 else state != 2) ==>
                    RefusedWith(setup, d, req, h, [1]))
  {
    hide RefusedWith, Handle, U32, DefaultProfile, StartVerdict, Bit;
    DefaultCommandIs(req.gid, req.oid);
    DefaultTransition(req.oid);
    if |req.payload| < 4 {
      Refusing(setup, d, req, other, [6]);
    } else {
      NamedIs(req);
      var i := NamedSlot(d, req);
      if i == |d.sessions| {
        Refusing(setup, d, req, other, [4]);
      } else {
        StandardSources(d.sessions[i].state);
        if if req.oid == 0 then d.sessions[i].state != 0 && d.sessions[i].state != 3 else d.sessions[i].state != 2 {
          Refusing(setup, d, req, other, [1]);
        }
      }
    }
  }

  /**
   START in any profile, over any table: a refusal that surfaces in a session status is answered OK and reported as the
   unchanged state with the reason; one that surfaces at once is answered with its status. Neither starts anything.
   */
  lemma StartRefusalSurfaces(setup: Setup, d: Device, req: Packet, other: Reply)
    requires IsCommand(req, 2, 0) && 0 in setup.profile.sessionControlOids
    requires |req.payload| >= 4 && NamedSlot(d, req) < |d.sessions|
    requires var t := TransitionFor(setup.profile.transitions, 0);
             t.Some? && Bit(t.value.allowedStates, d.sessions[NamedSlot(d, req)].state)
    requires StartFault(setup.profile, d.sessions[NamedSlot(d, req)].configs).Some?
    ensures var h, s := Handle(setup, d, req, other), d.sessions[NamedSlot(d, req)];
            var fault := StartFault(setup.profile, s.configs).value;
            if fault.surface.Immediate? then RefusedWith(setup, d, req, h, [fault.status])
            else
              && AnsweredWith(setup, d, h, Packet(2, 0, 2, 0, [0]),
                              Some(Status(req.payload[..4], s.state, fault.reason)))
              && h.dev == d.(pending := h.dev.pending) && h.ok
  {
    hide RefusedWith, HandsOut, Handle, U32, StartVerdict, StartFault, Bit, TransitionFor;
    NamedIs(req);
    var s := d.sessions[NamedSlot(d, req)];
    var fault := StartFault(setup.profile, s.configs).value;
    StartVerdictIs(setup.profile, s.configs);
    if fault.surface.Immediate? {
      Refusing(setup, d, req, other, [fault.status]);
    } else {
      OneNote(setup, d, req, other, Some(Status(req.payload[..4], s.state, fault.reason)));
    }
  }

  /** A stopped session: idle, with nothing remaining and no transfer. */
  function Idle(s: Session): Session {
    s.(state := 3, hasProximity := false, inProximity := false, streamRemaining := 0, transferring := false,
       repetitionsLeft := 0, txCount := 0)
  }

  /**
   STOP of an ACTIVE session: OK, one status notification of IDLE, the session idle, none of its events queued and
   all others still there. In any other state it is refused and nothing moves.
   */
  lemma StopAnswer(setup: Setup, d: Device, req: Packet, other: Reply)
    requires setup.profile == DefaultProfile() && IsCommand(req, 2, 1)
    requires |req.payload| >= 4 && NamedSlot(d, req) < |d.sessions|
    ensures var h, i := Handle(setup, d, req, other), NamedSlot(d, req);
            if d.sessions[i].state != 2 then RefusedWith(setup, d, req, h, [1])
            else
              && AnsweredWith(setup, d, h, Packet(2, 0, 2, 1, [0]), Some(Status(req.payload[..4], 3, 0))) && h.ok
              && h.dev == d.(sessions := d.sessions[i := Idle(d.sessions[i])], events := h.dev.events,
                             pending := h.dev.pending)
              && forall e :: e in h.dev.events <==> e in d.events && e.session != NamedId(req)
  {
    hide RefusedWith, HandsOut, Handle, U32, DefaultProfile, StartVerdict, Bit;
    var i := NamedSlot(d, req);
    DefaultCommandIs(req.gid, req.oid);
    DefaultTransition(1);
    NamedIs(req);
    StandardSources(d.sessions[i].state);
    DefaultReason();
    if d.sessions[i].state != 2 {
      TransitionRefused(setup, d, req, other);
    } else {
      OneNote(setup, d, req, other, Some(Status(req.payload[..4], 3, 0)));
      WithoutMembers(d.events, None, NamedId(req));
    }
  }

  lemma DefaultReason()
    ensures DefaultProfile().statusReason == 0 && DefaultProfile().burstCount == 3
            && DefaultProfile().rangingIntervalMs == 2000
  {
    hide DefaultLimits, DefaultFaults, DefaultRangeData, DefaultTlvs, DefaultAppConfigIds;
  }

  /**
   A started session in the streaming scenario has its burst of three before it; elsewhere START only
   enters the state.
   */
  function Begun(setup: Setup, s: Session): Session {
    s.(state := 2, hasProximity := false, inProximity := false,
       streamRemaining := if setup.scenario.RangingStream? then 3 else s.streamRemaining)
  }

  /** The range event that START queues in the streaming scenario, when one fits: an interval away. */
  function FirstEvent(setup: Setup, d: Device, s: Session): seq<(EventKind, uint32, nat)> {
    if setup.scenario.RangingStream? && |d.events| < 8 then [(RangeData, s.id, IntervalNow(setup.profile, s.configs))]
    else []
  }

  function Scheduled(q: seq<Event>): (r: seq<(EventKind, uint32, nat)>)
    ensures |r| == |q| && forall i :: 0 <= i < |q| ==> r[i] == (q[i].kind, q[i].session, q[i].delay as nat)
  {
    seq(|q|, i requires 0 <= i < |q| => (q[i].kind, q[i].session, q[i].delay as nat))
  }

  lemma IntervalIs(p: Profile, s: Session)
    ensures Interval(p, s) == IntervalNow(p, s.configs)
  {
    hide U32;
    if RANGING_INTERVAL in s.configs && |s.configs[RANGING_INTERVAL]| == 4 { U32Long(s.configs[RANGING_INTERVAL]); }
  }

  lemma TopologyFaults(p: Profile, m: Table)
    requires p.faults == DefaultFaults()
    ensures RefusesWith(DeviceRoleVerdict(p, m), 4) && RefusesWith(NodeTopologyVerdict(p, m), 4)
    ensures RefusesWith(StsVerdict(p, m), 4) && RefusesWith(ReportVerdict(p, m), 4)
  {
    hide ListedIn, WithinMask, HasLength, RoleFitsType;
  }

  lemma RadioFaults(p: Profile, m: Table)
    requires p.faults == DefaultFaults()
    ensures RefusesWith(RadioVerdict(p, m), 4) && RefusesWith(FrameVerdict(p, m), 4)
    ensures RefusesWith(RotationVerdict(p, m), 4) && RefusesWith(LinkVerdict(p, m), 4)
  {
    hide PreambleAllowed, SfdAllowed;
  }

  lemma ScheduleFaults(p: Profile, m: Table)
    requires p.faults == DefaultFaults()
    ensures RefusesWith(ScheduleVerdict(p, m), 4)
  {
    hide ListedIn, SlotTopologyVerdict, BlockStrideVerdict, CapSizeVerdict;
    ContextStatus(p, m);
  }

  /** START is refused with status 4, once the interval is long enough. */
  lemma StartFaults(p: Profile, m: Table)
    requires p.faults == DefaultFaults() && p.limits.minRangingInterval <= IntervalOf(p, m)
    ensures RefusesWith(StartVerdict(p, m), 4)
  {
    hide DeviceRoleVerdict, NodeTopologyVerdict, StsVerdict, ReportVerdict, RadioVerdict, FrameVerdict, RotationVerdict,
        LinkVerdict, ScheduleVerdict, ListedIn, IntervalOf, U16;
    TopologyFaults(p, m);
    RadioFaults(p, m);
    ScheduleFaults(p, m);
  }

  lemma SoundInterval(m: Table)
    requires SoundTable(DefaultProfile(), m)
    ensures DefaultLimits().minRangingInterval <= IntervalOf(DefaultProfile(), m)
    ensures DefaultProfile().faults == DefaultFaults() && DefaultProfile().limits == DefaultLimits()
  {
    hide CrossChecks, ShortAddressesOnly;
    assert InBounds(DefaultLimits(), RANGING_INTERVAL, m[RANGING_INTERVAL]);
  }

  /**
   START in the default profile, over any table: refused with status 1 unless INIT or IDLE, then with the status of the
   first condition that fails, and nothing moves. Otherwise OK, one status notification of ACTIVE, and the session begun
   with its first event queued.
   */
  lemma StartAnswer(setup: Setup, d: Device, req: Packet, other: Reply)
    requires setup.profile == DefaultProfile() && IsCommand(req, 2, 0)
    requires |req.payload| >= 4 && NamedSlot(d, req) < |d.sessions|
    ensures var h, i := Handle(setup, d, req, other), NamedSlot(d, req);
            var s := d.sessions[i];
            var fault := StartFault(setup.profile, s.configs);
            if s.state != 0 && s.state != 3 then RefusedWith(setup, d, req, h, [1])
            else if fault.Some? then RefusedWith(setup, d, req, h, [fault.value.status])
            else
              && AnsweredWith(setup, d, h, Packet(2, 0, 2, 0, [0]), Some(Status(req.payload[..4], 2, 0))) && h.ok
              && h.dev == d.(sessions := d.sessions[i := Begun(setup, s)], events := h.dev.events,
                             pending := h.dev.pending)
              && Scheduled(h.dev.events) == Scheduled(d.events) + FirstEvent(setup, d, s)
  {
    hide RefusedWith, HandsOut, Handle, U32, DefaultProfile, StartVerdict, StartFault, Bit, IntervalOf, IntervalNow;
    var i := NamedSlot(d, req);
    var s := d.sessions[i];
    DefaultCommandIs(req.gid, req.oid);
    DefaultTransition(0);
    NamedIs(req);
    StandardSources(s.state);
    DefaultReason();
    StartVerdictIs(setup.profile, s.configs);
    DefaultImmediate(s.configs);
    if s.state != 0 && s.state != 3 {
      TransitionRefused(setup, d, req, other);
    } else if StartFault(setup.profile, s.configs).Some? {
      Refusing(setup, d, req, other, [StartFault(setup.profile, s.configs).value.status]);
    } else {
      OneNote(setup, d, req, other, Some(Status(req.payload[..4], 2, 0)));
      StartLeaves(setup, d, i);
    }
  }

  lemma DefaultImmediate(m: Table)
    ensures FaultImmediate(StartVerdict(DefaultProfile(), m))
  {
    hide StartVerdict, FaultImmediate;
    StartFaultsImmediate(DefaultProfile(), m);
  }

  /** Over a sound table of the default profile the conditions come down to the gate, and any refusal has status 4. */
  lemma GateIsFault(m: Table)
    requires SoundTable(DefaultProfile(), m)
    ensures Shaped(m)
    ensures var fault := StartFault(DefaultProfile(), m);
            (fault == None <==> DefaultGate(m)) && (fault.Some? ==> fault.value.status == 4)
  {
    hide StartVerdict, StartFault, DefaultProfile, SoundTable, DefaultGate, Shaped, IntervalOf;
    StartVerdictIs(DefaultProfile(), m);
    DefaultStartAcceptedIff(m);
    SoundInterval(m);
    StartFaults(DefaultProfile(), m);
  }

  lemma StartLeaves(setup: Setup, d: Device, i: nat)
    requires setup.profile == DefaultProfile() && i < |d.sessions|
    ensures var d' := Apply(setup, d, Transit(i, SESSION_START, 2));
            && d' == d.(sessions := d.sessions[i := Begun(setup, d.sessions[i])], events := d'.events)
            && Scheduled(d'.events) == Scheduled(d.events) + FirstEvent(setup, d, d.sessions[i])
  {
    hide DefaultProfile, IntervalOf, IntervalNow;
    DefaultReason();
    IntervalIs(setup.profile, d.sessions[i]);
  }

  /**
   In every reachable state of the default profile a START that names an allocated session is answered so: it starts if
   and only if the session is INIT or IDLE and its stored bytes pass the gate.
   */
  lemma ReachableStartAnswer(setup: Setup, steps: seq<Step>, req: Packet, other: Reply)
    requires setup.profile == DefaultProfile() && IsCommand(req, 2, 0) && |req.payload| >= 4
    requires NamedSlot(Run(setup, Initial(setup), steps).dev, req) < |Run(setup, Initial(setup), steps).dev.sessions|
    ensures var d := Run(setup, Initial(setup), steps).dev;
            var h, i := Handle(setup, d, req, other), NamedSlot(d, req);
            var s := d.sessions[i];
            && Shaped(s.configs)
            && if s.state != 0 && s.state != 3 then RefusedWith(setup, d, req, h, [1])
               else if !DefaultGate(s.configs) then RefusedWith(setup, d, req, h, [4])
               else
                 && AnsweredWith(setup, d, h, Packet(2, 0, 2, 0, [0]), Some(Status(req.payload[..4], 2, 0))) && h.ok
                 && h.dev == d.(sessions := d.sessions[i := Begun(setup, s)], events := h.dev.events,
                                pending := h.dev.pending)
                 && Scheduled(h.dev.events) == Scheduled(d.events) + FirstEvent(setup, d, s)
  {
    hide Run, Handle, DefaultProfile, SoundTable, DefaultGate, Shaped, RefusedWith, AnsweredWith, IntervalNow,
        StartFault;
    var d := Run(setup, Initial(setup), steps).dev;
    ReachableTableSound(setup, steps, NamedSlot(d, req));
    GateIsFault(d.sessions[NamedSlot(d, req)].configs);
    StartAnswer(setup, d, req, other);
  }

  // ----- logical links -----

  /** The refusals every command on a session shares. */
  lemma ControlRefused(setup: Setup, d: Device, req: Packet, other: Reply)
    requires req.mt == 1 && req.gid == 2 && req.oid in setup.profile.sessionControlOids
    ensures var h := Handle(setup, d, req, other);
            && (|req.payload| < 4 ==> RefusedWith(setup, d, req, h, [6]))
            && (|req.payload| >= 4 && NamedSlot(d, req) == |d.sessions| ==> RefusedWith(setup, d, req, h, [4]))
  {
    hide RefusedWith, Handle, U32;
    if |req.payload| < 4 {
      Refusing(setup, d, req, other, [6]);
    } else {
      NamedIs(req);
      if NamedSlot(d, req) == |d.sessions| { Refusing(setup, d, req, other, [4]); }
    }
  }

  /** A link has this id. */
  predicate HasLinkId(links: seq<Link>, id: nat) {
    exists k :: 0 <= k < |links| && links[k].id == id
  }

  /** The id a new link gets: the one requested, or for 255 the least that no link has. */
  ghost predicate NewLinkId(links: seq<Link>, requested: byte, id: byte) {
    && (requested != 255 ==> id == requested)
    && (requested == 255 ==> id <= 7 && forall x :: 0 <= x < id ==> HasLinkId(links, x))
    && !HasLinkId(links, id)
  }

  /**
   Creating a link: mode and credit are the next two bytes, by default 0 and 1. A requested id that is in use and a
   ninth link are refused; otherwise a link is appended, and response and notification name its id and credit.
   */
  lemma LinkCreateAnswer(setup: Setup, d: Device, req: Packet, other: Reply) returns (id: byte)
    requires IsCommand(req, 2, 7) && 7 in setup.profile.sessionControlOids && Structured(d)
    requires |req.payload| >= 4 && NamedSlot(d, req) < |d.sessions|
    ensures var h, i := Handle(setup, d, req, other), NamedSlot(d, req);
            var links := d.sessions[i].links;
            if |req.payload| < 5 then RefusedWith(setup, d, req, h, [6])
            else if req.payload[4] != 255 && HasLinkId(links, req.payload[4]) then
              RefusedWith(setup, d, req, h, [4, 255, 0])
            else if |links| >= 8 then RefusedWith(setup, d, req, h, [0x17, 255, 0])
            else
              var mode := if |req.payload| >= 6 then req.payload[5] else 0;
              var credit := if |req.payload| >= 7 then req.payload[6] else 1;
              && NewLinkId(links, req.payload[4], id)
              && AnsweredWith(setup, d, h, Packet(2, 0, 2, 7, [0, id, credit]),
                              Some(Packet(3, 0, 2, 10, req.payload[..4] + [id, credit]))) && h.ok
              && h.dev == d.(sessions := d.sessions[i :=
                                                    d.sessions[i].(links := links + [Link(true, id, mode, credit)])],
                             pending := h.dev.pending)
  {
    hide RefusedWith, HandsOut, Handle, U32, LeastUnused, ShortTable, UniqueIds;
    NamedIs(req);
    id := 0;
    var i := NamedSlot(d, req);
    var links := d.sessions[i].links;
    if |req.payload| < 5 {
      Refusing(setup, d, req, other, [6]);
    } else if req.payload[4] != 255 && HasLinkId(links, req.payload[4]) {
      Refusing(setup, d, req, other, [4, 255, 0]);
    } else if |links| >= 8 {
      Refusing(setup, d, req, other, [0x17, 255, 0]);
    } else {
      id := LinkIdNew(links, req.payload[4]);
      var credit := if |req.payload| >= 7 then req.payload[6] else 1;
      OneNote(setup, d, req, other, Some(Packet(3, 0, 2, 10, req.payload[..4] + [id, credit])));
    }
  }

  lemma LinkIdNew(links: seq<Link>, requested: byte) returns (id: byte)
    requires WellFormed(links) && |links| < 8 && (requested != 255 ==> !HasLinkId(links, requested))
    ensures id == AssignedId(links, requested) && NewLinkId(links, requested, id)
  {
    AppendKeeps(links, requested, 0, 0);
    id := AssignedId(links, requested);
    forall x | 0 <= x < id && requested == 255 ensures HasLinkId(links, x) {
      var y: byte := x;
      assert Exists(links, y);
    }
  }

  /** Closing a link: it alone goes, the others stay in order; an unknown id is refused. */
  lemma LinkCloseAnswer(setup: Setup, d: Device, req: Packet, other: Reply)
    requires IsCommand(req, 2, 8) && 8 in setup.profile.sessionControlOids
    requires |req.payload| >= 4 && NamedSlot(d, req) < |d.sessions|
    ensures var h, i := Handle(setup, d, req, other), NamedSlot(d, req);
            var links := d.sessions[i].links;
            if |req.payload| < 5 then RefusedWith(setup, d, req, h, [6])
            else if !HasLinkId(links, req.payload[4]) then RefusedWith(setup, d, req, h, [4, req.payload[4]])
            else
              var id := req.payload[4];
              && AnsweredWith(setup, d, h, Packet(2, 0, 2, 8, [0, id]),
                              Some(Packet(3, 0, 2, 9, req.payload[..4] + [id, 0])))
              && h.ok
              && exists k :: && 0 <= k < |links| && links[k].id == id
                             && h.dev == d.(sessions := d.sessions[i := d.sessions[i].(links := RemoveAt(links, k))],
                                            pending := h.dev.pending)
  {
    hide RefusedWith, HandsOut, Handle, U32;
    NamedIs(req);
    var links := d.sessions[NamedSlot(d, req)].links;
    if |req.payload| < 5 {
      Refusing(setup, d, req, other, [6]);
    } else if !HasLinkId(links, req.payload[4]) {
      Refusing(setup, d, req, other, [4, req.payload[4]]);
    } else {
      OneNote(setup, d, req, other, Some(Packet(3, 0, 2, 9, req.payload[..4] + [req.payload[4], 0])));
      var k := IndexOf(links, req.payload[4]);
      assert Close(links, req.payload[4]) == RemoveAt(links, k);
    }
  }

  /** Asking for a link: the mode and credit of the one with the id, or a refusal. */
  lemma LinkQueryAnswer(setup: Setup, d: Device, req: Packet, other: Reply, k: nat)
    requires IsCommand(req, 2, 11) && 11 in setup.profile.sessionControlOids && Structured(d)
    requires |req.payload| >= 4 && NamedSlot(d, req) < |d.sessions|
    ensures var h, links := Handle(setup, d, req, other), d.sessions[NamedSlot(d, req)].links;
            if |req.payload| < 5 then RefusedWith(setup, d, req, h, [6])
            else if !HasLinkId(links, req.payload[4]) then RefusedWith(setup, d, req, h, [4, req.payload[4], 0, 0])
            else
              k < |links| && links[k].id == req.payload[4] ==>
                QueriedWith(setup, d, req, h, [0, req.payload[4], links[k].mode, links[k].credit])
  {
    hide RefusedWith, QueriedWith, Handle, U32, ShortTable, UniqueIds;
    NamedIs(req);
    var links := d.sessions[NamedSlot(d, req)].links;
    if |req.payload| < 5 {
      Refusing(setup, d, req, other, [6]);
    } else if !HasLinkId(links, req.payload[4]) {
      Refusing(setup, d, req, other, [4, req.payload[4], 0, 0]);
    } else if k < |links| && links[k].id == req.payload[4] {
      assert IndexOf(links, req.payload[4]) == k;
      Querying(setup, d, req, other, [0, req.payload[4], links[k].mode, links[k].credit]);
    }
  }
}
