/**
 Lost work on runs a host can make with the default profile, from a new engine: a session
 deinitialised while it streams and created again, a budget that ends in the middle of a
 data transfer, and a transfer whose repetitions fill the pending queue.
 */
module Witnesses {
  import opened Types
  import opened PacketCodec
  import opened Profiles
  import opened ConfigTables
  import opened EventQueues
  import opened PacketQueues
  import opened Validation
  import opened StartGate
  import opened Sessions
  import opened Devices
  import opened Handlers
  import opened Engines
  import opened Moves
  import opened Ownership
  import opened Configuration
  import opened Timing
  import opened Streams
  import opened Delivery
  import opened Carriage
  import opened Gaps

  const STREAMING := Setup(DefaultProfile(), RangingStream)

  const DEFERRING := Setup(DefaultProfile(), DelayedNotifications)

  lemma DefaultBoth()
    ensures STREAMING.profile == DEFERRING.profile == DefaultProfile()
  {
    hide DefaultProfile;
  }

  // ----- the packets -----

  function Command(gid: byte, oid: byte, payload: seq<byte>): Packet {
    Packet(MT_COMMAND, PBF_COMPLETE, gid, oid, payload)
  }

  function InitReq(id: uint32): Packet {
    Command(GID_SESSION_CONFIG, SESSION_INIT, U32Bytes(id) + [0])
  }

  function DeinitReq(id: uint32): Packet {
    Command(GID_SESSION_CONFIG, SESSION_DEINIT, U32Bytes(id))
  }

  function StartReq(id: uint32): Packet {
    Command(GID_SESSION_CONTROL, SESSION_START, U32Bytes(id))
  }

  /** A budget of one measurement, and some repetitions for each data message. */
  function Bounds(n: byte): seq<Tlv> {
    [Tlv(MAX_NUMBER_OF_MEASUREMENTS, [1, 0]), Tlv(DATA_REPETITION_COUNT, [n])]
  }

  function SetReq(id: uint32, n: byte): Packet {
    Command(GID_SESSION_CONFIG, SESSION_SET_APP_CONFIG, U32Bytes(id) + [2] + EncodeTlvs(Bounds(n)))
  }

  /** A data message without data. */
  function DataReq(id: uint32, sequence: uint16): Packet {
    Packet(MT_DATA, PBF_COMPLETE, 1, 0, U32Bytes(id) + [0, 0, 0, 0, 0, 0, 0, 0] + U16Bytes(sequence) + [0, 0])
  }

  // ----- what the handlers decide -----

  lemma InitMove(setup: Setup, d: Device, id: uint32, other: Reply)
    requires setup.profile == DefaultProfile()
    requires FindSession(d.sessions, id) == |d.sessions| && FirstFree(d.sessions) < |d.sessions|
    ensures MoveOf(setup, d, InitReq(id), other) == Move.Open(FirstFree(d.sessions), id)
  {
    hide DefaultIds, DefaultTlvs, DefaultAppConfigIds, DefaultFaults, DefaultLimits, U32;
    var req := InitReq(id);
    assert req.payload[..4] == U32Bytes(id) && req.payload[4] == 0;
    assert SupportsCommand(DefaultProfile(), req.gid, req.oid);
  }

  lemma DeinitMove(setup: Setup, d: Device, id: uint32, other: Reply)
    requires setup.profile == DefaultProfile()
    requires FindSession(d.sessions, id) < |d.sessions|
    ensures MoveOf(setup, d, DeinitReq(id), other) == Drop(FindSession(d.sessions, id))
  {
    hide DefaultIds, DefaultTlvs, DefaultAppConfigIds, DefaultFaults, DefaultLimits, U32;
    var req := DeinitReq(id);
    assert req.payload[..4] == U32Bytes(id);
    assert SupportsCommand(DefaultProfile(), req.gid, req.oid);
  }

  lemma SetMove(setup: Setup, d: Device, id: uint32, n: byte, other: Reply)
    requires setup.profile == DefaultProfile()
    requires FindSession(d.sessions, id) < |d.sessions|
    ensures MoveOf(setup, d, SetReq(id, n), other) == Configure(FindSession(d.sessions, id), Bounds(n))
  {
    hide DefaultIds, DefaultTlvs, DefaultAppConfigIds, DefaultFaults, DefaultLimits, U32, ApplyTlvs, DecodeTlvs,
        EncodeTlvs;
    var req := SetReq(id, n);
    assert req.payload[..4] == U32Bytes(id) && req.payload[4] == 2 && req.payload[5..] == EncodeTlvs(Bounds(n));
    DecodeEncode(req.payload, 5, Bounds(n));
    assert SupportsCommand(DefaultProfile(), req.gid, req.oid);
  }

  lemma StartMove(setup: Setup, d: Device, id: uint32, other: Reply)
    requires setup.profile == DefaultProfile()
    requires FindSession(d.sessions, id) < |d.sessions|
    requires var s := d.sessions[FindSession(d.sessions, id)];
             && (s.state == STATE_INIT || s.state == STATE_IDLE) && StartVerdict(DefaultProfile(), s.configs).Accept?
    ensures MoveOf(setup, d, StartReq(id), other) == Transit(FindSession(d.sessions, id), SESSION_START, STATE_ACTIVE)
  {
    hide Decide, StartVerdict, DefaultProfile, U32;
    var req := StartReq(id);
    assert req.payload[..4] == U32Bytes(id);
    StandardSources(d.sessions[FindSession(d.sessions, id)].state);
    StartDecision(d, FindSession(d.sessions, id), req, other);
  }

  /** The data message as the handler reads it. */
  lemma DataFields(id: uint32, sequence: uint16)
    ensures var req := DataReq(id, sequence);
            && |req.payload| == 16 && SessionId(req) == id
            && U16(req.payload[12..14]) == sequence && U16(req.payload[14..16]) == 0
  {
    var req := DataReq(id, sequence);
    assert req.payload[..4] == U32Bytes(id);
    assert req.payload[12..14] == U16Bytes(sequence);
    assert req.payload[14..16] == [0, 0];
  }

  lemma DataMove(setup: Setup, d: Device, id: uint32, sequence: uint16, other: Reply)
    requires setup.profile == DefaultProfile()
    requires FindSession(d.sessions, id) < |d.sessions|
    requires var s := d.sessions[FindSession(d.sessions, id)];
             s.state == STATE_ACTIVE && !s.transferring && !s.hasLastMessage
    ensures MoveOf(setup, d, DataReq(id, sequence), other) == Send(FindSession(d.sessions, id), sequence, 0)
  {
    hide U16, U32, Sent, Repetitions, CreditNtf, TransferNtf, DefaultProfile;
    DataFields(id, sequence);
  }

  // ----- quiet steps -----

  /** A submit after which no event is ready changes sessions and events by the handler's move alone. */
  lemma QuietSubmit(setup: Setup, e: Engine, req: Packet, other: Reply)
    requires var q := Apply(setup, e.dev, MoveOf(setup, e.dev, req, other)).events; NoneReady(q)
    ensures SameCore(Next(setup, e, SubmitPacket(req, other)).dev,
                     Apply(setup, e.dev, MoveOf(setup, e.dev, req, other)))
  {
    hide Receive, MoveOf, Apply, Process, DefaultProfile;
    ReceiveCore(setup, e, req, other);
    var q := Apply(setup, e.dev, MoveOf(setup, e.dev, req, other)).events;
    assert Age(q, 0) == q;
    FirstReadyIs(q, |q|);
  }

  predicate NoneReady(q: seq<Event>) {
    forall i :: 0 <= i < |q| ==> q[i].delay != 0
  }

  /** One slot in use at most, the first. */
  ghost predicate At(e: Engine, s: Session, q: seq<Event>) {
    e.dev.sessions == InitialDevice(DefaultProfile()).sessions[0 := s] && e.dev.events == q
  }

  lemma AtFound(e: Engine, s: Session, q: seq<Event>, id: uint32)
    requires At(e, s, q)
    ensures if s.inUse && s.id == id then FindSession(e.dev.sessions, id) == 0
            else FindSession(e.dev.sessions, id) == |e.dev.sessions|
    ensures !s.inUse ==> FirstFree(e.dev.sessions) == 0
    ensures |e.dev.sessions| == MAX_SESSIONS && e.dev.sessions[0] == s
  {
    var k := FindSession(e.dev.sessions, id);
    assert forall i :: 0 < i < |e.dev.sessions| ==> e.dev.sessions[i] == ZERO_SESSION;
  }

  lemma AtInit(setup: Setup, e: Engine, q: seq<Event>, id: uint32, other: Reply)
    requires setup.profile == DefaultProfile()
    requires At(e, ZERO_SESSION, q) && NoneReady(q)
    ensures At(Next(setup, e, SubmitPacket(InitReq(id), other)), Opened(DefaultProfile(), ZERO_SESSION, id), q)
  {
    hide Next, Opened, MoveOf, InitReq, NoneReady;
    AtFound(e, ZERO_SESSION, q, id);
    InitMove(setup, e.dev, id, other);
    QuietSubmit(setup, e, InitReq(id), other);
  }

  lemma AtDeinit(setup: Setup, e: Engine, s: Session, q: seq<Event>, id: uint32, other: Reply)
    requires setup.profile == DefaultProfile()
    requires At(e, s, q) && NoneReady(q) && s.inUse && s.id == id
    ensures At(Next(setup, e, SubmitPacket(DeinitReq(id), other)), ZERO_SESSION, q)
  {
    hide Next, MoveOf, DeinitReq, NoneReady;
    AtFound(e, s, q, id);
    DeinitMove(setup, e.dev, id, other);
    QuietSubmit(setup, e, DeinitReq(id), other);
  }

  lemma AtStart(e: Engine, s: Session, q: seq<Event>, id: uint32, other: Reply)
    requires At(e, s, q) && NoneReady(q) && |q| < MAX_EVENTS && s.inUse && s.id == id
    requires s.state == STATE_INIT || s.state == STATE_IDLE
    requires StartVerdict(DefaultProfile(), s.configs).Accept? && Interval(DefaultProfile(), s) != 0
    ensures At(Next(STREAMING, e, SubmitPacket(StartReq(id), other)), StartedSession(STREAMING, s),
               q + [Event(RangeData, id, Interval(DefaultProfile(), s))])
  {
    hide Next, MoveOf, StartReq, StartVerdict, IntervalOf;
    AtFound(e, s, q, id);
    StartMove(STREAMING, e.dev, id, other);
    assert STREAMING.profile.burstCount == 3;
    QuietSubmit(STREAMING, e, StartReq(id), other);
  }

  // ----- the default profile starts -----

  predicate Reads(m: Table, id: byte, v: seq<byte>) {
    id in m && m[id] == v
  }

  /** The default values START looks at. */
  predicate GateDefaults(m: Table) {
    && Reads(m, DEVICE_ROLE, [1]) && Reads(m, DEVICE_TYPE, [1]) && Reads(m, MULTI_NODE_MODE, [1])
    && Reads(m, NUMBER_OF_CONTROLEES, [3]) && Reads(m, DST_MAC_ADDRESS, [0x78, 0x56, 0x89, 0x67, 0x9A, 0x78])
    && Reads(m, STS_CONFIG, [1]) && Reads(m, KEY_ROTATION, [1])
    && Reads(m, PRF_MODE, [0]) && Reads(m, PREAMBLE_CODE_INDEX, [0x0C]) && Reads(m, SFD_ID, [2])
  }

  /** A sound table with those values and the default interval, in which the parameters of the SET are stored. */
  ghost predicate Startable(m: Table) {
    && SoundTable(DefaultProfile(), m) && GateDefaults(m) && Reads(m, RANGING_INTERVAL, [0xD0, 0x07, 0, 0])
    && MAX_NUMBER_OF_MEASUREMENTS in m && DATA_REPETITION_COUNT in m
  }

  lemma StartableStarts(m: Table)
    requires Startable(m)
    ensures StartVerdict(DefaultProfile(), m).Accept?
  {
    hide StartVerdict, SoundTable, DefaultProfile, Shaped;
    DefaultStartAcceptedIff(m);
    assert |m[DST_MAC_ADDRESS]| == 6;
    assert Bit(0x05, 2);
  }

  lemma StartableInterval(m: Table)
    requires Startable(m)
    ensures IntervalOf(DefaultProfile(), m) == 2000
  {
    hide SoundTable;
    assert m[RANGING_INTERVAL][..2] == [0xD0, 0x07] && m[RANGING_INTERVAL][2..] == [0, 0];
  }

  lemma DefaultRead(id: byte, v: seq<byte>)
    requires id <= 0x4D && id != 0x48 && v == DefaultValue(id)
    ensures Reads(FreshTable(DefaultTlvs()), id, v)
  {
    DefaultStored(FreshTable(DefaultTlvs()), id);
  }

  lemma FreshStartable()
    ensures Startable(FreshTable(DefaultTlvs()))
  {
    hide FreshTable, SoundTable, DefaultTlvs, Reads;
    DefaultTableSound(FreshTable(DefaultTlvs()));
    DefaultRead(DEVICE_ROLE, [1]);
    DefaultRead(DEVICE_TYPE, [1]);
    DefaultRead(MULTI_NODE_MODE, [1]);
    DefaultRead(NUMBER_OF_CONTROLEES, [3]);
    DefaultRead(DST_MAC_ADDRESS, [0x78, 0x56, 0x89, 0x67, 0x9A, 0x78]);
    DefaultRead(STS_CONFIG, [1]);
    DefaultRead(KEY_ROTATION, [1]);
    DefaultRead(PRF_MODE, [0]);
    DefaultRead(PREAMBLE_CODE_INDEX, [0x0C]);
    DefaultRead(SFD_ID, [2]);
    DefaultRead(RANGING_INTERVAL, [0xD0, 0x07, 0, 0]);
    DefaultStored(FreshTable(DefaultTlvs()), MAX_NUMBER_OF_MEASUREMENTS);
    DefaultStored(FreshTable(DefaultTlvs()), DATA_REPETITION_COUNT);
  }

  // ----- DEINIT of a streaming session -----

  /** The session INIT opens in a new engine. */
  function Newborn(id: uint32): Session {
    Opened(DefaultProfile(), ZERO_SESSION, id)
  }

  function Range(id: uint32): Event {
    Event(RangeData, id, 2000)
  }

  lemma NewbornStartable(id: uint32)
    ensures var s := Newborn(id);
            && s.inUse && s.id == id && s.state == STATE_INIT && s.rangingCount == 0 && !s.transferring
            && !s.hasLastMessage
            && Startable(s.configs)
  {
    hide StoreAll, Startable;
    FreshStartable();
  }

  /** The steps that submit these packets in turn. */
  function Submits(reqs: seq<Packet>, other: Reply): seq<Step> {
    if reqs == [] then [] else [SubmitPacket(reqs[0], other)] + Submits(reqs[1..], other)
  }

  lemma RunFirst(setup: Setup, e: Engine, req: Packet, rest: seq<Packet>, other: Reply)
    ensures Run(setup, e, Submits([req] + rest, other)) ==
            Run(setup, Next(setup, e, SubmitPacket(req, other)), Submits(rest, other))
  {
    hide Next;
    var steps := Submits([req] + rest, other);
    assert ([req] + rest)[1..] == rest;
    assert steps[1..] == Submits(rest, other);
  }

  lemma RunNothing(setup: Setup, e: Engine, other: Reply)
    ensures Run(setup, e, Submits([], other)) == e
  {
    hide Next;
  }

  lemma RunFour(setup: Setup, e: Engine, a: Packet, b: Packet, c: Packet, d: Packet, other: Reply)
    ensures var e1 := Next(setup, e, SubmitPacket(a, other));
            var e2 := Next(setup, e1, SubmitPacket(b, other));
            var e3 := Next(setup, e2, SubmitPacket(c, other));
            Run(setup, e, Submits([a, b, c, d], other)) == Next(setup, e3, SubmitPacket(d, other))
  {
    hide Next, Submits;
    var e1 := Next(setup, e, SubmitPacket(a, other));
    var e2 := Next(setup, e1, SubmitPacket(b, other));
    var e3 := Next(setup, e2, SubmitPacket(c, other));
    RunFirst(setup, e, a, [b, c, d], other);
    RunFirst(setup, e1, b, [c, d], other);
    RunFirst(setup, e2, c, [d], other);
    RunFirst(setup, e3, d, [], other);
    RunNothing(setup, Next(setup, e3, SubmitPacket(d, other)), other);
    assert [a, b, c, d] == [a] + [b, c, d] && [b, c, d] == [b] + [c, d] && [c, d] == [c] + [d] && [d] == [d] + [];
  }

  lemma RunFive(setup: Setup, e: Engine, a: Packet, b: Packet, c: Packet, d: Packet, f: Packet, other: Reply)
    ensures var e1 := Next(setup, e, SubmitPacket(a, other));
            var e2 := Next(setup, e1, SubmitPacket(b, other));
            var e3 := Next(setup, e2, SubmitPacket(c, other));
            var e4 := Next(setup, e3, SubmitPacket(d, other));
            Run(setup, e, Submits([a, b, c, d, f], other)) == Next(setup, e4, SubmitPacket(f, other))
  {
    hide Next, Submits;
    RunFirst(setup, e, a, [b, c, d, f], other);
    RunFour(setup, Next(setup, e, SubmitPacket(a, other)), b, c, d, f, other);
    assert [a, b, c, d, f] == [a] + [b, c, d, f];
  }

  /** INIT, START, DEINIT, INIT, START. */
  function RebirthPackets(id: uint32): seq<Packet> {
    [InitReq(id), StartReq(id), DeinitReq(id), InitReq(id), StartReq(id)]
  }

  lemma AtRebirth(id: uint32, other: Reply)
    ensures At(Run(STREAMING, Initial(STREAMING), Submits(RebirthPackets(id), other)),
               StartedSession(STREAMING, Newborn(id)),
               [Range(id)] + [Range(id)])
  {
    hide Next, Startable, InitReq, StartReq, DeinitReq, Opened, STREAMING, Run, Submits, StartedSession, At;
    var s, q := Newborn(id), [Range(id)];
    var e0 := Initial(STREAMING);
    var e1 := Next(STREAMING, e0, SubmitPacket(InitReq(id), other));
    var e2 := Next(STREAMING, e1, SubmitPacket(StartReq(id), other));
    var e3 := Next(STREAMING, e2, SubmitPacket(DeinitReq(id), other));
    var e4 := Next(STREAMING, e3, SubmitPacket(InitReq(id), other));
    RunFive(STREAMING, e0, InitReq(id), StartReq(id), DeinitReq(id), InitReq(id), StartReq(id), other);
    NewbornStartable(id);
    DefaultBoth();
    AtNew();
    AtInit(STREAMING, e0, [], id, other);
    AtFirstStart(e1, s, [], id, other);
    assert [] + q == q;
    StartedSame(s);
    AtDeinit(STREAMING, e2, StartedSession(STREAMING, s), q, id, other);
    AtInit(STREAMING, e3, q, id, other);
    AtFirstStart(e4, s, q, id, other);
  }

  /** From a new engine: the session created again has two range events queued, and ownership is lost. */
  lemma DeinitDoublesStream(id: uint32, other: Reply)
    ensures var e := Run(STREAMING, Initial(STREAMING), Submits(RebirthPackets(id), other));
            RangeEvents(e.dev.events, id) == 2 && !Owned(e.dev)
  {
    hide STREAMING, RangeEvents, Owned, Run, Submits, StartedSession, RebirthPackets;
    var q := [Range(id)];
    AtRebirth(id, other);
    RangeEventsAppend([], Range(id));
    RangeEventsAppend(q, Range(id));
    NoRangeEvents(id);
    assert [] + q == q;
    TwoEventsTwoPlaces(q + q, id);
    NotOwned(Run(STREAMING, Initial(STREAMING), Submits(RebirthPackets(id), other)),
             StartedSession(STREAMING, Newborn(id)), q + q);
  }

  /** A stream under its budget is not stopped by the next measurement. */
  lemma NotStopped(d: Device, s: Session, event: Event)
    requires FindSession(d.sessions, event.session) < |d.sessions|
             && d.sessions[FindSession(d.sessions, event.session)] == s
    requires Budget(s) == 16 && s.rangingCount == 0
    ensures !BudgetStop(STREAMING, d, event)
  {
    hide Emit, Budget, Measures, STREAMING;
    EmitCancelsIff(STREAMING, s, Room(d), d.nextSequence);
  }

  lemma NewbornBudget(id: uint32)
    ensures Budget(StartedSession(STREAMING, Newborn(id))) == 16
            && StartedSession(STREAMING, Newborn(id)).rangingCount == 0
  {
    hide FreshTable, STREAMING, StartedSession, StoreAll;
    DefaultRead(MAX_NUMBER_OF_MEASUREMENTS, [0x10, 0]);
    StartedSame(Newborn(id));
    assert Newborn(id).configs == FreshTable(DefaultTlvs()) by { NewbornTable(id); }
  }

  lemma NewbornTable(id: uint32)
    ensures Newborn(id).configs == FreshTable(DefaultTlvs())
  {
    hide StoreAll, DefaultTlvs, DefaultLimits, DefaultFaults, DefaultAppConfigIds;
  }

  /** It is then measured twice in one interval: after an unsafe DEINIT the measurement rate no longer holds. */
  lemma DeinitDoublesRate(id: uint32, other: Reply) returns (e: Engine, s: Session)
    ensures e == Run(STREAMING, Initial(STREAMING), Submits(RebirthPackets(id), other))
    ensures At(e, s, [Range(id), Range(id)]) && s.id == id && Interval(DefaultProfile(), s) == Range(id).delay
    ensures Measurements(STREAMING, e, [Wait(2000), Wait(0)], id) == 2
    ensures TotalTime([Wait(2000), Wait(0)]) == Range(id).delay
  {
    hide STREAMING, Run, Submits, StartedSession, RebirthPackets, Next, Newborn, DefaultProfile, IntervalOf, Budget,
        Serve, Measurements, TotalTime;
    AtRebirth(id, other);
    e, s := Run(STREAMING, Initial(STREAMING), Submits(RebirthPackets(id), other)),
        StartedSession(STREAMING, Newborn(id));
    NewbornStartable(id);
    StartableInterval(Newborn(id).configs);
    StartedSame(Newborn(id));
    AtFound(e, s, e.dev.events, id);
    var b := Elapsed(e, 2000);
    assert b.dev.events == [Event(RangeData, id, 0), Event(RangeData, id, 0)];
    NewbornBudget(id);
    NotStopped(b.dev, s, b.dev.events[0]);
    var j := ServeMovesUp(STREAMING, b, 1);
    TwoServed(e, id);
  }

  lemma TwoServed(e: Engine, id: uint32)
    requires FirstReady(Elapsed(e, 2000).dev.events) < |e.dev.events|
    requires IsRange(Elapsed(e, 2000).dev.events[FirstReady(Elapsed(e, 2000).dev.events)], id)
    requires var q := Serve(STREAMING, Elapsed(e, 2000)).engine.dev.events; q != [] && q[0] == Event(RangeData, id, 0)
    ensures Measurements(STREAMING, e, [Wait(2000), Wait(0)], id) == 2 && TotalTime([Wait(2000), Wait(0)]) == 2000
  {
    hide Serve, STREAMING;
    var waits := [Wait(2000), Wait(0)];
    assert waits[1..] == [Wait(0)] && [Wait(0)][1..] == [];
    var e' := Next(STREAMING, e, Wait(2000));
    assert Elapsed(e', 0).dev.events[0] == Event(RangeData, id, 0);
    assert Measurements(STREAMING, e', [Wait(0)], id) ==
           1 + Measurements(STREAMING, Next(STREAMING, e', Wait(0)), [], id);
  }

  lemma NoRangeEvents(id: uint32)
    ensures RangeEvents([], id) == 0
  {
  }

  lemma StartedSame(s: Session)
    ensures var t := StartedSession(STREAMING, s);
            && t.inUse == s.inUse && t.id == s.id && t.state == STATE_ACTIVE && t.configs == s.configs
            && t.streamRemaining == 3 && t.rangingCount == s.rangingCount
            && t.transferring == s.transferring && t.hasLastMessage == s.hasLastMessage
  {
    hide IntervalOf, DefaultLimits, DefaultFaults, DefaultTlvs, DefaultAppConfigIds;
  }

  lemma AtFirstStart(e: Engine, s: Session, q: seq<Event>, id: uint32, other: Reply)
    requires At(e, s, q) && NoneReady(q) && |q| < MAX_EVENTS && s.inUse && s.id == id
    requires (s.state == STATE_INIT || s.state == STATE_IDLE) && Startable(s.configs)
    ensures At(Next(STREAMING, e, SubmitPacket(StartReq(id), other)), StartedSession(STREAMING, s), q + [Range(id)])
  {
    hide Next, Startable, StartReq, StartVerdict, IntervalOf, StartedSession, At;
    StartableStarts(s.configs);
    StartableInterval(s.configs);
    AtStart(e, s, q, id, other);
  }

  lemma NotOwned(e: Engine, s: Session, q: seq<Event>)
    requires At(e, s, q) && !OnePerKind(q)
    ensures e.dev.events == q && !Owned(e.dev)
  {
  }

  lemma AtNew()
    ensures At(Initial(STREAMING), ZERO_SESSION, [])
  {
  }

  // ----- a budget stop during a transfer -----

  function Transfer(id: uint32): Event {
    Event(DataTransfer, id, 2000)
  }

  /** The session with the two parameters of the SET stored. */
  function Limited(s: Session, n: byte): Session {
    s.(configs := s.configs[MAX_NUMBER_OF_MEASUREMENTS := [1, 0]][DATA_REPETITION_COUNT := [n]])
  }

  /** A parameter that has no check and no follow-up and is already stored is simply replaced. */
  lemma PlainSet(s: Session, q: seq<Event>, t: Tlv)
    requires t.id == MAX_NUMBER_OF_MEASUREMENTS || t.id == DATA_REPETITION_COUNT
    requires t.id in s.configs && |t.value| <= 2
    ensures ApplyTlv(DefaultProfile(), s, q, t) == Configured(s.(configs := s.configs[t.id := t.value]), q, None)
  {
    var ids := DefaultAppConfigIds();
    assert ids[t.id] == t.id;
  }

  lemma BoundsStored(s: Session, q: seq<Event>, n: byte)
    requires MAX_NUMBER_OF_MEASUREMENTS in s.configs && DATA_REPETITION_COUNT in s.configs
    ensures ApplyTlvs(DefaultProfile(), s, q, Bounds(n)) == Configured(Limited(s, n), q, None)
  {
    hide ApplyTlv, DefaultProfile;
    var tlvs := Bounds(n);
    var s1 := s.(configs := s.configs[tlvs[0].id := tlvs[0].value]);
    PlainSet(s, q, tlvs[0]);
    PlainSet(s1, q, tlvs[1]);
    assert tlvs[1..] == [tlvs[1]] && tlvs[1..][1..] == [];
    assert ApplyTlvs(DefaultProfile(), s1, q, [tlvs[1]]) == ApplyTlvs(DefaultProfile(), Limited(s, n), q, []);
  }

  lemma LimitedStartable(s: Session, n: byte)
    requires Startable(s.configs)
    ensures Startable(Limited(s, n).configs) && Budget(Limited(s, n)) == 1 && Repetitions(Limited(s, n)) == n
  {
    hide SoundTable, CrossChecks, AppConfigVerdict;
    var m := s.configs;
    SetKeepsSound(DefaultProfile(), m, MAX_NUMBER_OF_MEASUREMENTS, [1, 0]);
    SetKeepsSound(DefaultProfile(), m[MAX_NUMBER_OF_MEASUREMENTS := [1, 0]], DATA_REPETITION_COUNT, [n]);
  }

  lemma AtSet(setup: Setup, e: Engine, s: Session, q: seq<Event>, id: uint32, n: byte, other: Reply)
    requires setup.profile == DefaultProfile()
    requires At(e, s, q) && NoneReady(q) && s.inUse && s.id == id
    requires MAX_NUMBER_OF_MEASUREMENTS in s.configs && DATA_REPETITION_COUNT in s.configs
    ensures At(Next(setup, e, SubmitPacket(SetReq(id, n), other)), Limited(s, n), q)
  {
    hide Next, MoveOf, SetReq, NoneReady, ApplyTlvs, Limited, Bounds;
    AtFound(e, s, q, id);
    SetMove(setup, e.dev, id, n, other);
    BoundsStored(s, q, n);
    QuietSubmit(setup, e, SetReq(id, n), other);
  }

  lemma AtData(setup: Setup, e: Engine, s: Session, q: seq<Event>, id: uint32, sequence: uint16, other: Reply)
    requires setup.profile == DefaultProfile()
    requires At(e, s, q) && NoneReady(q) && |q| < MAX_EVENTS && s.inUse && s.id == id
    requires s.state == STATE_ACTIVE && !s.transferring && !s.hasLastMessage
    requires Repetitions(s) > 0 && Interval(DefaultProfile(), s) != 0
    ensures At(Next(setup, e, SubmitPacket(DataReq(id, sequence), other)), Sent(DefaultProfile(), s, q, sequence, 0).0,
               q + [Event(DataTransfer, id, Interval(DefaultProfile(), s))])
  {
    hide Next, MoveOf, DataReq, IntervalOf, Repetitions;
    AtFound(e, s, q, id);
    DataMove(setup, e.dev, id, sequence, other);
    QuietSubmit(setup, e, DataReq(id, sequence), other);
  }

  /** Serving the range event takes the last measurement and cancels the transfer's event. */
  lemma LastServed(d: Device, s: Session, id: uint32) returns (t: Session)
    requires d.sessions != [] && d.sessions[0] == s && d.events == [Event(DataTransfer, id, 0)] && d.pending == []
    requires s.inUse && s.id == id && Streaming(STREAMING, s) && Budget(s) == 1 && s.rangingCount == 0
    ensures t == ServedSession(STREAMING, d, Event(RangeData, id, 0), 0)
    ensures ServedEvents(STREAMING, d, Event(RangeData, id, 0), 0) == []
    ensures t.state == STATE_IDLE && t.transferring == s.transferring && t.txCount == s.txCount
    ensures t.inUse && t.id == id && t.configs == s.configs
  {
    hide Emit, Evaluate, InitSample, Budget, Streaming, DefaultLimits, DefaultFaults, DefaultTlvs, DefaultAppConfigIds;
    assert StopsAtBudget(STREAMING, s, Room(d));
    EmitStops(STREAMING, s, Room(d), d.nextSequence);
    EmitFrame(STREAMING, s, Room(d), d.nextSequence);
    t := Emit(STREAMING, s, Room(d), d.nextSequence).session;
    OneCancelled(d.events[0]);
  }

  lemma OneCancelled(e: Event)
    ensures Cancel([e], e.session) == []
  {
    assert [e][..0] == [];
    assert Without([e], Option<EventKind>.None, e.session) == Without([e][..0], Option<EventKind>.None, e.session);
  }

  /** The interval passes and the range event is served first. */
  lemma AtStop(e: Engine, s: Session, id: uint32) returns (t: Session)
    requires At(e, s, [Range(id), Transfer(id)]) && e.dev.pending == [] && s.inUse && s.id == id
    requires Streaming(STREAMING, s) && Budget(s) == 1 && s.rangingCount == 0
    ensures At(Next(STREAMING, e, Wait(2000)), t, [])
    ensures t.state == STATE_IDLE && t.transferring == s.transferring && t.txCount == s.txCount
    ensures t.inUse && t.id == id && t.configs == s.configs
  {
    hide Process, ServedSession, ServedEvents, Budget, Streaming, STREAMING;
    var b := Elapsed(e, 2000);
    assert b.dev.events == [Event(RangeData, id, 0), Event(DataTransfer, id, 0)];
    var d := b.dev.(events := [Event(DataTransfer, id, 0)]);
    assert FirstReady(b.dev.events) == 0 && RemoveAt(b.dev.events, 0) == d.events;
    AtFound(e, s, e.dev.events, id);
    ProcessCore(STREAMING, b.(dev := d), b.dev.events[0]);
    t := LastServed(d, s, id);
  }

  /** One step of the draining host from a described, drained state. */
  lemma HostAt(e: Engine, step: Step, s: Session, q: seq<Event>)
    requires Drained(e) && At(Next(STREAMING, e, step), s, q)
    ensures At(HostNext(STREAMING, e, step), s, q) && Drained(HostNext(STREAMING, e, step))
  {
    hide Next, StepProduced;
    StepInOrder(STREAMING, e, step);
  }

  lemma HostFirst(e: Engine, steps: seq<Step>)
    requires steps != []
    ensures HostRun(STREAMING, e, steps) == HostRun(STREAMING, HostNext(STREAMING, e, steps[0]), steps[1..])
  {
    hide HostNext, STREAMING;
  }

  /** INIT, SET and START leave a limited stream. */
  lemma LimitedStream(id: uint32, sequence: uint16, other: Reply) returns (e: Engine, s: Session)
    ensures var steps := StrandingSteps(id, sequence, other);
            HostRun(STREAMING, Initial(STREAMING), steps) == HostRun(STREAMING, e, steps[3..])
    ensures Drained(e) && At(e, s, [Range(id)]) && s == StartedSession(STREAMING, Limited(Newborn(id), 1))
  {
    hide HostNext, HostRun, STREAMING, Startable, Opened, Limited, At, InitReq, SetReq, StartReq, DataReq,
        StartedSession;
    var steps, e0, born := StrandingSteps(id, sequence, other), Initial(STREAMING), Newborn(id);
    var e1 := HostNext(STREAMING, e0, steps[0]);
    var e2 := HostNext(STREAMING, e1, steps[1]);
    e, s := HostNext(STREAMING, e2, steps[2]), StartedSession(STREAMING, Limited(born, 1));
    HostFirst(e0, steps);
    HostFirst(e1, steps[1..]);
    HostFirst(e2, steps[2..]);
    assert steps[1..][1..] == steps[2..] && steps[2..][1..] == steps[3..];
    DefaultBoth();
    AtNew();
    NewbornStartable(id);
    LimitedSame(born, 1);
    LimitedStartable(born, 1);
    AtInit(STREAMING, e0, [], id, other);
    HostAt(e0, steps[0], born, []);
    AtSet(STREAMING, e1, born, [], id, 1, other);
    HostAt(e1, steps[1], Limited(born, 1), []);
    AtFirstStart(e2, Limited(born, 1), [], id, other);
    assert [] + [Range(id)] == [Range(id)];
    HostAt(e2, steps[2], s, [Range(id)]);
  }

  lemma LimitedSame(s: Session, n: byte)
    ensures Limited(s, n) == s.(configs := Limited(s, n).configs)
    ensures Startable(s.configs) ==> MAX_NUMBER_OF_MEASUREMENTS in s.configs && DATA_REPETITION_COUNT in s.configs
  {
  }

  /** The packets and the wait that strand a transfer, and a START after it. */
  function StrandingSteps(id: uint32, sequence: uint16, other: Reply): seq<Step> {
    [SubmitPacket(InitReq(id), other), SubmitPacket(SetReq(id, 1), other), SubmitPacket(StartReq(id), other),
     SubmitPacket(DataReq(id, sequence), other), Wait(2000), SubmitPacket(StartReq(id), other)]
  }

  /** DATA, the wait and the second START: active, its transfer in progress, and only a range event queued. */
  lemma StrandedSession(id: uint32, sequence: uint16, other: Reply) returns (t: Session)
    ensures At(HostRun(STREAMING, Initial(STREAMING), StrandingSteps(id, sequence, other)), t, [Range(id)])
    ensures t.inUse && t.id == id && t.state == STATE_ACTIVE && t.streamRemaining > 0 && t.transferring
            && t.txCount == 0
  {
    hide HostNext, HostRun, STREAMING, Startable, Newborn, Limited, At, InitReq, SetReq, StartReq, DataReq,
        StartedSession, Sent, Budget, Repetitions, IntervalOf;
    var steps := StrandingSteps(id, sequence, other);
    var e3, s := LimitedStream(id, sequence, other);
    var e4 := HostNext(STREAMING, e3, steps[3]);
    var e5 := HostNext(STREAMING, e4, steps[4]);
    var e6 := HostNext(STREAMING, e5, steps[5]);
    HostFirst(e3, steps[3..]);
    HostFirst(e4, steps[4..]);
    HostFirst(e5, steps[5..]);
    assert steps[3..][1..] == steps[4..] && steps[4..][1..] == steps[5..] && steps[5..][1..] == [];
    DefaultBoth();
    HostNone(e6);
    NewbornStartable(id);
    LimitedSame(Newborn(id), 1);
    LimitedStartable(Newborn(id), 1);
    StartedSame(Limited(Newborn(id), 1));
    StartableInterval(s.configs);
    SameReads(s, Limited(Newborn(id), 1));
    AtData(STREAMING, e3, s, [Range(id)], id, sequence, other);
    assert [Range(id)] + [Transfer(id)] == [Range(id), Transfer(id)];
    var sent := Sent(DefaultProfile(), s, [Range(id)], sequence, 0).0;
    HostAt(e3, steps[3], sent, [Range(id), Transfer(id)]);
    SentStreams(s, [Range(id)], sequence);
    var stopped := AtStop(e4, sent, id);
    HostAt(e4, steps[4], stopped, []);
    t := StartedSession(STREAMING, stopped);
    AtFirstStart(e5, stopped, [], id, other);
    StartedSame(stopped);
    StartedTx(stopped);
    assert [] + [Range(id)] == [Range(id)];
    HostAt(e5, steps[5], t, [Range(id)]);
  }

  lemma HostNone(e: Engine)
    ensures HostRun(STREAMING, e, []) == e
  {
    hide STREAMING;
  }

  lemma SameReads(s: Session, t: Session)
    requires s.configs == t.configs
    ensures Budget(s) == Budget(t) && Repetitions(s) == Repetitions(t)
  {
  }

  lemma StartedTx(s: Session)
    ensures StartedSession(STREAMING, s).txCount == s.txCount
  {
    hide IntervalOf, DefaultLimits, DefaultFaults, DefaultTlvs, DefaultAppConfigIds;
  }

  lemma SentStreams(s: Session, q: seq<Event>, sequence: uint16)
    requires s.state == STATE_ACTIVE && s.streamRemaining == 3 && |q| < MAX_EVENTS && Repetitions(s) > 0
    ensures var t := Sent(DefaultProfile(), s, q, sequence, 0).0;
            && Streaming(STREAMING, t) && t.transferring && t.txCount == 0 && Budget(t) == Budget(s)
            && t.inUse == s.inUse && t.id == s.id && t.configs == s.configs && t.rangingCount == s.rangingCount
  {
    hide IntervalOf, DefaultProfile, Repetitions;
  }

  /**
   INIT, SET, START and DATA on a new engine, then the interval passes and the session is
   started again, with a host that drains after every step: the session is active with its
   transfer marked in progress, nothing queued carries it on, and every further data
   message is rebuffed as ongoing.
   */
  lemma BudgetStrandsTransfer(id: uint32, sequence: uint16, other: Reply)
    ensures var d := HostRun(STREAMING, Initial(STREAMING), StrandingSteps(id, sequence, other)).dev;
            && Owned(d) && !CarriedFor(d, id)
            && forall next: uint16 :: DecideData(DefaultProfile(), d, DataReq(id, next)) ==
                Rebuff(id, next, TRANSFER_ONGOING, 0)
  {
    hide HostRun, STREAMING, StrandingSteps, DefaultProfile, DataReq;
    DefaultBoth();
    var t := StrandedSession(id, sequence, other);
    var e := HostRun(STREAMING, Initial(STREAMING), StrandingSteps(id, sequence, other));
    AtFound(e, t, [Range(id)], id);
    assert Working(e.dev.sessions[0], Range(id).kind);
    forall next: uint16
      ensures DecideData(DefaultProfile(), e.dev, DataReq(id, next)) == Rebuff(id, next, TRANSFER_ONGOING, 0)
    {
      OngoingRebuff(e.dev, id, next);
    }
  }

  lemma OngoingRebuff(d: Device, id: uint32, sequence: uint16)
    requires FindSession(d.sessions, id) < |d.sessions|
    requires var s := d.sessions[FindSession(d.sessions, id)]; s.state == STATE_ACTIVE && s.transferring
    ensures DecideData(DefaultProfile(), d, DataReq(id, sequence)) ==
            Rebuff(id, sequence, TRANSFER_ONGOING, d.sessions[FindSession(d.sessions, id)].txCount)
  {
    hide U16, U32, DefaultProfile, DecideNewMessage, TransferNtf;
    DataFields(id, sequence);
  }

  // ----- a repetition that finds the pending queue full -----

  /** START outside the streaming scenario queues nothing. */
  lemma AtPlainStart(e: Engine, s: Session, q: seq<Event>, id: uint32, other: Reply)
    requires At(e, s, q) && NoneReady(q) && s.inUse && s.id == id
    requires (s.state == STATE_INIT || s.state == STATE_IDLE) && Startable(s.configs)
    ensures At(Next(DEFERRING, e, SubmitPacket(StartReq(id), other)), Entered(s, SESSION_START, STATE_ACTIVE), q)
  {
    hide Next, MoveOf, StartReq, StartVerdict, Startable, NoneReady;
    DefaultBoth();
    StartableStarts(s.configs);
    AtFound(e, s, q, id);
    StartMove(DEFERRING, e.dev, id, other);
    QuietSubmit(DEFERRING, e, StartReq(id), other);
  }

  /** A transfer in progress with repetitions left. */
  predicate Repeating(s: Session, id: uint32) {
    s.inUse && s.id == id && s.state == STATE_ACTIVE && s.transferring && s.repetitionsLeft > 0
        && IntervalOf(DefaultProfile(), s.configs) == 2000
  }

  /**
   The interval passes: one repetition is reported into the pending queue, or finds no room there and
   is not re-armed.
   */
  lemma AtWait(e: Engine, s: Session, id: uint32)
    requires At(e, s, [Transfer(id)]) && Repeating(s, id)
    ensures var e' := Next(DEFERRING, e, Wait(2000));
            && At(e', Advance(s).session, if Room(e.dev) > 0 then [Transfer(id)] else [])
            && (Room(e.dev) > 0 ==> Room(e'.dev) == Room(e.dev) - 1)
  {
    hide IntervalOf, TransferNtf, DefaultProfile;
    DefaultBoth();
    var b := Elapsed(e, 2000);
    assert b.dev.events == [Event(DataTransfer, id, 0)];
    AtFound(e, s, e.dev.events, id);
    assert FirstReady(b.dev.events) == 0 && RemoveAt(b.dev.events, 0) == [];
    AtFound(b.(dev := b.dev.(events := [])), s, [], id);
    ProcessCore(DEFERRING, b.(dev := b.dev.(events := [])), b.dev.events[0]);
  }

  function Waits(n: nat): seq<Step> {
    if n == 0 then [] else [Wait(2000)] + Waits(n - 1)
  }

  /** Each repetition fills one place of the pending queue; the one that finds none is the last. */
  lemma {:induction false} QueueFills(e: Engine, s: Session, id: uint32) returns (t: Session)
    requires At(e, s, [Transfer(id)]) && Repeating(s, id) && s.repetitionsLeft > Room(e.dev)
             && s.txCount + s.repetitionsLeft < WRAP8
    ensures At(Run(DEFERRING, e, Waits(Room(e.dev) + 1)), t, [])
    ensures t.inUse && t.id == id && t.state == STATE_ACTIVE && t.transferring
            && t.txCount == s.txCount + Room(e.dev) + 1
    decreases Room(e.dev)
  {
    hide Next, At, IntervalOf, DEFERRING;
    var e' := Next(DEFERRING, e, Wait(2000));
    var n := Room(e.dev);
    AtWait(e, s, id);
    assert Waits(n + 1)[1..] == Waits(n);
    t := Advance(s).session;
    if n > 0 { t := QueueFills(e', t, id); }
  }

  lemma RoomAtMost(d: Device)
    ensures Room(d) <= MAX_PENDING
  {
  }

  lemma StrandedHere(e: Engine, t: Session, id: uint32)
    requires At(e, t, []) && t.inUse && t.id == id && t.transferring
    ensures Owned(e.dev) && !CarriedFor(e.dev, id)
    ensures FindSession(e.dev.sessions, id) < |e.dev.sessions| && e.dev.sessions[FindSession(e.dev.sessions, id)] == t
  {
    AtFound(e, t, [], id);
  }

  /** INIT, SET and START in the deferring scenario. */
  lemma DeferredActive(id: uint32, n: byte, other: Reply) returns (e: Engine, s: Session)
    ensures var e1 := Next(DEFERRING, Initial(DEFERRING), SubmitPacket(InitReq(id), other));
            e == Next(DEFERRING, Next(DEFERRING, e1, SubmitPacket(SetReq(id, n), other)),
                      SubmitPacket(StartReq(id), other))
    ensures At(e, s, []) && s.inUse && s.id == id && s.state == STATE_ACTIVE && !s.transferring && !s.hasLastMessage
    ensures Repetitions(s) == n && IntervalOf(DefaultProfile(), s.configs) == 2000
  {
    hide Next, DEFERRING, At, InitReq, SetReq, StartReq, Startable, Opened, Limited, IntervalOf, Repetitions;
    var e0, s1, s2 := Initial(DEFERRING), Newborn(id), Limited(Newborn(id), n);
    var e1 := Next(DEFERRING, e0, SubmitPacket(InitReq(id), other));
    var e2 := Next(DEFERRING, e1, SubmitPacket(SetReq(id, n), other));
    e, s := Next(DEFERRING, e2, SubmitPacket(StartReq(id), other)), Entered(s2, SESSION_START, STATE_ACTIVE);
    DefaultBoth();
    AtNewDeferring();
    NewbornStartable(id);
    LimitedSame(s1, n);
    LimitedStartable(s1, n);
    StartableInterval(s2.configs);
    AtInit(DEFERRING, e0, [], id, other);
    AtSet(DEFERRING, e1, s1, [], id, n, other);
    AtPlainStart(e2, s2, [], id, other);
    SameReads(s, s2);
  }

  /** INIT, SET, START and DATA begin a transfer of that many repetitions. */
  lemma DeferredTransfer(id: uint32, sequence: uint16, n: byte, other: Reply) returns (e: Engine, s: Session)
    requires n > 0
    ensures var packets := [InitReq(id), SetReq(id, n), StartReq(id), DataReq(id, sequence)];
            e == Run(DEFERRING, Initial(DEFERRING), Submits(packets, other))
    ensures At(e, s, [Transfer(id)]) && Repeating(s, id) && s.repetitionsLeft == n && s.txCount == 0
  {
    hide Run, Next, DEFERRING, Submits, At, InitReq, SetReq, StartReq, DataReq, IntervalOf, Repetitions;
    var e3, s3 := DeferredActive(id, n, other);
    e, s := Next(DEFERRING, e3, SubmitPacket(DataReq(id, sequence), other)),
        Sent(DefaultProfile(), s3, [], sequence, 0).0;
    RunFour(DEFERRING, Initial(DEFERRING), InitReq(id), SetReq(id, n), StartReq(id), DataReq(id, sequence), other);
    DefaultBoth();
    AtData(DEFERRING, e3, s3, [], id, sequence, other);
    assert [] + [Transfer(id)] == [Transfer(id)];
  }

  lemma AtNewDeferring()
    ensures At(Initial(DEFERRING), ZERO_SESSION, [])
  {
  }

  /**
   A host of the deferring scenario that sends INIT, SET, START and DATA and then only
   waits, with more repetitions configured than the pending queue can hold: within one
   wait more than the queue has places the transfer is stranded, and every further data
   message is rebuffed as ongoing.
   */
  lemma FullQueueStrandsTransfer(id: uint32, sequence: uint16, n: byte, other: Reply) returns (waits: nat)
    requires n > MAX_PENDING
    ensures waits <= MAX_PENDING + 1
    ensures var packets := [InitReq(id), SetReq(id, n), StartReq(id), DataReq(id, sequence)];
            var d := Run(DEFERRING, Initial(DEFERRING), Submits(packets, other) + Waits(waits)).dev;
            && Owned(d) && !CarriedFor(d, id)
            && forall next: uint16 :: DecideData(DefaultProfile(), d, DataReq(id, next)) ==
                Rebuff(id, next, TRANSFER_ONGOING, waits)
  {
    hide Run, Next, DEFERRING, Submits, At, DefaultProfile, DataReq, SetReq, InitReq, StartReq, DecideData, Repeating,
        Room;
    var packets := [InitReq(id), SetReq(id, n), StartReq(id), DataReq(id, sequence)];
    var e, s := DeferredTransfer(id, sequence, n, other);
    RoomAtMost(e.dev);
    var t := QueueFills(e, s, id);
    waits := Room(e.dev) + 1;
    RunAppend(DEFERRING, Initial(DEFERRING), Submits(packets, other), Waits(waits));
    var e' := Run(DEFERRING, e, Waits(waits));
    StrandedHere(e', t, id);
    forall next: uint16
      ensures DecideData(DefaultProfile(), e'.dev, DataReq(id, next)) == Rebuff(id, next, TRANSFER_ONGOING, waits)
    {
      OngoingRebuff(e'.dev, id, next);
    }
  }
}
