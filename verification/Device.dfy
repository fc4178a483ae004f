/**
 The device state and the moves that change it. Every packet handler changes
 sessions, events and configuration by exactly one move; ticks age the queue
 and serve one event.
 */
module Devices {
  import opened Types
  import opened PacketCodec
  import opened Profiles
  import opened ConfigTables
  import opened LogicalLinks
  import opened EventQueues
  import opened Validation
  import opened StartGate
  import opened Sessions

  const MAX_SESSIONS := 8

  datatype Device = Device(
    state: byte, configs: Table, nextSequence: uint32,
    sessions: seq<Session>, events: seq<Event>, pending: seq<Packet>)

  function InitialConfigs(p: Profile): Table {
    map[DEVICE_CONFIG_STATE := [p.deviceState], DEVICE_CONFIG_LOW_POWER := [p.lowPowerMode],
        DEVICE_CONFIG_PAN_ID := [p.panId.0, p.panId.1]]
  }

  function InitialDevice(p: Profile): Device {
    Device(p.deviceState, InitialConfigs(p), 1, seq(MAX_SESSIONS, i => ZERO_SESSION), [], [])
  }

  // ----- looking up sessions -----

  /** Slot of the first allocated session with an id, or the number of slots. */
  function FindSession(sessions: seq<Session>, id: uint32): (i: nat)
    ensures i <= |sessions|
    ensures i < |sessions| ==> sessions[i].inUse && sessions[i].id == id
    ensures forall j :: 0 <= j < i ==> !(sessions[j].inUse && sessions[j].id == id)
  {
    if sessions == [] || (sessions[0].inUse && sessions[0].id == id) then 0 else 1 + FindSession(sessions[1..], id)
  }

  function FirstFree(sessions: seq<Session>): (i: nat)
    ensures i <= |sessions|
    ensures i < |sessions| ==> !sessions[i].inUse
    ensures forall j :: 0 <= j < i ==> sessions[j].inUse
  {
    if sessions == [] || !sessions[0].inUse then 0 else 1 + FirstFree(sessions[1..])
  }

  // ----- setting application parameters -----

  /** A session and the event queue after some parameters, and the status when one of them stopped the request. */
  datatype Configured = Configured(session: Session, events: seq<Event>, stop: Option<byte>)

  /** Setting a notification parameter forgets the last proximity state. */
  function ForgetProximity(s: Session, id: byte): Session {
    if id == NTF_CONFIG || id == PROXIMITY_NEAR || id == PROXIMITY_FAR then
      s.(hasProximity := false, inProximity := false)
    else s
  }

  predicate Rearms(s: Session, id: byte) {
    id == RANGING_INTERVAL && s.state == STATE_ACTIVE && s.streamRemaining > 0
  }

  function RangeEvent(p: Profile, s: Session): Event {
    Event(RangeData, s.id, Interval(p, s))
  }

  /** The status that stops a parameter before it is stored: unsupported, rejected at once, or not storable. */
  function Refusal(p: Profile, m: Table, t: Tlv): Option<byte> {
    if t.id !in p.appConfigIds then Some(STATUS_INVALID_PARAM)
    else if !Admits(p, m, t.id, t.value) then Some(AppConfigVerdict(p, m, t.id, t.value).rejection.status)
    else if Store(m, MAX_SESSION_CONFIGS, t.id, t.value).None? then Some(STATUS_REJECTED)
    else None
  }

  /** What follows the store of a parameter in a session. */
  function FollowUp(p: Profile, s: Session, q: seq<Event>, id: byte): Configured {
    var s' := ForgetProximity(s, id);
    if !Rearms(s', id) then Configured(s', q, None)
    else
      var q' := Reschedule(q, RangeEvent(p, s'));
      if q'.Some? then Configured(s', q'.value, None)
      else Configured(s', Without(q, Some(RangeData), s.id), Some(STATUS_REJECTED))
  }

  /** Storing a parameter nothing refused; a new interval re-arms a running stream. */
  function SetTlv(p: Profile, s: Session, q: seq<Event>, t: Tlv): Configured {
    FollowUp(p, s.(configs := s.configs[t.id := t.value]), q, t.id)
  }

  function ApplyTlv(p: Profile, s: Session, q: seq<Event>, t: Tlv): Configured {
    var refusal := Refusal(p, s.configs, t);
    if refusal.Some? then Configured(s, q, refusal) else SetTlv(p, s, q, t)
  }

  function ApplyTlvs(p: Profile, s: Session, q: seq<Event>, tlvs: seq<Tlv>): Configured
    decreases |tlvs|
  {
    if tlvs == [] then Configured(s, q, None)
    else
      var c := ApplyTlv(p, s, q, tlvs[0]);
      if c.stop.Some? then c else ApplyTlvs(p, c.session, c.events, tlvs[1..])
  }

  // ----- setting device parameters -----

  function CoreStatus(p: Profile, m: Table, t: Tlv): byte {
    if t.id == DEVICE_CONFIG_STATE then STATUS_INVALID_PARAM
    else if t.id !in p.coreConfigIds then STATUS_INVALID_PARAM
    else if Store(m, MAX_DEVICE_CONFIGS, t.id, t.value).None? then STATUS_FAILED
    else STATUS_OK
  }

  function CoreStep(p: Profile, m: Table, t: Tlv): Table {
    if CoreStatus(p, m, t) == STATUS_OK then m[t.id := t.value] else m
  }

  function CoreFold(p: Profile, m: Table, tlvs: seq<Tlv>): Table
    decreases |tlvs|
  {
    if tlvs == [] then m else CoreFold(p, CoreStep(p, m, tlvs[0]), tlvs[1..])
  }

  /** The status of each parameter, each judged against the table as it then stands. */
  function CoreStatuses(p: Profile, m: Table, tlvs: seq<Tlv>): (r: seq<byte>)
    ensures |r| == |tlvs|
    decreases |tlvs|
  {
    if tlvs == [] then [] else [CoreStatus(p, m, tlvs[0])] + CoreStatuses(p, CoreStep(p, m, tlvs[0]), tlvs[1..])
  }

  // ----- moves -----

  datatype Move =
    | Stay
    | Reset
    | SetCore(tlvs: seq<Tlv>)
    | Open(slot: nat, id: uint32)
    | Drop(slot: nat)
    | Configure(slot: nat, tlvs: seq<Tlv>)
    | Transit(slot: nat, oid: byte, next: byte)
    | Relink(slot: nat, links: seq<Link>)
    | Send(slot: nat, sequence: uint16, length: uint16)

  predicate SlotOf(d: Device, mv: Move) {
    match mv
    case Stay | Reset | SetCore(_) => true
    case Open(i, _) => i < |d.sessions|
    case Drop(i) => i < |d.sessions|
    case Configure(i, _) => i < |d.sessions|
    case Transit(i, _, _) => i < |d.sessions|
    case Relink(i, _) => i < |d.sessions|
    case Send(i, _, _) => i < |d.sessions|
  }

  function Put(d: Device, i: nat, s: Session): Device
    requires i < |d.sessions|
  {
    d.(sessions := d.sessions[i := s])
  }

  /** Entering a state; START and STOP also forget the last proximity state. */
  function Entered(s: Session, oid: byte, next: byte): Session {
    if oid == SESSION_START || oid == SESSION_STOP then s.(state := next, hasProximity := false, inProximity := false)
    else s.(state := next)
  }

  /** What STOP clears besides the state. */
  function Stopped(s: Session): Session {
    s.(streamRemaining := 0, transferring := false, repetitionsLeft := 0, txCount := 0)
  }

  /** A started stream is armed with its first event; when the event queue is full it stays without one. */
  function Armed(setup: Setup, s: Session, q: seq<Event>): (Session, seq<Event>) {
    if !setup.scenario.RangingStream? then (s, q)
    else
      var s' := s.(streamRemaining := setup.profile.burstCount);
      if s'.streamRemaining == 0 then (s', q)
      else
        var armed := Schedule(q, RangeEvent(setup.profile, s'));
        (s', if armed.Some? then armed.value else q)
  }

  function Repetitions(s: Session): byte {
    U8Or(s.configs, DATA_REPETITION_COUNT, 0)
  }

  function TransferEvent(p: Profile, s: Session): Event {
    Event(DataTransfer, s.id, Interval(p, s))
  }

  /** An accepted data message: remembered, and with repetitions configured a transfer begins if an event fits. */
  function Sent(p: Profile, s: Session, q: seq<Event>, sequence: uint16, length: uint16): (Session, seq<Event>, bool) {
    var s' := s.(hasLastMessage := true, lastSequence := sequence, lastLength := length);
    var n := Repetitions(s);
    if n == 0 then (s', q, true)
    else
      var armed := Schedule(q, TransferEvent(p, s'));
      if armed.Some? then
        (s'.(transferring := true, repetitionsLeft := n, txCount := 0, transferSequence := sequence), armed.value, true)
      else
        (s'.(transferring := false, repetitionsLeft := 0, txCount := 0, transferSequence := sequence), q, false)
  }

  function Apply(setup: Setup, d: Device, mv: Move): Device
    requires SlotOf(d, mv)
  {
    var p := setup.profile;
    match mv
    case Stay => d
    case Reset => InitialDevice(p)
    case SetCore(tlvs) => d.(configs := CoreFold(p, d.configs, tlvs))
    case Open(i, id) => Put(d, i, Opened(p, d.sessions[i], id))
    case Drop(i) => Put(d, i, ZERO_SESSION)
    case Configure(i, tlvs) =>
      var c := ApplyTlvs(p, d.sessions[i], d.events, tlvs);
      Put(d, i, c.session).(events := c.events)
    case Transit(i, oid, next) =>
      var s := Entered(d.sessions[i], oid, next);
      if oid == SESSION_START then
        var (s', q') := Armed(setup, s, d.events);
        Put(d, i, s').(events := q')
      else if oid == SESSION_STOP then Put(d, i, Stopped(s)).(events := Cancel(d.events, s.id))
      else Put(d, i, s)
    case Relink(i, links) => Put(d, i, d.sessions[i].(links := links))
    case Send(i, sequence, length) =>
      var (s', q', ok) := Sent(p, d.sessions[i], d.events, sequence, length);
      Put(d, i, s').(events := q')
  }
}
