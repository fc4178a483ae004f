/**
 A session and what happens to it: allocation, ranging samples and the
 notification policy (src/core/uci_sim_measurement.c), one stream emission and
 one data-transfer repetition (src/model/uci_sim_device.c:307-333 and 874-941).
 */
module Sessions {
  import opened Types
  import opened PacketCodec
  import opened Profiles
  import opened ConfigTables
  import opened LogicalLinks
  import opened Validation

  const WRAP8 := 0x100
  const WRAP16 := 0x1_0000
  const WRAP32 := 0x1_0000_0000

  datatype Scenario = Plain | DelayedNotifications | RangingStream

  /** What a simulator is created with and never changes. */
  datatype Setup = Setup(profile: Profile, scenario: Scenario)

  datatype Session = Session(
    inUse: bool, id: uint32, sessionType: byte, state: byte,
    rangingCount: uint32, maxDataSize: uint16, streamRemaining: byte,
    hasLastMessage: bool, lastSequence: uint16, lastLength: uint16,
    transferring: bool, repetitionsLeft: byte, txCount: byte, transferSequence: uint16,
    hasProximity: bool, inProximity: bool,
    configs: Table, links: seq<Link>)

  /** A slot after memset. */
  const ZERO_SESSION := Session(false, 0, 0, 0, 0, 0, 0, false, 0, 0, false, 0, 0, 0, false, false, map[], [])

  /** Allocation sets these fields of a free slot and leaves the rest of the slot as it was. */
  function Opened(p: Profile, slot: Session, id: uint32): Session {
    slot.(inUse := true, id := id, sessionType := p.sessionType, state := p.initialState, rangingCount := 0,
          hasProximity := false, inProximity := false, maxDataSize := p.maxDataSize,
          configs := StoreAll(slot.configs, MAX_SESSION_CONFIGS, p.defaults))
  }

  function Interval(p: Profile, s: Session): uint32 {
    IntervalOf(p, s.configs)
  }

  /** The configured number of measurements after which a stream stops, 0 for no limit. */
  function Budget(s: Session): uint16 {
    U16Or(s.configs, MAX_NUMBER_OF_MEASUREMENTS, 0)
  }

  // ----- notifications -----

  function Notification(gid: byte, oid: byte, payload: seq<byte>): Packet {
    Packet(MT_NOTIFICATION, PBF_COMPLETE, gid, oid, payload)
  }

  function StatusNtf(id: uint32, state: byte, reason: byte): Packet {
    Notification(GID_SESSION_CONFIG, SESSION_STATUS_NTF, U32Bytes(id) + [state, reason])
  }

  function CreditNtf(id: uint32): Packet {
    Notification(GID_SESSION_CONTROL, SESSION_DATA_CREDIT_NTF, U32Bytes(id) + [1])
  }

  function TransferNtf(id: uint32, sequence: uint16, status: byte, txCount: byte): Packet {
    Notification(GID_SESSION_CONTROL, SESSION_DATA_STATUS_NTF, U32Bytes(id) + U16Bytes(sequence) + [status, txCount])
  }

  // ----- measurements -----

  datatype Sample = Sample(session: uint32, interval: uint32, distance: uint16, measurementType: byte, slotIndex: byte)

  /** Which fields of the template a notification reports; the others are zeroed. */
  datatype Fields = Fields(distance: bool, azimuth: bool, elevation: bool, azimuthFom: bool, elevationFom: bool,
                           rssi: bool)

  datatype Policy = Policy(emit: bool, inRange: bool, fields: Fields)

  function MeasurementType(usage: byte): byte {
    if usage == 5 then 2 else if usage == 6 then 3 else 1
  }

  /** The distance grows by one step per measurement and is cut to 16 bits. */
  function DistanceOf(p: Profile, count: uint32): uint16 {
    (p.rangeData.distanceBase + count * p.rangeData.distanceStep) % WRAP32 % WRAP16
  }

  function InitSample(p: Profile, s: Session): Sample {
    Sample(s.id, Interval(p, s), DistanceOf(p, s.rangingCount),
           MeasurementType(U8Or(s.configs, RANGING_ROUND_USAGE, 1)), U8Or(s.configs, RESPONDER_SLOT_INDEX, 0))
  }

  predicate InWindow(m: Table, distance: uint16) {
    U16Or(m, PROXIMITY_NEAR, 0) <= distance <= U16Or(m, PROXIMITY_FAR, 0xFFFF)
  }

  function ReportedFields(m: Table): Fields {
    var report, aoa := U8Or(m, RESULT_REPORT_CONFIG, 1), U8Or(m, AOA_RESULT_REQ, 0);
    var azimuth, elevation := aoa == 2 || aoa == 3, aoa == 1 || aoa == 3;
    Fields(Bit(report, 0), Bit(report, 1) && azimuth, Bit(report, 2) && elevation,
           Bit(report, 3) && azimuth, Bit(report, 3) && elevation, U8Or(m, RSSI_REPORTING, 0) != 0)
  }

  /**
   Notification mode 0 is silent, 2 reports inside the window, 5 reports crossings of its edge, any
   other mode reports all.
   */
  function Evaluate(s: Session, sample: Sample): Policy {
    var inRange := InWindow(s.configs, sample.distance);
    var mode := U8Or(s.configs, NTF_CONFIG, 1);
    var emit := if mode == 0 then false
                else if mode == 2 then inRange
                else if mode == 5 then s.hasProximity && s.inProximity != inRange
                else true;
    Policy(emit, inRange, ReportedFields(s.configs))
  }

  /** Overwrites part of a payload; a field that does not fit leaves it alone. */
  function Patch(b: seq<byte>, at: nat, field: seq<byte>): (r: seq<byte>)
    ensures |r| == |b|
  {
    if at + |field| <= |b| then b[..at] + field + b[at + |field|..] else b
  }

  function PatchAll(b: seq<byte>, patches: seq<(nat, seq<byte>)>): (r: seq<byte>)
    ensures |r| == |b|
    decreases |patches|
  {
    if patches == [] then b else PatchAll(Patch(b, patches[0].0, patches[0].1), patches[1..])
  }

  function ZeroUnless(keep: bool, at: nat, zeros: seq<byte>): seq<(nat, seq<byte>)> {
    if keep then [] else [(at, zeros)]
  }

  /** The sample's values at their places in the template; the angle fields follow the distance, local then remote. */
  function SampleFields(r: RangeLayout, sample: Sample, sequence: uint32, fields: Fields): seq<(nat, seq<byte>)> {
    var d := r.distanceAt as nat;
    [(r.sequenceAt as nat, U32Bytes(sequence)), (r.primaryIdAt as nat, U32Bytes(sample.session)),
     (r.secondaryIdAt as nat, U32Bytes(sample.session)), (r.intervalAt as nat, U32Bytes(sample.interval)),
     (r.typeAt as nat, [sample.measurementType]),
     (d, if fields.distance then U16Bytes(sample.distance) else [0, 0])]
    + ZeroUnless(fields.azimuth, d + 2, [0, 0]) + ZeroUnless(fields.azimuth, d + 8, [0, 0])
    + ZeroUnless(fields.elevation, d + 5, [0, 0]) + ZeroUnless(fields.elevation, d + 11, [0, 0])
    + ZeroUnless(fields.azimuthFom, d + 4, [0]) + ZeroUnless(fields.azimuthFom, d + 10, [0])
    + ZeroUnless(fields.elevationFom, d + 7, [0]) + ZeroUnless(fields.elevationFom, d + 13, [0])
    + [(d + 14, [sample.slotIndex])] + ZeroUnless(fields.rssi, d + 15, [0])
  }

  function RangeDataNtf(r: RangeLayout, sample: Sample, sequence: uint32, fields: Fields): Option<Packet> {
    if |r.template| == 0 || |r.template| > MAX_PAYLOAD then None
    else Some(Notification(GID_SESSION_CONTROL, r.oid, PatchAll(r.template, SampleFields(r, sample, sequence, fields))))
  }

  // ----- one emission of the ranging stream -----

  /** The session afterwards, whether its queued events go, what it notifies, and whether every step succeeded. */
  datatype Emission = Emission(session: Session, cancels: bool, notes: seq<Packet>, nextSequence: uint32, ok: bool)

  predicate BudgetReached(s: Session) {
    Budget(s) != 0 && s.rangingCount >= Budget(s)
  }

  function Halted(s: Session): Session {
    s.(state := STATE_IDLE, streamRemaining := 0)
  }

  function BudgetNtf(s: Session): Packet {
    StatusNtf(s.id, STATE_IDLE, REASON_BUDGET_REACHED)
  }

  predicate Streaming(setup: Setup, s: Session) {
    setup.scenario.RangingStream? && s.streamRemaining != 0 && s.state == STATE_ACTIVE
  }

  /** The session after one more measurement, before the budget is looked at again. */
  function Measured(s: Session, inRange: bool): Session
    requires s.streamRemaining > 0
  {
    s.(hasProximity := true, inProximity := inRange, rangingCount := (s.rangingCount + 1) % WRAP32,
       streamRemaining := s.streamRemaining - 1)
  }

  /** A measurement under a given policy, with the notification it would send. */
  function Measure(s: Session, room: nat, nextSequence: uint32, policy: Policy, ntf: Option<Packet>): Emission
    requires s.streamRemaining > 0
  {
    var next := if policy.emit then (nextSequence + 1) % WRAP32 else nextSequence;
    if policy.emit && (ntf.None? || room == 0) then Emission(s, false, [], next, false)
    else
      var notes := if policy.emit then [ntf.value] else [];
      var s' := Measured(s, policy.inRange);
      if !BudgetReached(s') then Emission(s', false, notes, next, true)
      else if |notes| == room then Emission(Halted(s'), true, notes, next, false)
      else Emission(Halted(s'), true, notes + [BudgetNtf(s)], next, true)
  }

  function Emit(setup: Setup, s: Session, room: nat, nextSequence: uint32): Emission {
    if !Streaming(setup, s) then Emission(s, false, [], nextSequence, true)
    else if BudgetReached(s) then
      if room == 0 then Emission(Halted(s), true, [], nextSequence, false)
      else Emission(Halted(s), true, [BudgetNtf(s)], nextSequence, true)
    else
      var sample := InitSample(setup.profile, s);
      var policy := Evaluate(s, sample);
      Measure(s, room, nextSequence, policy, RangeDataNtf(setup.profile.rangeData, sample, nextSequence, policy.fields))
  }

  // ----- one repetition of a data transfer -----

  datatype Progress = Progress(session: Session, notes: seq<Packet>)

  /**
   Counts one transmission; repetitions report REPETITION_OK, the last transmission returns the
   credit and reports OK.
   */
  function Advance(s: Session): Progress {
    var tx := (s.txCount + 1) % WRAP8;
    if s.repetitionsLeft > 0 then
      Progress(s.(txCount := tx, repetitionsLeft := s.repetitionsLeft - 1),
               [TransferNtf(s.id, s.transferSequence, TRANSFER_REPETITION_OK, tx)])
    else
      Progress(s.(txCount := tx, transferring := false),
               [CreditNtf(s.id), TransferNtf(s.id, s.transferSequence, TRANSFER_OK, tx)])
  }
}
