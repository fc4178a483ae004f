/** Protocol constants (include/uci_sim_spec.h) and the immutable device profile (src/spec/uci_sim_profile.c). */
module Profiles {
  import opened Types

  const GID_CORE: byte := 0x00
  const GID_SESSION_CONFIG: byte := 0x01
  const GID_SESSION_CONTROL: byte := 0x02
  const GID_QORVO_EXT2: byte := 0x0B
  const GID_QORVO_MAC: byte := 0x0E

  const STATUS_OK: byte := 0x00
  const STATUS_REJECTED: byte := 0x01
  const STATUS_FAILED: byte := 0x02
  const STATUS_INVALID_PARAM: byte := 0x04
  const STATUS_INVALID_RANGE: byte := 0x05
  const STATUS_INVALID_MSG_SIZE: byte := 0x06
  const STATUS_UNKNOWN_GID: byte := 0x07
  const STATUS_UNKNOWN_OID: byte := 0x08
  const STATUS_LIST_FULL: byte := 0x17

  const CORE_DEVICE_RESET: byte := 0x00
  const CORE_DEVICE_STATUS_NTF: byte := 0x01
  const CORE_DEVICE_INFO: byte := 0x02
  const CORE_GET_CAPS_INFO: byte := 0x03
  const CORE_SET_CONFIG: byte := 0x04
  const CORE_GET_CONFIG: byte := 0x05
  const CORE_GENERIC_ERROR: byte := 0x07
  const CORE_QUERY_TIMESTAMP: byte := 0x08

  const SESSION_INIT: byte := 0x00
  const SESSION_DEINIT: byte := 0x01
  const SESSION_STATUS_NTF: byte := 0x02
  const SESSION_SET_APP_CONFIG: byte := 0x03
  const SESSION_GET_APP_CONFIG: byte := 0x04
  const SESSION_GET_COUNT: byte := 0x05
  const SESSION_GET_STATE: byte := 0x06
  const SESSION_MULTICAST_LIST: byte := 0x07
  const SESSION_DT_ANCHOR_ROUNDS: byte := 0x08
  const SESSION_DT_TAG_ROUNDS: byte := 0x09
  const SESSION_QUERY_DATA_SIZE: byte := 0x0B
  const SESSION_DATA_TRANSFER_PHASE: byte := 0x0E

  const SESSION_START: byte := 0x00
  const SESSION_STOP: byte := 0x01
  const SESSION_GET_RANGING_COUNT: byte := 0x03
  const SESSION_DATA_CREDIT_NTF: byte := 0x04
  const SESSION_DATA_STATUS_NTF: byte := 0x05
  const SESSION_LINK_CREATE: byte := 0x07
  const SESSION_LINK_CLOSE: byte := 0x08
  const SESSION_LINK_UWBS_CLOSE: byte := 0x09
  const SESSION_LINK_UWBS_CREATE: byte := 0x0A
  const SESSION_LINK_GET_PARAM: byte := 0x0B

  const STATE_INIT: byte := 0x00
  const STATE_DEINIT: byte := 0x01
  const STATE_ACTIVE: byte := 0x02
  const STATE_IDLE: byte := 0x03

  const REASON_COMMAND: byte := 0x00
  const REASON_BUDGET_REACHED: byte := 0x02

  const TRANSFER_REPETITION_OK: byte := 0x00
  const TRANSFER_OK: byte := 0x01
  const TRANSFER_REJECTED: byte := 0x04
  const TRANSFER_ONGOING: byte := 0x06
  const TRANSFER_INVALID_FORMAT: byte := 0x07

  const DEVICE_CONFIG_STATE: byte := 0x00
  const DEVICE_CONFIG_LOW_POWER: byte := 0x01
  const DEVICE_CONFIG_PAN_ID: byte := 0xA2

  const DEVICE_TYPE: byte := 0x00
  const RANGING_ROUND_USAGE: byte := 0x01
  const STS_CONFIG: byte := 0x02
  const MULTI_NODE_MODE: byte := 0x03
  const CHANNEL_NUMBER: byte := 0x04
  const NUMBER_OF_CONTROLEES: byte := 0x05
  const DEVICE_MAC_ADDRESS: byte := 0x06
  const DST_MAC_ADDRESS: byte := 0x07
  const SLOT_DURATION: byte := 0x08
  const RANGING_INTERVAL: byte := 0x09
  const AOA_RESULT_REQ: byte := 0x0D
  const NTF_CONFIG: byte := 0x0E
  const PROXIMITY_NEAR: byte := 0x0F
  const PROXIMITY_FAR: byte := 0x10
  const DEVICE_ROLE: byte := 0x11
  const RSSI_REPORTING: byte := 0x13
  const PREAMBLE_CODE_INDEX: byte := 0x14
  const SFD_ID: byte := 0x15
  const PSDU_DATA_RATE: byte := 0x16
  const PREAMBLE_DURATION: byte := 0x17
  const LINK_LAYER_MODE: byte := 0x18
  const DATA_REPETITION_COUNT: byte := 0x19
  const RANGING_TIME_STRUCT: byte := 0x1A
  const SLOTS_PER_RR: byte := 0x1B
  const RESPONDER_SLOT_INDEX: byte := 0x1E
  const PRF_MODE: byte := 0x1F
  const CAP_SIZE_RANGE: byte := 0x20
  const SCHEDULED_MODE: byte := 0x22
  const KEY_ROTATION: byte := 0x23
  const KEY_ROTATION_RATE: byte := 0x24
  const MAC_ADDRESS_MODE: byte := 0x26
  const STATIC_STS_IV: byte := 0x28
  const NUMBER_OF_STS_SEGMENTS: byte := 0x29
  const MAX_RR_RETRY: byte := 0x2A
  const BLOCK_STRIDE_LENGTH: byte := 0x2D
  const RESULT_REPORT_CONFIG: byte := 0x2E
  const MAX_NUMBER_OF_MEASUREMENTS: byte := 0x32
  const STS_LENGTH: byte := 0x35
  const SESSION_KEY: byte := 0x45
  const SUBSESSION_KEY: byte := 0x46

  const MAC_MODE_SHORT: byte := 0
  const MAC_MODE_EXTENDED: byte := 1
  const CONTENTION_BASED: byte := 0
  const TIME_SCHEDULED: byte := 1

  /** Where a rejected parameter shows: in the command's response, or later in a session status. */
  datatype Surface = Immediate | SessionStatus

  datatype Rejection = Rejection(status: byte, reason: byte, surface: Surface)

  /** The bounds and masks a profile supports. */
  datatype Limits = Limits(
    minRangingInterval: uint16, minSlotDuration: uint16, resultReportMask: byte, stsConfigMask: byte,
    aoaResultMax: byte, prfModeMax: byte,
    bprfPreambleMin: byte, bprfPreambleMax: byte, hprfPreambleMin: byte, hprfPreambleMax: byte,
    bprfSfdMask: byte, hprfSfdMask: byte, psduRateMax: byte, preambleDurationMax: byte, stsLengthMax: byte,
    keyRotationMax: byte, keyRotationRateMax: byte, stsSegmentsMax: byte, linkLayerModeMax: byte,
    timeStructMask: byte, scheduledModeMask: byte, blockStrideMax: byte, slotsPerRrMin: byte, slotsPerRrMax: byte,
    rssiReportingMax: byte, roundUsageMask: uint16, multiNodeMask: byte, channelMask: uint16,
    maxControlees: byte, macModeMask: byte, deviceTypeMask: byte)

  /** The status, reason and surface a profile reports for each rejected parameter. */
  datatype Faults = Faults(
    rangingInterval: Rejection, slotDuration: Rejection, resultReport: Rejection, stsConfig: Rejection,
    aoaResult: Rejection, prfMode: Rejection, preamble: Rejection, sfd: Rejection, psduRate: Rejection,
    preambleDuration: Rejection, stsLength: Rejection, keyRotation: Rejection, keyRotationRate: Rejection,
    stsSegments: Rejection, linkLayerMode: Rejection, timeStruct: Rejection, scheduledMode: Rejection,
    blockStride: Rejection, slotsPerRr: Rejection, capSize: Rejection, rssiReporting: Rejection,
    roundUsage: Rejection, multiNode: Rejection, channel: Rejection, controlees: Rejection, macMode: Rejection,
    deviceMac: Rejection, dstMac: Rejection, deviceType: Rejection)

  datatype Transition = Transition(oid: byte, allowedStates: byte, nextState: byte, invalidStatus: byte)

  /** Where the range-data notification keeps each field inside its template. */
  datatype RangeLayout = RangeLayout(
    oid: byte, template: seq<byte>, sequenceAt: byte, primaryIdAt: byte, secondaryIdAt: byte,
    intervalAt: byte, typeAt: byte, distanceAt: byte, distanceBase: uint16, distanceStep: uint16)

  datatype Profile = Profile(
    deviceState: byte, lowPowerMode: byte, panId: (byte, byte),
    sessionType: byte, initialState: byte, statusReason: byte, maxDataSize: uint16,
    rangingIntervalMs: uint32, burstCount: byte,
    limits: Limits, faults: Faults, transitions: seq<Transition>, rangeData: RangeLayout,
    coreOids: seq<byte>, sessionConfigOids: seq<byte>, sessionControlOids: seq<byte>,
    coreConfigIds: seq<byte>, appConfigIds: seq<byte>, defaults: seq<Tlv>)

  predicate SupportsCommand(p: Profile, gid: byte, oid: byte) {
    if gid == GID_CORE then oid in p.coreOids
    else if gid == GID_SESSION_CONFIG then oid in p.sessionConfigOids
    else if gid == GID_SESSION_CONTROL then oid in p.sessionControlOids
    else false
  }

  /** The first transition listed for a command. */
  function TransitionFor(transitions: seq<Transition>, oid: byte): Option<Transition> {
    if transitions == [] then None
    else if transitions[0].oid == oid then Some(transitions[0])
    else TransitionFor(transitions[1..], oid)
  }

  /** START leads from another state to ACTIVE, STOP leads out of ACTIVE, and no other command does. */
  ghost predicate ProperTransitions(p: Profile) {
    forall oid: byte ::
      var t := TransitionFor(p.transitions, oid);
      t.Some? ==>
        && (oid == SESSION_START ==> t.value.nextState == STATE_ACTIVE && !Bit(t.value.allowedStates, STATE_ACTIVE))
        && (oid == SESSION_STOP ==> t.value.nextState != STATE_ACTIVE)
        && (oid != SESSION_START && oid != SESSION_STOP && Bit(t.value.allowedStates, STATE_ACTIVE) ==>
              t.value.nextState == STATE_ACTIVE)
  }

  lemma StandardSources(n: byte)
    ensures Bit(9, n) <==> n == STATE_INIT || n == STATE_IDLE
    ensures Bit(4, n) <==> n == STATE_ACTIVE
  {
    if n >= 4 {
      assert Bit(9, n) == Bit(4, n - 1) && Bit(4, n) == Bit(2, n - 1);
      assert Bit(4, n - 1) == Bit(2, n - 2) && Bit(2, n - 1) == Bit(1, n - 2);
      assert Bit(2, n - 2) == Bit(1, n - 3) && Bit(1, n - 2) == Bit(0, n - 3);
      NoBits(n - 4);
      NoBits(n - 3);
    } else {
      assert Bit(9, 0) && !Bit(9, 1) && !Bit(9, 2) && Bit(9, 3);
      assert !Bit(4, 0) && !Bit(4, 1) && Bit(4, 2) && !Bit(4, 3);
    }
  }

  /** Every rejected parameter shows in the response of the command that sets it. */
  predicate ImmediateFaults(f: Faults) {
    && f.rangingInterval.surface.Immediate? && f.slotDuration.surface.Immediate? && f.resultReport.surface.Immediate?
    && f.stsConfig.surface.Immediate? && f.aoaResult.surface.Immediate? && f.prfMode.surface.Immediate?
    && f.preamble.surface.Immediate? && f.sfd.surface.Immediate? && f.psduRate.surface.Immediate?
    && f.preambleDuration.surface.Immediate? && f.stsLength.surface.Immediate? && f.keyRotation.surface.Immediate?
    && f.keyRotationRate.surface.Immediate? && f.stsSegments.surface.Immediate? && f.linkLayerMode.surface.Immediate?
    && f.timeStruct.surface.Immediate? && f.scheduledMode.surface.Immediate? && f.blockStride.surface.Immediate?
    && f.slotsPerRr.surface.Immediate? && f.capSize.surface.Immediate? && f.rssiReporting.surface.Immediate?
    && f.roundUsage.surface.Immediate? && f.multiNode.surface.Immediate? && f.channel.surface.Immediate?
    && f.controlees.surface.Immediate? && f.macMode.surface.Immediate? && f.deviceMac.surface.Immediate?
    && f.dstMac.surface.Immediate? && f.deviceType.surface.Immediate?
  }

  // ----- the default profile -----

  function DefaultLimits(): Limits {
    Limits(50, 16, 0x0F, 0x1F, 3, 2, 9, 12, 25, 32, 0x05, 0x1E, 3, 1, 2, 1, 0x0F, 4, 1,
           0x03, 0x02, 0xFF, 1, 0xFF, 1, 0x19E, 0x07, 0x220, 8, 0x01, 0x03)
  }

  function DefaultFaults(): Faults {
    var plain := Rejection(STATUS_INVALID_PARAM, REASON_COMMAND, Immediate);
    Faults(Rejection(STATUS_INVALID_RANGE, 0x23, Immediate),  // ranging interval
           plain.(reason := 0x20),  // slot duration
           plain.(reason := 0x37),  // result report
           plain.(reason := 0x24),  // STS config
           plain, plain,
           plain.(reason := 0x2C),  // preamble code index
           plain.(reason := 0x2D),  // SFD id
           plain.(reason := 0x2E),  // PSDU data rate
           plain.(reason := 0x30),  // preamble duration
           plain.(reason := 0x31),  // STS length
           plain, plain, plain, plain, plain, plain, plain,
           plain.(reason := 0x21),  // slots per ranging round
           plain.(reason := 0xFA),  // cap size range
           plain,
           plain.(reason := 0x39),  // ranging round usage
           plain.(reason := 0x3A),  // multi-node mode
           plain,
           plain.(reason := 0x33),  // number of controlees
           plain.(reason := 0x22),  // MAC address mode
           plain,
           plain.(reason := 0x35),  // destination address list
           plain)
  }

  function DefaultRangeData(): RangeLayout {
    RangeLayout(SESSION_START,
              [0x00, 0x00, 0x00, 0x00, 0x00, 0x00, 0x00, 0x00, 0x00, 0xD0, 0x07, 0x00, 0x00, 0x01, 0x00, 0x00,
               0x00, 0x00, 0x00, 0x00, 0x00, 0x00, 0x00, 0x00, 0x01, 0x12, 0x34, 0x00, 0x00, 0x64, 0x00,
               0x14, 0x00, 0x08, 0x05, 0x00, 0x07, 0x10, 0x00, 0x06, 0x03, 0x00, 0x09, 0x02, 0xE0,
               0x00, 0x00, 0x00, 0x00, 0x00, 0x00, 0x00],
              0, 4, 16, 9, 13, 29, 100, 5)
  }

  /** The ids 0x00 to 0x4D without 0x48 that have a default value, in table order. */
  function DefaultIds(): (ids: seq<byte>)
    ensures |ids| == 77
    ensures forall i :: 0 <= i < 77 ==> ids[i] == if i < 0x48 then i else i + 1
  {
    seq(77, i requires 0 <= i < 77 => if i < 0x48 then i else i + 1)
  }

  /** The 80 supported application parameters: those with a default and three antenna parameters. */
  function DefaultAppConfigIds(): seq<byte> {
    DefaultIds() + [0xB6, 0xE6, 0xE7]
  }

  function DefaultValue(id: byte): seq<byte> {
    match id
    case 0x04 => [5]
    case 0x05 => [3]
    case 0x06 => [0xCD, 0xAB]
    case 0x07 => [0x78, 0x56, 0x89, 0x67, 0x9A, 0x78]
    case 0x08 => [0x60, 0x09]
    case 0x09 => [0xD0, 0x07, 0, 0]
    case 0x0A => [5, 0, 0, 0]
    case 0x0C => [5]
    case 0x0D => [3]
    case 0x0F => [0x64, 0]
    case 0x10 => [0xF4, 1]
    case 0x12 => [2]
    case 0x14 => [0x0C]
    case 0x15 => [2]
    case 0x19 => [0]
    case 0x1A => [0]
    case 0x1B => [6]
    case 0x1D => [0x2D, 0]
    case 0x1E => [0]
    case 0x1F => [0]
    case 0x20 => [0, 0]
    case 0x21 => [0x10, 0]
    case 0x24 => [0x0F, 0]
    case 0x25 => [0x4B]
    case 0x26 => [0]
    case 0x27 => [0x34, 0x12]
    case 0x28 => [1, 2, 3, 4, 5, 6, 7, 8]
    case 0x29 => [2]
    case 0x2A => [0, 0]
    case 0x2B => [0xE8, 3, 0, 0]
    case 0x2D => [0]
    case 0x2E => [7]
    case 0x2F => [4]
    case 0x30 => [0x78, 0x56, 0x34, 0x12]
    case 0x32 => [0x10, 0]
    case 0x33 => [0x64, 0, 0, 0]
    case 0x34 => [0xFA, 0, 0, 0]
    case 0x35 => [2]
    case 0x36 => [3]
    case 0x37 => [1, 2, 3]
    case 0x38 => [7]
    case 0x3A => [2]
    case 0x3B => [0, 4]
    case 0x3C => [5]
    case 0x3E => [3]
    case 0x41 => [0]
    case 0x45 => [0x00, 0x11, 0x22, 0x33, 0x44, 0x55, 0x66, 0x77, 0x88, 0x99, 0xAA, 0xBB, 0xCC, 0xDD, 0xEE, 0xFF]
    case 0x46 => [0xFF, 0xEE, 0xDD, 0xCC, 0xBB, 0xAA, 0x99, 0x88, 0x77, 0x66, 0x55, 0x44, 0x33, 0x22, 0x11, 0x00]
    case 0x4A => [2]
    case 0x4B => [3]
    case 0x4D => [0x0A]
    case _ => [1]
  }

  function DefaultTlvs(): seq<Tlv> {
    seq(77, i requires 0 <= i < 77 => Tlv(DefaultIds()[i], DefaultValue(DefaultIds()[i])))
  }

  function DefaultProfile(): Profile {
    Profile(1, 0, (0, 0), 0, STATE_INIT, REASON_COMMAND, 0x0200, 2000, 3,
            DefaultLimits(), DefaultFaults(),
            [Transition(SESSION_START, 9, STATE_ACTIVE, STATUS_REJECTED),
             Transition(SESSION_STOP, 4, STATE_IDLE, STATUS_REJECTED)],
            DefaultRangeData(),
            [CORE_DEVICE_RESET, CORE_DEVICE_INFO, CORE_GET_CAPS_INFO, CORE_SET_CONFIG, CORE_GET_CONFIG,
             CORE_QUERY_TIMESTAMP],
            [SESSION_INIT, SESSION_DEINIT, SESSION_SET_APP_CONFIG, SESSION_GET_APP_CONFIG, SESSION_GET_COUNT,
             SESSION_GET_STATE, SESSION_MULTICAST_LIST, SESSION_DT_ANCHOR_ROUNDS, SESSION_DT_TAG_ROUNDS,
             SESSION_DATA_TRANSFER_PHASE, SESSION_QUERY_DATA_SIZE],
            [SESSION_START, SESSION_STOP, SESSION_GET_RANGING_COUNT, SESSION_LINK_CREATE, SESSION_LINK_CLOSE,
             SESSION_LINK_GET_PARAM],
            [DEVICE_CONFIG_STATE, DEVICE_CONFIG_LOW_POWER, DEVICE_CONFIG_PAN_ID],
            DefaultAppConfigIds(), DefaultTlvs())
  }

  /** The default profile lists START and STOP with these states, and no other transition. */
  lemma DefaultTransitionsProper()
    ensures ProperTransitions(DefaultProfile())
    ensures TransitionFor(DefaultProfile().transitions, SESSION_START)
            == Some(Transition(SESSION_START, 9, STATE_ACTIVE, STATUS_REJECTED))
    ensures TransitionFor(DefaultProfile().transitions, SESSION_STOP)
            == Some(Transition(SESSION_STOP, 4, STATE_IDLE, STATUS_REJECTED))
  {
    var p := DefaultProfile();
    var start, stop := p.transitions[0], p.transitions[1];
    forall oid: byte
      ensures TransitionFor(p.transitions, oid) ==
                if oid == SESSION_START then Some(start) else if oid == SESSION_STOP then Some(stop) else None
    {
      assert p.transitions[1..] == [stop] && [stop][1..] == [];
      assert TransitionFor([stop], oid) == if oid == SESSION_STOP then Some(stop) else TransitionFor([stop][1..], oid);
    }
  }
}
