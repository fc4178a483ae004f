/**
 Parameter validation (src/core/uci_sim_validation.c): the check SESSION_SET_APP_CONFIG
 makes on each value, and the check SESSION_START makes on the whole table.
 A verdict stands for the result record the validators fill in for their caller.
 */
module Validation {
  import opened Types
  import opened Profiles
  import opened ConfigTables

  datatype Verdict = Accept | Reject(rejection: Rejection) {
    predicate IsFailure() { Reject? }
    function PropagateFailure(): Verdict requires Reject? { this }
  }

  /** Reading a stored parameter that must have a given length. */
  datatype Lookup = Found(value: seq<byte>) | Missing(rejection: Rejection) {
    predicate IsFailure() { Missing? }
    function PropagateFailure(): Verdict requires Missing? { Reject(rejection) }
    function Extract(): seq<byte> requires Found? { value }
  }

  /** The rejection the validators hard-code where no profile field applies. */
  const PLAIN_FAULT := Rejection(STATUS_INVALID_PARAM, REASON_COMMAND, Immediate)

  function Require(ok: bool, fault: Rejection): Verdict {
    if ok then Accept else Reject(fault)
  }

  function Read(m: Table, id: byte, length: nat, fault: Rejection): Lookup {
    if id in m && |m[id]| == length then Found(m[id]) else Missing(fault)
  }

  /** A one-byte parameter, or a default when it is missing or not one byte long. */
  function U8Or(m: Table, id: byte, default: byte): byte {
    if id in m && |m[id]| == 1 then m[id][0] else default
  }

  function U16Or(m: Table, id: byte, default: uint16): uint16 {
    if id in m && |m[id]| == 2 then U16(m[id]) else default
  }

  function IntervalOf(p: Profile, m: Table): uint32 {
    if RANGING_INTERVAL in m && |m[RANGING_INTERVAL]| == 4 then U32(m[RANGING_INTERVAL]) else p.rangingIntervalMs
  }

  // ----- single values -----

  predicate ListedIn(mask: nat, width: nat, v: byte) {
    v < width && Bit(mask, v)
  }

  function PreambleVerdict(p: Profile, code: byte, prf: byte): Verdict {
    var l := p.limits;
    :- Require(prf <= l.prfModeMax, p.faults.prfMode);
    Require(PreambleAllowed(l, code, prf), p.faults.preamble)
  }

  predicate PreambleAllowed(l: Limits, code: byte, prf: byte) {
    if prf == 0 then l.bprfPreambleMin <= code <= l.bprfPreambleMax else l.hprfPreambleMin <= code <= l.hprfPreambleMax
  }

  function SfdVerdict(p: Profile, sfd: byte, prf: byte): Verdict {
    var l := p.limits;
    :- Require(prf <= l.prfModeMax, p.faults.prfMode);
    Require(SfdAllowed(l, sfd, prf), p.faults.sfd)
  }

  predicate SfdAllowed(l: Limits, sfd: byte, prf: byte) {
    ListedIn(if prf == 0 then l.bprfSfdMask else l.hprfSfdMask, 8, sfd)
  }

  function MacModeVerdict(p: Profile, mode: byte): Verdict {
    Require(ListedIn(p.limits.macModeMask, 8, mode), p.faults.macMode)
  }

  function DeviceMacVerdict(p: Profile, length: nat, mode: byte): Verdict {
    if mode == MAC_MODE_SHORT then Require(length == 2, p.faults.deviceMac)
    else if mode == MAC_MODE_EXTENDED then Require(length == 8, p.faults.deviceMac)
    else MacModeVerdict(p, mode)
  }

  function DstMacVerdict(p: Profile, length: nat): Verdict {
    Require(length != 0 && length % 2 == 0 && length / 2 <= p.limits.maxControlees, p.faults.dstMac)
  }

  // ----- values in the context of the rest of the table -----

  function SlotTopologyVerdict(p: Profile, m: Table): Verdict {
    var f := p.faults.slotsPerRr;
    var slots :- Read(m, SLOTS_PER_RR, 1, f);
    :- Require(p.limits.slotsPerRrMin <= slots[0] <= p.limits.slotsPerRrMax, f);
    var index :- Read(m, RESPONDER_SLOT_INDEX, 1, f);
    Require(index[0] < slots[0], f)
  }

  function BlockStrideVerdict(p: Profile, m: Table): Verdict {
    var f := p.faults.blockStride;
    var stride :- Read(m, BLOCK_STRIDE_LENGTH, 1, f);
    :- Require(stride[0] <= p.limits.blockStrideMax, f);
    if stride[0] == 0 then Accept
    else
      var timeStruct :- Read(m, RANGING_TIME_STRUCT, 1, f);
      var mode :- Read(m, SCHEDULED_MODE, 1, f);
      Require(timeStruct[0] == 1 && mode[0] == TIME_SCHEDULED, f)
  }

  /** The stored pair is maximum first, minimum second. */
  function CapSizeVerdict(p: Profile, m: Table): Verdict {
    var f := p.faults.capSize;
    var cap :- Read(m, CAP_SIZE_RANGE, 2, f);
    :- Require(cap[1] <= cap[0], f);
    if cap[1] == 0 && cap[0] == 0 then Accept
    else
      var mode :- Read(m, SCHEDULED_MODE, 1, f);
      var slots :- Read(m, SLOTS_PER_RR, 1, f);
      Require(mode[0] == CONTENTION_BASED && slots[0] != 0 && cap[0] <= slots[0] - 1, f)
  }

  // ----- SESSION_SET_APP_CONFIG -----

  /** The ids whose values are validated when set; every other supported id is stored unchecked. */
  predicate IsChecked(id: byte) {
    || id <= RANGING_INTERVAL || id == AOA_RESULT_REQ || RSSI_REPORTING <= id <= LINK_LAYER_MODE
    || id == RANGING_TIME_STRUCT || id == SLOTS_PER_RR || RESPONDER_SLOT_INDEX <= id <= CAP_SIZE_RANGE
    || SCHEDULED_MODE <= id <= KEY_ROTATION_RATE || id == MAC_ADDRESS_MODE || id == NUMBER_OF_STS_SEGMENTS
    || id == MAX_RR_RETRY || id == BLOCK_STRIDE_LENGTH || id == RESULT_REPORT_CONFIG || id == STS_LENGTH
  }

  /** A wrong length is reported with the plain status but the parameter's own reason and surface. */
  function LengthFault(f: Rejection): Rejection {
    f.(status := STATUS_INVALID_PARAM)
  }

  function Checked(v: seq<byte>, length: nat, f: Rejection, ok: seq<byte> --> bool): Verdict
    requires |v| == length ==> ok.requires(v)
  {
    if |v| == length then Require(ok(v), f) else Reject(LengthFault(f))
  }

  /**
   The verdict on setting one parameter. The context checks read the table as
   it would stand with the new value, which is how the override arguments of
   the C functions act.
   */
  function AppConfigVerdict(p: Profile, m: Table, id: byte, v: seq<byte>): Verdict {
    var l, f, m' := p.limits, p.faults, m[id := v];
    match id
    case 0x00 => Checked(v, 1, f.deviceType, w requires |w| == 1 => ListedIn(l.deviceTypeMask, 8, w[0]))
    case 0x03 => Checked(v, 1, f.multiNode, w requires |w| == 1 => ListedIn(l.multiNodeMask, 8, w[0]))
    case 0x04 => Checked(v, 1, f.channel, w requires |w| == 1 => ListedIn(l.channelMask, 16, w[0]))
    case 0x05 => Checked(v, 1, f.controlees, w requires |w| == 1 => w[0] <= l.maxControlees)
    case 0x26 => Checked(v, 1, f.macMode, w requires |w| == 1 => ListedIn(l.macModeMask, 8, w[0]))
    case 0x06 => DeviceMacVerdict(p, |v|, U8Or(m, MAC_ADDRESS_MODE, MAC_MODE_SHORT))
    case 0x07 => DstMacVerdict(p, |v|)
    case 0x02 => Checked(v, 1, f.stsConfig, w requires |w| == 1 => ListedIn(l.stsConfigMask, 8, w[0]))
    case 0x2E =>
      :- Require(|v| == 1, Rejection(STATUS_INVALID_PARAM, 0x37, Immediate));
      Require(WithinMask(v[0], l.resultReportMask), f.resultReport)
    case 0x0D => Checked(v, 1, f.aoaResult, w requires |w| == 1 => w[0] <= l.aoaResultMax)
    case 0x1F => Checked(v, 1, f.prfMode, w requires |w| == 1 => w[0] <= l.prfModeMax)
    case 0x14 =>
      :- Require(|v| == 1, LengthFault(f.preamble));
      PreambleVerdict(p, v[0], U8Or(m, PRF_MODE, 0))
    case 0x15 =>
      :- Require(|v| == 1, LengthFault(f.sfd));
      SfdVerdict(p, v[0], U8Or(m, PRF_MODE, 0))
    case 0x16 => Checked(v, 1, f.psduRate, w requires |w| == 1 => w[0] <= l.psduRateMax)
    case 0x17 => Checked(v, 1, f.preambleDuration, w requires |w| == 1 => w[0] <= l.preambleDurationMax)
    case 0x35 => Checked(v, 1, f.stsLength, w requires |w| == 1 => w[0] <= l.stsLengthMax)
    case 0x23 => Checked(v, 1, f.keyRotation, w requires |w| == 1 => w[0] <= l.keyRotationMax)
    case 0x24 => Checked(v, 2, f.keyRotationRate, w requires |w| == 2 => w[0] <= l.keyRotationRateMax)
    case 0x29 => Checked(v, 1, f.stsSegments, w requires |w| == 1 => w[0] <= l.stsSegmentsMax)
    case 0x2A => Require(|v| == 2, PLAIN_FAULT)
    case 0x18 => Checked(v, 1, f.linkLayerMode, w requires |w| == 1 => w[0] <= l.linkLayerModeMax)
    case 0x08 => Checked(v, 2, f.slotDuration, w requires |w| == 2 => l.minSlotDuration <= U16(w))
    case 0x1A =>
      :- Checked(v, 1, f.timeStruct, w requires |w| == 1 => ListedIn(l.timeStructMask, 8, w[0]));
      BlockStrideVerdict(p, m')
    case 0x22 =>
      :- Checked(v, 1, f.scheduledMode, w requires |w| == 1 => ListedIn(l.scheduledModeMask, 8, w[0]));
      :- BlockStrideVerdict(p, m');
      CapSizeVerdict(p, m')
    case 0x2D =>
      :- Checked(v, 1, f.blockStride, w requires |w| == 1 => w[0] <= l.blockStrideMax);
      BlockStrideVerdict(p, m')
    case 0x1B =>
      :- Checked(v, 1, f.slotsPerRr, w requires |w| == 1 => l.slotsPerRrMin <= w[0] <= l.slotsPerRrMax);
      :- SlotTopologyVerdict(p, m');
      CapSizeVerdict(p, m')
    case 0x1E =>
      :- Require(|v| == 1, LengthFault(f.slotsPerRr));
      SlotTopologyVerdict(p, m')
    case 0x13 => Checked(v, 1, f.rssiReporting, w requires |w| == 1 => w[0] <= l.rssiReportingMax)
    case 0x20 =>
      :- Require(|v| == 2, LengthFault(f.capSize));
      CapSizeVerdict(p, m')
    case 0x01 => Checked(v, 1, f.roundUsage, w requires |w| == 1 => ListedIn(l.roundUsageMask, 16, w[0]))
    case 0x09 =>
      :- Require(|v| == 4, Rejection(STATUS_INVALID_PARAM, 0x23, Immediate));
      Require(l.minRangingInterval <= U32(v), f.rangingInterval)
    case _ => Accept
  }

  // ----- SESSION_START -----

  /** Role RESPONDER goes with device type CONTROLEE and role INITIATOR with CONTROLLER. */
  predicate RoleFitsType(role: byte, deviceType: byte) {
    (role == 0 ==> deviceType == 0) && (role == 1 ==> deviceType == 1)
  }

  function DeviceRoleVerdict(p: Profile, m: Table): Verdict {
    var f := p.faults.deviceType;
    var deviceType :- Read(m, DEVICE_TYPE, 1, f);
    :- Require(ListedIn(p.limits.deviceTypeMask, 8, deviceType[0]), f);
    var role :- Read(m, DEVICE_ROLE, 1, PLAIN_FAULT);
    Require(RoleFitsType(role[0], deviceType[0]), f)
  }

  function NodeTopologyVerdict(p: Profile, m: Table): Verdict {
    var l, f := p.limits, p.faults;
    var node :- Read(m, MULTI_NODE_MODE, 1, f.multiNode);
    :- Require(ListedIn(l.multiNodeMask, 8, node[0]), f.multiNode);
    var mode :- Read(m, MAC_ADDRESS_MODE, 1, f.macMode);
    :- MacModeVerdict(p, mode[0]);
    var count :- Read(m, NUMBER_OF_CONTROLEES, 1, f.controlees);
    :- Require(count[0] <= l.maxControlees, f.controlees);
    :- Require(DEVICE_MAC_ADDRESS in m, f.deviceMac);
    :- DeviceMacVerdict(p, |m[DEVICE_MAC_ADDRESS]|, mode[0]);
    :- Require(DST_MAC_ADDRESS in m, f.dstMac);
    var dst := |m[DST_MAC_ADDRESS]|;
    :- DstMacVerdict(p, dst);
    :- Require(dst / 2 == count[0], f.controlees);
    Require(node[0] == 0 ==> count[0] == 1 && dst == 2, f.multiNode)
  }

  predicate HasLength(m: Table, id: byte, a: nat, b: nat) {
    id in m && (|m[id]| == a || |m[id]| == b)
  }

  function StsVerdict(p: Profile, m: Table): Verdict {
    var f := p.faults.stsConfig;
    var sts :- Read(m, STS_CONFIG, 1, f);
    :- Require(ListedIn(p.limits.stsConfigMask, 8, sts[0]), f);
    match sts[0]
    case 0 => Require(HasLength(m, STATIC_STS_IV, 8, 8), f)
    case 3 => Require(HasLength(m, SESSION_KEY, 16, 32), f)
    case 4 =>
      :- Require(HasLength(m, SESSION_KEY, 16, 32), f);
      Require(HasLength(m, SUBSESSION_KEY, 16, 32), f)
    case _ => Accept
  }

  function ReportVerdict(p: Profile, m: Table): Verdict {
    var report := U8Or(m, RESULT_REPORT_CONFIG, 1);
    :- Require(WithinMask(report, p.limits.resultReportMask), p.faults.resultReport);
    Require(U8Or(m, AOA_RESULT_REQ, 0) <= p.limits.aoaResultMax, p.faults.aoaResult)
  }

  function RadioVerdict(p: Profile, m: Table): Verdict {
    var l, f := p.limits, p.faults;
    var prf :- Read(m, PRF_MODE, 1, f.prfMode);
    :- Require(prf[0] <= l.prfModeMax, f.prfMode);
    var code :- Read(m, PREAMBLE_CODE_INDEX, 1, f.preamble);
    :- PreambleVerdict(p, code[0], prf[0]);
    var sfd :- Read(m, SFD_ID, 1, f.sfd);
    SfdVerdict(p, sfd[0], prf[0])
  }

  function FrameVerdict(p: Profile, m: Table): Verdict {
    var l, f := p.limits, p.faults;
    var rate :- Read(m, PSDU_DATA_RATE, 1, f.psduRate);
    :- Require(rate[0] <= l.psduRateMax, f.psduRate);
    var duration :- Read(m, PREAMBLE_DURATION, 1, f.preambleDuration);
    :- Require(duration[0] <= l.preambleDurationMax, f.preambleDuration);
    var sts :- Read(m, STS_LENGTH, 1, f.stsLength);
    Require(sts[0] <= l.stsLengthMax, f.stsLength)
  }

  function RotationVerdict(p: Profile, m: Table): Verdict {
    var l, f := p.limits, p.faults;
    var rotation :- Read(m, KEY_ROTATION, 1, f.keyRotation);
    :- Require(rotation[0] <= l.keyRotationMax, f.keyRotation);
    :- Require(rotation[0] != 0 ==> 1 <= U8Or(m, STS_CONFIG, 0) <= 4, f.keyRotation);
    var rate :- Read(m, KEY_ROTATION_RATE, 2, f.keyRotationRate);
    Require(rate[0] <= l.keyRotationRateMax, f.keyRotationRate)
  }

  function LinkVerdict(p: Profile, m: Table): Verdict {
    var l, f := p.limits, p.faults;
    var segments :- Read(m, NUMBER_OF_STS_SEGMENTS, 1, f.stsSegments);
    :- Require(segments[0] <= l.stsSegmentsMax, f.stsSegments);
    var retry :- Read(m, MAX_RR_RETRY, 2, PLAIN_FAULT);
    var link :- Read(m, LINK_LAYER_MODE, 1, f.linkLayerMode);
    Require(link[0] <= l.linkLayerModeMax, f.linkLayerMode)
  }

  function ScheduleVerdict(p: Profile, m: Table): Verdict {
    var l, f := p.limits, p.faults;
    var timeStruct :- Read(m, RANGING_TIME_STRUCT, 1, f.timeStruct);
    :- Require(ListedIn(l.timeStructMask, 8, timeStruct[0]), f.timeStruct);
    var mode :- Read(m, SCHEDULED_MODE, 1, f.scheduledMode);
    :- Require(ListedIn(l.scheduledModeMask, 8, mode[0]), f.scheduledMode);
    :- BlockStrideVerdict(p, m);
    :- SlotTopologyVerdict(p, m);
    CapSizeVerdict(p, m)
  }

  /** Every check SESSION_START makes, in the order it makes them. */
  function StartVerdict(p: Profile, m: Table): Verdict {
    var l, f := p.limits, p.faults;
    :- Require(l.minRangingInterval <= IntervalOf(p, m), f.rangingInterval);
    :- DeviceRoleVerdict(p, m);
    :- NodeTopologyVerdict(p, m);
    var slot :- Read(m, SLOT_DURATION, 2, f.slotDuration);
    :- Require(l.minSlotDuration <= U16(slot), f.slotDuration);
    var channel :- Read(m, CHANNEL_NUMBER, 1, f.channel);
    :- Require(ListedIn(l.channelMask, 16, channel[0]), f.channel);
    :- StsVerdict(p, m);
    :- ReportVerdict(p, m);
    :- RadioVerdict(p, m);
    :- FrameVerdict(p, m);
    :- RotationVerdict(p, m);
    :- LinkVerdict(p, m);
    :- ScheduleVerdict(p, m);
    :- Require(U8Or(m, RSSI_REPORTING, 0) <= l.rssiReportingMax, f.rssiReporting);
    Require(ListedIn(l.roundUsageMask, 16, U8Or(m, RANGING_ROUND_USAGE, 1)), f.roundUsage)
  }
}
