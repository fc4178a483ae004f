/**
 Which parameter constraints hold in every table SESSION_SET_APP_CONFIG can build,
 and which are only a gate at SESSION_START.
 */
module StartGate {
  import opened Types
  import opened Profiles
  import opened ConfigTables
  import opened Validation

  /** What a value must satisfy by itself, whatever the rest of the table holds. */
  predicate InBounds(l: Limits, id: byte, v: seq<byte>) {
    match id
    case 0x07 => |v| != 0 && |v| % 2 == 0 && |v| / 2 <= l.maxControlees
    case 0x08 => |v| == 2 && l.minSlotDuration <= U16(v)
    case 0x09 => |v| == 4 && l.minRangingInterval <= U32(v)
    case 0x20 => |v| == 2
    case 0x24 => |v| == 2 && v[0] <= l.keyRotationRateMax
    case 0x2A => |v| == 2
    case 0x06 => true
    case _ => |v| == 1 && U8InBounds(l, id, v[0])
  }

  predicate U8InBounds(l: Limits, id: byte, v: byte) {
    match id
    case 0x00 => ListedIn(l.deviceTypeMask, 8, v)
    case 0x01 => ListedIn(l.roundUsageMask, 16, v)
    case 0x02 => ListedIn(l.stsConfigMask, 8, v)
    case 0x03 => ListedIn(l.multiNodeMask, 8, v)
    case 0x04 => ListedIn(l.channelMask, 16, v)
    case 0x05 => v <= l.maxControlees
    case 0x0D => v <= l.aoaResultMax
    case 0x13 => v <= l.rssiReportingMax
    case 0x16 => v <= l.psduRateMax
    case 0x17 => v <= l.preambleDurationMax
    case 0x18 => v <= l.linkLayerModeMax
    case 0x1A => ListedIn(l.timeStructMask, 8, v)
    case 0x1B => l.slotsPerRrMin <= v <= l.slotsPerRrMax
    case 0x1F => v <= l.prfModeMax
    case 0x22 => ListedIn(l.scheduledModeMask, 8, v)
    case 0x23 => v <= l.keyRotationMax
    case 0x26 => ListedIn(l.macModeMask, 8, v)
    case 0x29 => v <= l.stsSegmentsMax
    case 0x2D => v <= l.blockStrideMax
    case 0x2E => WithinMask(v, l.resultReportMask)
    case 0x35 => v <= l.stsLengthMax
    case _ => true
  }

  lemma AcceptedInBounds(p: Profile, m: Table, id: byte, v: seq<byte>)
    requires IsChecked(id) && AppConfigVerdict(p, m, id, v).Accept?
    ensures InBounds(p.limits, id, v)
  {
  }

  /** The three checks that relate several parameters. */
  predicate CrossChecks(p: Profile, m: Table) {
    && SlotTopologyVerdict(p, m).Accept?
    && BlockStrideVerdict(p, m).Accept?
    && CapSizeVerdict(p, m).Accept?
  }

  /** Extended addresses, and any further address mode, are outside the profile. */
  ghost predicate ShortAddressesOnly(l: Limits) {
    forall mode: byte :: ListedIn(l.macModeMask, 8, mode) ==> mode == MAC_MODE_SHORT
  }

  /** The inductive invariant: every checked parameter is present and in bounds, and the cross checks hold. */
  ghost predicate SoundTable(p: Profile, m: Table) {
    && (forall id :: IsChecked(id) ==> id in m && InBounds(p.limits, id, m[id]))
    && CrossChecks(p, m)
    && (ShortAddressesOnly(p.limits) ==> |m[DEVICE_MAC_ADDRESS]| == 2)
  }

  /** Whether SET_APP_CONFIG goes on to store a value; only a rejection that surfaces at once stops it. */
  predicate Admits(p: Profile, m: Table, id: byte, v: seq<byte>) {
    IsChecked(id) ==>
      var verdict := AppConfigVerdict(p, m, id, v);
      verdict.Accept? || verdict.rejection.surface.SessionStatus?
  }

  lemma ImmediateMeansAccepted(p: Profile, m: Table, id: byte, v: seq<byte>)
    requires ImmediateFaults(p.faults) && IsChecked(id)
    ensures Admits(p, m, id, v) <==> AppConfigVerdict(p, m, id, v).Accept?
  {
  }

  /** The parameters the cross checks read. */
  predicate IsCross(id: byte) {
    || id == SLOTS_PER_RR || id == RESPONDER_SLOT_INDEX || id == BLOCK_STRIDE_LENGTH
    || id == RANGING_TIME_STRUCT || id == SCHEDULED_MODE || id == CAP_SIZE_RANGE
  }

  lemma CrossChecksLocal(p: Profile, m: Table, id: byte, v: seq<byte>)
    requires !IsCross(id) && CrossChecks(p, m)
    ensures CrossChecks(p, m[id := v])
  {
  }

  lemma CrossChecksKept(p: Profile, m: Table, id: byte, v: seq<byte>)
    requires IsCross(id) && CrossChecks(p, m) && AppConfigVerdict(p, m, id, v).Accept?
    ensures CrossChecks(p, m[id := v])
  {
    var m' := m[id := v];
    if id == SLOTS_PER_RR {
      assert BlockStrideVerdict(p, m') == BlockStrideVerdict(p, m);
    } else if id == RESPONDER_SLOT_INDEX {
      assert BlockStrideVerdict(p, m') == BlockStrideVerdict(p, m);
      assert CapSizeVerdict(p, m') == CapSizeVerdict(p, m);
    } else if id == BLOCK_STRIDE_LENGTH || id == RANGING_TIME_STRUCT {
      assert SlotTopologyVerdict(p, m') == SlotTopologyVerdict(p, m);
      assert CapSizeVerdict(p, m') == CapSizeVerdict(p, m);
    } else if id == SCHEDULED_MODE {
      assert SlotTopologyVerdict(p, m') == SlotTopologyVerdict(p, m);
    } else {
      assert SlotTopologyVerdict(p, m') == SlotTopologyVerdict(p, m);
      assert BlockStrideVerdict(p, m') == BlockStrideVerdict(p, m);
    }
  }

  /** One admitted SET keeps the cross checks, whatever else the table holds. */
  lemma SetKeepsCrossChecks(p: Profile, m: Table, id: byte, v: seq<byte>)
    requires ImmediateFaults(p.faults) && CrossChecks(p, m) && Admits(p, m, id, v)
    ensures CrossChecks(p, m[id := v])
  {
    hide AppConfigVerdict, SlotTopologyVerdict, BlockStrideVerdict, CapSizeVerdict;
    if IsCross(id) {
      ImmediateMeansAccepted(p, m, id, v);
      CrossChecksKept(p, m, id, v);
    } else {
      CrossChecksLocal(p, m, id, v);
    }
  }

  /** One admitted SET keeps the invariant, for every profile whose rejections surface immediately. */
  lemma SetKeepsSound(p: Profile, m: Table, id: byte, v: seq<byte>)
    requires ImmediateFaults(p.faults)
    requires SoundTable(p, m) && Admits(p, m, id, v)
    ensures SoundTable(p, m[id := v])
  {
    if IsChecked(id) {
      ImmediateMeansAccepted(p, m, id, v);
      AcceptedInBounds(p, m, id, v);
      if id == DEVICE_MAC_ADDRESS {
        assert InBounds(p.limits, MAC_ADDRESS_MODE, m[MAC_ADDRESS_MODE]);
      }
    }
    SetKeepsCrossChecks(p, m, id, v);
  }

  /** The responder slot lies in the ranging round. */
  predicate SlotsFit(l: Limits, m: Table) {
    && Long(m, SLOTS_PER_RR, 1) && Long(m, RESPONDER_SLOT_INDEX, 1)
    && l.slotsPerRrMin <= m[SLOTS_PER_RR][0] <= l.slotsPerRrMax && m[RESPONDER_SLOT_INDEX][0] < m[SLOTS_PER_RR][0]
  }

  /** A non-zero stride needs time-scheduled ranging with time structure 1. */
  predicate StrideFits(l: Limits, m: Table) {
    && Long(m, BLOCK_STRIDE_LENGTH, 1) && m[BLOCK_STRIDE_LENGTH][0] <= l.blockStrideMax
    && (m[BLOCK_STRIDE_LENGTH][0] != 0 ==>
          && Long(m, RANGING_TIME_STRUCT, 1) && m[RANGING_TIME_STRUCT][0] == 1
          && Long(m, SCHEDULED_MODE, 1) && m[SCHEDULED_MODE][0] == 1)
  }

  /**
   The stored cap pair is maximum first; a non-zero one needs contention-based ranging and must lie
   below the slots.
   */
  predicate CapFits(m: Table) {
    && Long(m, CAP_SIZE_RANGE, 2) && m[CAP_SIZE_RANGE][1] <= m[CAP_SIZE_RANGE][0]
    && (m[CAP_SIZE_RANGE][0] != 0 ==>
          && Long(m, SCHEDULED_MODE, 1) && m[SCHEDULED_MODE][0] == 0
          && Long(m, SLOTS_PER_RR, 1) && m[CAP_SIZE_RANGE][0] < m[SLOTS_PER_RR][0])
  }

  predicate Constraints(l: Limits, m: Table) {
    SlotsFit(l, m) && StrideFits(l, m) && CapFits(m)
  }

  /** Each context check accepts exactly the tables with its constraint. */
  lemma ContextChecksMean(p: Profile, m: Table)
    ensures SlotTopologyVerdict(p, m).Accept? <==> SlotsFit(p.limits, m)
    ensures BlockStrideVerdict(p, m).Accept? <==> StrideFits(p.limits, m)
    ensures CapSizeVerdict(p, m).Accept? <==> CapFits(m)
  {
  }

  /** The cross checks accept exactly the tables with these constraints, in which stride and cap exclude each other. */
  lemma CrossChecksMean(p: Profile, m: Table)
    ensures CrossChecks(p, m) <==> Constraints(p.limits, m)
    ensures CrossChecks(p, m) ==> m[BLOCK_STRIDE_LENGTH][0] == 0 || m[CAP_SIZE_RANGE] == [0, 0]
  {
    if CrossChecks(p, m) {
      assert m[CAP_SIZE_RANGE] == [m[CAP_SIZE_RANGE][0], m[CAP_SIZE_RANGE][1]];
    }
  }

  // ----- START -----

  predicate StsMaterial(m: Table, sts: byte) {
    && (sts == 0 ==> Long(m, STATIC_STS_IV, 8))
    && (sts == 3 || sts == 4 ==> Long(m, SESSION_KEY, 16) || Long(m, SESSION_KEY, 32))
    && (sts == 4 ==> Long(m, SUBSESSION_KEY, 16) || Long(m, SUBSESSION_KEY, 32))
  }

  predicate RotationAllowed(rotation: byte, sts: byte) {
    rotation != 0 ==> 1 <= sts <= 4
  }

  predicate MacLengthFits(length: nat, mode: byte) {
    (mode == MAC_MODE_SHORT ==> length == 2) && (mode == MAC_MODE_EXTENDED ==> length == 8)
  }

  predicate Long(m: Table, id: byte, length: nat) {
    id in m && |m[id]| == length
  }

  /** The checked parameters START reads have the lengths it reads. */
  predicate Shaped(m: Table) {
    && Long(m, DEVICE_TYPE, 1) && Long(m, MULTI_NODE_MODE, 1) && Long(m, MAC_ADDRESS_MODE, 1)
    && Long(m, NUMBER_OF_CONTROLEES, 1) && Long(m, STS_CONFIG, 1) && Long(m, PRF_MODE, 1)
    && Long(m, PREAMBLE_CODE_INDEX, 1) && Long(m, SFD_ID, 1) && Long(m, KEY_ROTATION, 1)
    && DEVICE_MAC_ADDRESS in m && DST_MAC_ADDRESS in m
  }

  /** The conditions SET_APP_CONFIG does not guarantee: what START can still refuse on a sound table. */
  predicate Gate(p: Profile, m: Table)
    requires Shaped(m)
  {
    && RolesFit(m)
    && MacLengthFits(|m[DEVICE_MAC_ADDRESS]|, m[MAC_ADDRESS_MODE][0])
    && |m[DST_MAC_ADDRESS]| / 2 == m[NUMBER_OF_CONTROLEES][0]
    && (m[MULTI_NODE_MODE][0] == 0 ==> m[NUMBER_OF_CONTROLEES][0] == 1)
    && StsMaterial(m, m[STS_CONFIG][0])
    && RotationAllowed(m[KEY_ROTATION][0], m[STS_CONFIG][0])
    && PreambleFits(p.limits, m[PREAMBLE_CODE_INDEX][0], m[PRF_MODE][0])
    && SfdFits(p.limits, m[SFD_ID][0], m[PRF_MODE][0])
  }

  /** Role 0 needs device type 0 and role 1 needs device type 1; any other role fits. */
  predicate RolesFit(m: Table)
    requires Long(m, DEVICE_TYPE, 1)
  {
    && Long(m, DEVICE_ROLE, 1)
    && (m[DEVICE_ROLE][0] == 0 ==> m[DEVICE_TYPE][0] == 0) && (m[DEVICE_ROLE][0] == 1 ==> m[DEVICE_TYPE][0] == 1)
  }

  predicate PreambleFits(l: Limits, code: byte, prf: byte) {
    && (prf == 0 ==> l.bprfPreambleMin <= code <= l.bprfPreambleMax)
    && (prf != 0 ==> l.hprfPreambleMin <= code <= l.hprfPreambleMax)
  }

  /** The id is below eight and its bit is set in the mask of the PRF mode. */
  predicate SfdFits(l: Limits, sfd: byte, prf: byte) {
    && sfd < 8
    && (prf == 0 ==> l.bprfSfdMask / Pow2(sfd) % 2 == 1)
    && (prf != 0 ==> l.hprfSfdMask / Pow2(sfd) % 2 == 1)
  }

  lemma SfdMeans(l: Limits, sfd: byte, prf: byte)
    ensures SfdAllowed(l, sfd, prf) <==> SfdFits(l, sfd, prf)
  {
    BitIs(l.bprfSfdMask, sfd);
    BitIs(l.hprfSfdMask, sfd);
  }

  lemma NodeTopologyGate(p: Profile, m: Table)
    requires SoundTable(p, m)
    ensures Shaped(m)
    ensures NodeTopologyVerdict(p, m).Accept? <==>
            && MacLengthFits(|m[DEVICE_MAC_ADDRESS]|, m[MAC_ADDRESS_MODE][0])
            && |m[DST_MAC_ADDRESS]| / 2 == m[NUMBER_OF_CONTROLEES][0]
            && (m[MULTI_NODE_MODE][0] == 0 ==> m[NUMBER_OF_CONTROLEES][0] == 1)
  {
    assert InBounds(p.limits, MULTI_NODE_MODE, m[MULTI_NODE_MODE]);
    assert InBounds(p.limits, MAC_ADDRESS_MODE, m[MAC_ADDRESS_MODE]);
    assert InBounds(p.limits, NUMBER_OF_CONTROLEES, m[NUMBER_OF_CONTROLEES]);
    assert InBounds(p.limits, DST_MAC_ADDRESS, m[DST_MAC_ADDRESS]);
  }

  lemma StsGate(p: Profile, m: Table)
    requires SoundTable(p, m)
    ensures Shaped(m)
    ensures StsVerdict(p, m).Accept? <==> StsMaterial(m, m[STS_CONFIG][0])
  {
    assert InBounds(p.limits, STS_CONFIG, m[STS_CONFIG]);
  }

  lemma ReportGate(p: Profile, m: Table)
    requires SoundTable(p, m)
    ensures ReportVerdict(p, m).Accept?
  {
    assert InBounds(p.limits, RESULT_REPORT_CONFIG, m[RESULT_REPORT_CONFIG]);
    assert InBounds(p.limits, AOA_RESULT_REQ, m[AOA_RESULT_REQ]);
  }

  lemma RadioGate(p: Profile, m: Table)
    requires SoundTable(p, m)
    ensures Shaped(m)
    ensures RadioVerdict(p, m).Accept? <==>
            && PreambleFits(p.limits, m[PREAMBLE_CODE_INDEX][0], m[PRF_MODE][0])
            && SfdFits(p.limits, m[SFD_ID][0], m[PRF_MODE][0])
  {
    assert InBounds(p.limits, PRF_MODE, m[PRF_MODE]);
    SfdMeans(p.limits, m[SFD_ID][0], m[PRF_MODE][0]);
  }

  lemma FrameGate(p: Profile, m: Table)
    requires SoundTable(p, m)
    ensures FrameVerdict(p, m).Accept?
  {
    assert InBounds(p.limits, PSDU_DATA_RATE, m[PSDU_DATA_RATE]);
    assert InBounds(p.limits, PREAMBLE_DURATION, m[PREAMBLE_DURATION]);
    assert InBounds(p.limits, STS_LENGTH, m[STS_LENGTH]);
  }

  lemma RotationGate(p: Profile, m: Table)
    requires SoundTable(p, m)
    ensures Shaped(m)
    ensures RotationVerdict(p, m).Accept? <==> RotationAllowed(m[KEY_ROTATION][0], m[STS_CONFIG][0])
  {
    assert InBounds(p.limits, KEY_ROTATION, m[KEY_ROTATION]);
    assert InBounds(p.limits, KEY_ROTATION_RATE, m[KEY_ROTATION_RATE]);
  }

  lemma LinkGate(p: Profile, m: Table)
    requires SoundTable(p, m)
    ensures LinkVerdict(p, m).Accept?
  {
    assert InBounds(p.limits, NUMBER_OF_STS_SEGMENTS, m[NUMBER_OF_STS_SEGMENTS]);
    assert InBounds(p.limits, LINK_LAYER_MODE, m[LINK_LAYER_MODE]);
  }

  lemma ScheduleGate(p: Profile, m: Table)
    requires SoundTable(p, m)
    ensures ScheduleVerdict(p, m).Accept?
  {
    assert InBounds(p.limits, RANGING_TIME_STRUCT, m[RANGING_TIME_STRUCT]);
    assert InBounds(p.limits, SCHEDULED_MODE, m[SCHEDULED_MODE]);
  }

  /** On a sound table START is accepted exactly when the gate conditions hold: every other check always passes. */
  lemma StartAcceptedIffGate(p: Profile, m: Table)
    requires SoundTable(p, m)
    ensures Shaped(m) && (StartVerdict(p, m).Accept? <==> Gate(p, m))
  {
    NodeTopologyGate(p, m);
    StsGate(p, m);
    ReportGate(p, m);
    RadioGate(p, m);
    FrameGate(p, m);
    RotationGate(p, m);
    LinkGate(p, m);
    ScheduleGate(p, m);
    assert InBounds(p.limits, RANGING_INTERVAL, m[RANGING_INTERVAL]);
    assert InBounds(p.limits, DEVICE_TYPE, m[DEVICE_TYPE]);
    assert InBounds(p.limits, SLOT_DURATION, m[SLOT_DURATION]);
    assert InBounds(p.limits, CHANNEL_NUMBER, m[CHANNEL_NUMBER]);
    assert InBounds(p.limits, RSSI_REPORTING, m[RSSI_REPORTING]);
    assert InBounds(p.limits, RANGING_ROUND_USAGE, m[RANGING_ROUND_USAGE]);
  }

  // ----- the table of a new session -----

  function FreshTable(tlvs: seq<Tlv>): Table {
    StoreAll(map[], MAX_SESSION_CONFIGS, tlvs)
  }

  /** Each default of the default profile is stored under its id. */
  lemma DefaultStored(m: Table, id: byte)
    requires m == FreshTable(DefaultTlvs())
    requires id <= 0x4D && id != 0x48
    ensures id in m && m[id] == DefaultValue(id)
  {
    var tlvs := DefaultTlvs();
    var i := if id < 0x48 then id else id - 1;
    assert tlvs[i] == Tlv(id, DefaultValue(id));
    forall j, k | 0 <= j < k < |tlvs| ensures tlvs[j].id != tlvs[k].id {
    }
    forall j | 0 <= j < |tlvs| ensures |tlvs[j].value| <= MAX_CONFIG_VALUE {
      DefaultValueShort(DefaultIds()[j]);
    }
    StoreAllFits(map[], MAX_SESSION_CONFIGS, tlvs, i);
  }

  lemma DefaultValueShort(id: byte)
    ensures |DefaultValue(id)| <= 16
  {
  }

  lemma DefaultInBounds(id: byte)
    requires IsChecked(id)
    ensures InBounds(DefaultLimits(), id, DefaultValue(id))
  {
  }

  lemma DefaultCrossChecks(p: Profile, m: Table)
    requires p.limits == DefaultLimits()
    requires Long(m, SLOTS_PER_RR, 1) && m[SLOTS_PER_RR][0] == 6
    requires Long(m, RESPONDER_SLOT_INDEX, 1) && m[RESPONDER_SLOT_INDEX][0] == 0
    requires Long(m, BLOCK_STRIDE_LENGTH, 1) && m[BLOCK_STRIDE_LENGTH][0] == 0
    requires Long(m, CAP_SIZE_RANGE, 2) && m[CAP_SIZE_RANGE][0] == m[CAP_SIZE_RANGE][1] == 0
    ensures CrossChecks(p, m)
  {
  }

  ghost predicate HoldsDefaults(m: Table) {
    forall id: byte :: id <= 0x4D && id != 0x48 ==> id in m && m[id] == DefaultValue(id)
  }

  lemma DefaultTableCrossChecks(p: Profile, m: Table)
    requires p.limits == DefaultLimits() && HoldsDefaults(m)
    ensures CrossChecks(p, m) && Long(m, DEVICE_MAC_ADDRESS, 2)
  {
    assert m[SLOTS_PER_RR] == [6] && m[RESPONDER_SLOT_INDEX] == [0] && m[BLOCK_STRIDE_LENGTH] == [0];
    assert m[CAP_SIZE_RANGE] == [0, 0];
    DefaultCrossChecks(p, m);
    assert m[DEVICE_MAC_ADDRESS] == [0xCD, 0xAB];
  }

  /** The table of a new session in the default profile satisfies the invariant. */
  lemma DefaultTableSound(m: Table)
    requires m == FreshTable(DefaultTlvs())
    ensures SoundTable(DefaultProfile(), m)
  {
    forall id: byte | id <= 0x4D && id != 0x48 ensures id in m && m[id] == DefaultValue(id) {
      DefaultStored(m, id);
    }
    var l := DefaultLimits();
    forall id | IsChecked(id) ensures id in m && InBounds(l, id, m[id]) {
      DefaultInBounds(id);
    }
    DefaultTableCrossChecks(DefaultProfile(), m);
  }

  lemma DefaultIsShortOnly()
    ensures ShortAddressesOnly(DefaultLimits())
  {
    forall mode: byte | ListedIn(DefaultLimits().macModeMask, 8, mode) ensures mode == MAC_MODE_SHORT {
      OnlyBitZero(mode);
    }
  }

  lemma OnlyBitZero(n: nat)
    ensures Bit(1, n) <==> n == 0
  {
    if n > 0 { NoBits(n - 1); }
  }

  /** In the default profile the address length never stops START: only the six listed conditions can. */
  lemma DefaultStartAcceptedIff(m: Table)
    requires SoundTable(DefaultProfile(), m)
    ensures Shaped(m)
    ensures StartVerdict(DefaultProfile(), m).Accept? <==> DefaultGate(m)
  {
    StartAcceptedIffGate(DefaultProfile(), m);
    DefaultIsShortOnly();
    assert InBounds(DefaultLimits(), MAC_ADDRESS_MODE, m[MAC_ADDRESS_MODE]);
    assert InBounds(DefaultLimits(), STS_CONFIG, m[STS_CONFIG]);
    StsModesOfDefault(m[STS_CONFIG][0]);
    DefaultSfds(m[SFD_ID][0]);
  }

  /** What START still asks of a sound table in the default profile, in numbers. */
  predicate DefaultGate(m: Table)
    requires Shaped(m)
  {
    var sts, prf, code, sfd := m[STS_CONFIG][0], m[PRF_MODE][0], m[PREAMBLE_CODE_INDEX][0], m[SFD_ID][0];
    && DEVICE_ROLE in m && |m[DEVICE_ROLE]| == 1
    && (m[DEVICE_ROLE][0] == 0 ==> m[DEVICE_TYPE][0] == 0) && (m[DEVICE_ROLE][0] == 1 ==> m[DEVICE_TYPE][0] == 1)
    && |m[DST_MAC_ADDRESS]| / 2 == m[NUMBER_OF_CONTROLEES][0]
    && (m[MULTI_NODE_MODE][0] == 0 ==> m[NUMBER_OF_CONTROLEES][0] == 1)
    && (sts == 0 ==> STATIC_STS_IV in m && |m[STATIC_STS_IV]| == 8)
    && (sts == 3 || sts == 4 ==> SESSION_KEY in m && |m[SESSION_KEY]| in {16, 32})
    && (sts == 4 ==> SUBSESSION_KEY in m && |m[SUBSESSION_KEY]| in {16, 32})
    && (m[KEY_ROTATION][0] != 0 ==> sts != 0)
    && (if prf == 0 then 9 <= code <= 12 else 25 <= code <= 32)
    && (if prf == 0 then sfd == 0 || sfd == 2 else 1 <= sfd <= 4)
  }

  lemma DefaultSfds(sfd: byte)
    ensures sfd < 8 && 0x05 / Pow2(sfd) % 2 == 1 <==> sfd == 0 || sfd == 2
    ensures sfd < 8 && 0x1E / Pow2(sfd) % 2 == 1 <==> 1 <= sfd <= 4
  {
    if sfd < 8 {
      PowersOfTwo();
    }
  }

  lemma PowersOfTwo()
    ensures Pow2(0) == 1 && Pow2(1) == 2 && Pow2(2) == 4 && Pow2(3) == 8 && Pow2(4) == 16 && Pow2(5) == 32
    ensures Pow2(6) == 64 && Pow2(7) == 128
  {
  }

  lemma StsModesOfDefault(sts: byte)
    requires ListedIn(DefaultLimits().stsConfigMask, 8, sts)
    ensures sts <= 4
  {
    assert !Bit(0x1F, 5) && !Bit(0x1F, 6) && !Bit(0x1F, 7);
  }
}
