/**
 Which values SESSION_SET_APP_CONFIG accepts, both ways: for any profile in terms of its
 limits, and for the default profile in numbers, with the status of every refusal.
 */
module Acceptance {
  import opened Types
  import opened Profiles
  import opened ConfigTables
  import opened Validation
  import opened StartGate
  import opened Devices

  // ----- any profile -----

  /** The address length that the stored mode asks for; without a stored mode, a short address. */
  predicate MacFits(l: Limits, m: Table, length: nat) {
    var mode := if Long(m, MAC_ADDRESS_MODE, 1) then m[MAC_ADDRESS_MODE][0] else 0;
    if mode == 0 then length == 2 else if mode == 1 then length == 8
    else mode < 8 && l.macModeMask / Pow2(mode) % 2 == 1
  }

  /** The stored PRF mode, 0 without one. */
  function StoredPrf(m: Table): byte {
    if Long(m, PRF_MODE, 1) then m[PRF_MODE][0] else 0
  }

  /** What a value must satisfy together with the rest of the table. */
  predicate ContextFits(l: Limits, m: Table, id: byte, v: seq<byte>) {
    var m' := m[id := v];
    match id
    case 0x06 => MacFits(l, m, |v|)
    case 0x14 => |v| == 1 && StoredPrf(m) <= l.prfModeMax && PreambleFits(l, v[0], StoredPrf(m))
    case 0x15 => |v| == 1 && StoredPrf(m) <= l.prfModeMax && SfdFits(l, v[0], StoredPrf(m))
    case 0x1A => StrideFits(l, m')
    case 0x1B => SlotsFit(l, m') && CapFits(m')
    case 0x1E => SlotsFit(l, m')
    case 0x20 => CapFits(m')
    case 0x22 => StrideFits(l, m') && CapFits(m')
    case 0x2D => StrideFits(l, m')
    case _ => true
  }

  /** A checked value is accepted if and only if it is in bounds and fits the rest of the table. */
  lemma AcceptedIff(p: Profile, m: Table, id: byte, v: seq<byte>)
    requires IsChecked(id)
    ensures AppConfigVerdict(p, m, id, v).Accept? <==> InBounds(p.limits, id, v) && ContextFits(p.limits, m, id, v)
  {
    hide Bit, SlotTopologyVerdict, BlockStrideVerdict, CapSizeVerdict, SlotsFit, StrideFits, CapFits, U16, U32, SfdFits,
      SfdAllowed;
    ContextChecksMean(p, m[id := v]);
    if id == SFD_ID && |v| == 1 { SfdMeans(p.limits, v[0], StoredPrf(m)); }
    if id == DEVICE_MAC_ADDRESS && Long(m, MAC_ADDRESS_MODE, 1) { BitIs(p.limits.macModeMask, m[MAC_ADDRESS_MODE][0]); }
  }

  /**
   The fault a checked parameter is refused with: the one named for it, with the plain status when the length is wrong.
   A value that is in bounds by itself is refused by the constraint it breaks.
   */
  lemma RefusedFault(p: Profile, m: Table, id: byte, v: seq<byte>)
    requires IsChecked(id) && AppConfigVerdict(p, m, id, v).Reject?
    ensures var fault, alone := AppConfigVerdict(p, m, id, v).rejection, NamedFault(p.faults, id);
            && (id in NAMED && |v| != LengthOf(id) ==> fault == alone.(status := 4))
            && (id in NAMED && |v| == LengthOf(id) && !InBounds(p.limits, id, v) ==> fault == alone)
            && (id in {0x1A, 0x2D} && InBounds(p.limits, id, v) ==> fault == p.faults.blockStride)
            && (id == 0x22 && InBounds(p.limits, id, v) ==>
                  fault == if StrideFits(p.limits, m[id := v]) then p.faults.capSize else p.faults.blockStride)
            && (id == 0x1B && InBounds(p.limits, id, v) ==>
                  fault == if SlotsFit(p.limits, m[id := v]) then p.faults.capSize else p.faults.slotsPerRr)
            && (id == 0x1E ==> fault == if |v| != 1 then p.faults.slotsPerRr.(status := 4) else p.faults.slotsPerRr)
            && (id == 0x20 ==> fault == if |v| != 2 then p.faults.capSize.(status := 4) else p.faults.capSize)
            && (id == 0x07 ==> fault == p.faults.dstMac)
            && (id == 0x2A ==> fault == Rejection(4, 0, Immediate))
            && (id == 0x09 && |v| != 4 ==> fault == Rejection(4, 0x23, Immediate))
            && (id == 0x09 && |v| == 4 ==> fault == p.faults.rangingInterval)
            && (id == 0x2E ==> fault == if |v| != 1 then Rejection(4, 0x37, Immediate) else p.faults.resultReport)
            && (id in {0x14, 0x15} && |v| == 1 ==>
                  fault == if StoredPrf(m) > p.limits.prfModeMax then p.faults.prfMode
                           else if id == 0x14 then p.faults.preamble else p.faults.sfd)
            && (id == 0x06 ==>
                  fault == if Long(m, MAC_ADDRESS_MODE, 1) && m[MAC_ADDRESS_MODE][0] > 1 then p.faults.macMode
                           else p.faults.deviceMac)
  {
    hide Bit, U16, U32, ListedIn, WithinMask, SlotsFit, StrideFits, CapFits, SlotTopologyVerdict, BlockStrideVerdict,
      CapSizeVerdict, SfdAllowed, PreambleAllowed;
    ContextChecksMean(p, m[id := v]);
    ContextFaults(p, m[id := v]);
  }

  lemma ContextFaults(p: Profile, m: Table)
    ensures var v := SlotTopologyVerdict(p, m); v.Reject? ==> v.rejection == p.faults.slotsPerRr
    ensures var v := BlockStrideVerdict(p, m); v.Reject? ==> v.rejection == p.faults.blockStride
    ensures var v := CapSizeVerdict(p, m); v.Reject? ==> v.rejection == p.faults.capSize
  {
  }

  /** The ids whose value is judged by its length and by its own bounds. */
  const NAMED: set<byte> :=
    {0x00, 0x01, 0x02, 0x03, 0x04, 0x05, 0x08, 0x0D, 0x13, 0x16, 0x17, 0x18, 0x1A, 0x1B, 0x1F, 0x22, 0x23, 0x24, 0x26,
     0x29,
     0x2D, 0x35}

  function LengthOf(id: byte): nat {
    if id == 0x08 || id == 0x24 then 2 else 1
  }

  /** The fault of a profile that is named for a parameter. */
  function NamedFault(f: Faults, id: byte): Rejection {
    match id
    case 0x00 => f.deviceType
    case 0x01 => f.roundUsage
    case 0x02 => f.stsConfig
    case 0x03 => f.multiNode
    case 0x04 => f.channel
    case 0x05 => f.controlees
    case 0x08 => f.slotDuration
    case 0x0D => f.aoaResult
    case 0x13 => f.rssiReporting
    case 0x16 => f.psduRate
    case 0x17 => f.preambleDuration
    case 0x18 => f.linkLayerMode
    case 0x1A => f.timeStruct
    case 0x1B => f.slotsPerRr
    case 0x1F => f.prfMode
    case 0x22 => f.scheduledMode
    case 0x23 => f.keyRotation
    case 0x24 => f.keyRotationRate
    case 0x26 => f.macMode
    case 0x29 => f.stsSegments
    case 0x2D => f.blockStride
    case _ => f.stsLength
  }

  /** A refusal that is not reported by SET, which stores the value all the same. */
  predicate ShowsLater(v: Verdict) {
    v.Reject? && v.rejection.surface.SessionStatus?
  }

  /** A parameter of any profile is stored if and only if it is supported, not refused at once, and fits the table. */
  lemma StoredIff(p: Profile, m: Table, t: Tlv)
    ensures Refusal(p, m, t) == None <==>
            && t.id in p.appConfigIds
            && (IsChecked(t.id) ==>
                  || (InBounds(p.limits, t.id, t.value) && ContextFits(p.limits, m, t.id, t.value))
                  || ShowsLater(AppConfigVerdict(p, m, t.id, t.value)))
            && |t.value| <= 64 && (t.id in m || |m| < 80)
  {
    hide AppConfigVerdict, InBounds, ContextFits;
    if IsChecked(t.id) { AcceptedIff(p, m, t.id, t.value); }
  }

  // ----- the default profile -----

  /** One byte between two bounds. */
  predicate One(v: seq<byte>, low: nat, high: nat) {
    |v| == 1 && low <= v[0] <= high
  }

  /** What SET accepts in the default profile, in numbers; ids without a case are stored unchecked. */
  predicate DefaultFits(m: Table, id: byte, v: seq<byte>) {
    var m' := m[id := v];
    match id
    case 0x00 => One(v, 0, 1)
    case 0x01 => |v| == 1 && v[0] in {1, 2, 3, 4, 7, 8}
    case 0x02 => One(v, 0, 4)
    case 0x03 => One(v, 0, 2)
    case 0x04 => |v| == 1 && v[0] in {5, 9}
    case 0x05 => One(v, 0, 8)
    case 0x06 => |v| == if Long(m, MAC_ADDRESS_MODE, 1) && m[MAC_ADDRESS_MODE][0] == 1 then 8
                        else if !Long(m, MAC_ADDRESS_MODE, 1) || m[MAC_ADDRESS_MODE][0] == 0 then 2 else -1
    case 0x07 => |v| in {2, 4, 6, 8, 10, 12, 14, 16}
    case 0x08 => |v| == 2 && (v[0] as int) + 256 * (v[1] as int) >= 16
    case 0x09 => |v| == 4 && (v[0] as int) + 256 * ((v[1] as int) + 256 * ((v[2] as int) + 256 * (v[3] as int))) >= 50
    case 0x0D => One(v, 0, 3)
    case 0x13 => One(v, 0, 1)
    case 0x14 => StoredPrf(m) <= 2 && if StoredPrf(m) == 0 then One(v, 9, 12) else One(v, 25, 32)
    case 0x15 => StoredPrf(m) <= 2 && if StoredPrf(m) == 0 then |v| == 1 && v[0] in {0, 2} else One(v, 1, 4)
    case 0x16 => One(v, 0, 3)
    case 0x17 => One(v, 0, 1)
    case 0x18 => One(v, 0, 1)
    case 0x1A => One(v, 0, 1) && DefaultStride(m')
    case 0x1B => One(v, 1, 255) && DefaultSlots(m') && CapFits(m')
    case 0x1E => |v| == 1 && DefaultSlots(m')
    case 0x1F => One(v, 0, 2)
    case 0x20 => |v| == 2 && CapFits(m')
    case 0x22 => One(v, 1, 1) && DefaultStride(m') && CapFits(m')
    case 0x23 => One(v, 0, 1)
    case 0x24 => |v| == 2 && v[0] <= 15
    case 0x26 => One(v, 0, 0)
    case 0x29 => One(v, 0, 4)
    case 0x2A => |v| == 2
    case 0x2D => |v| == 1 && DefaultStride(m')
    case 0x2E => One(v, 0, 15)
    case 0x35 => One(v, 0, 2)
    case _ => true
  }

  /** At least one slot, and the responder's index among them. */
  predicate DefaultSlots(m: Table) {
    Long(m, SLOTS_PER_RR, 1) && Long(m, RESPONDER_SLOT_INDEX, 1) && m[RESPONDER_SLOT_INDEX][0] < m[SLOTS_PER_RR][0]
  }

  predicate DefaultStride(m: Table) {
    && Long(m, BLOCK_STRIDE_LENGTH, 1)
    && (m[BLOCK_STRIDE_LENGTH][0] != 0 ==>
          && Long(m, RANGING_TIME_STRUCT, 1) && m[RANGING_TIME_STRUCT][0] == 1
          && Long(m, SCHEDULED_MODE, 1) && m[SCHEDULED_MODE][0] == 1)
  }

  lemma BitsFrom(mask: nat, n: nat)
    requires n >= 4
    ensures Bit(mask, n) <==> Bit(mask / 16, n - 4)
  {
    assert Bit(mask, n) == Bit(mask / 2, n - 1) && Bit(mask / 2, n - 1) == Bit(mask / 4, n - 2);
    assert Bit(mask / 4, n - 2) == Bit(mask / 8, n - 3) && Bit(mask / 8, n - 3) == Bit(mask / 16, n - 4);
  }

  lemma LowBits(mask: nat)
    ensures Bit(mask, 0) <==> mask % 2 == 1
    ensures Bit(mask, 1) <==> mask / 2 % 2 == 1
    ensures Bit(mask, 2) <==> mask / 4 % 2 == 1
    ensures Bit(mask, 3) <==> mask / 8 % 2 == 1
  {
    hide Bit;
    PowersOfTwo();
    BitIs(mask, 0);
    BitIs(mask, 1);
    BitIs(mask, 2);
    BitIs(mask, 3);
  }

  /** The masks of the default profile as sets of values. */
  lemma NarrowMasks(v: byte)
    ensures ListedIn(0x03, 8, v) <==> v <= 1
    ensures ListedIn(0x1F, 8, v) <==> v <= 4
    ensures ListedIn(0x07, 8, v) <==> v <= 2
    ensures ListedIn(0x02, 8, v) <==> v == 1
    ensures ListedIn(0x01, 8, v) <==> v == 0
  {
    OnlyBitZero(v);
    if v >= 4 {
      BitsFrom(0x03, v);
      BitsFrom(0x1F, v);
      BitsFrom(0x07, v);
      NoBits(v - 4);
      OnlyBitZero(v - 4);
    }
  }

  lemma WideMasks(v: byte)
    ensures ListedIn(0x19E, 16, v) <==> v in {1, 2, 3, 4, 7, 8}
    ensures ListedIn(0x220, 16, v) <==> v in {5, 9}
  {
    if v >= 4 {
      BitsFrom(0x19E, v);
      BitsFrom(0x220, v);
      if v >= 8 {
        BitsFrom(0x19, v - 4);
        BitsFrom(0x22, v - 4);
        if v >= 12 {
          BitsFrom(0x01, v - 8);
          BitsFrom(0x02, v - 8);
        }
      }
    }
  }

  lemma LowNibble(v: byte)
    ensures WithinMask(v, 0x0F) <==> v <= 15
  {
    LowBits(0x0F);
    LowBits(v / 16);
    BitsFrom(v, 4);
    BitsFrom(v, 5);
    BitsFrom(v, 6);
    BitsFrom(v, 7);
    assert v <= 15 ==> v / 16 == 0;
    assert v > 15 ==> Bit(v, 4) || Bit(v, 5) || Bit(v, 6) || Bit(v, 7);
  }

  /** The part of those conditions that looks at the value alone. */
  predicate DefaultAlone(id: byte, v: seq<byte>) {
    match id
    case 0x1A => One(v, 0, 1)
    case 0x1B => One(v, 1, 255)
    case 0x1E => |v| == 1
    case 0x20 => |v| == 2
    case 0x22 => One(v, 1, 1)
    case 0x2D => |v| == 1
    case 0x14 => |v| == 1
    case 0x15 => |v| == 1
    case 0x06 => true
    case _ => DefaultFits(map[], id, v)
  }

  lemma BoundsInNumbers(id: byte, v: seq<byte>)
    requires IsChecked(id)
    ensures InBounds(DefaultLimits(), id, v) <==> DefaultAlone(id, v)
  {
    hide Bit;
    if |v| == 1 {
      NarrowMasks(v[0]);
      WideMasks(v[0]);
      LowNibble(v[0]);
    }
    if |v| == 4 {
      assert v[..2] == [v[0], v[1]] && v[2..] == [v[2], v[3]];
    }
  }

  lemma ContextInNumbers(m: Table, id: byte, v: seq<byte>)
    requires IsChecked(id) && DefaultAlone(id, v)
    ensures ContextFits(DefaultLimits(), m, id, v) <==> DefaultFits(m, id, v)
  {
    PowersOfTwo();
    if |v| == 1 { DefaultSfds(v[0]); }
  }

  /** In the default profile, over any table: SET accepts a checked value if and only if these numbers hold. */
  lemma DefaultAcceptedIff(m: Table, id: byte, v: seq<byte>)
    requires IsChecked(id)
    ensures AppConfigVerdict(DefaultProfile(), m, id, v).Accept? <==> DefaultFits(m, id, v)
  {
    hide AppConfigVerdict, DefaultFits, InBounds, ContextFits, DefaultAlone;
    AcceptedIff(DefaultProfile(), m, id, v);
    BoundsInNumbers(id, v);
    FitsAlone(m, id, v);
    if DefaultAlone(id, v) { ContextInNumbers(m, id, v); }
  }

  lemma FitsAlone(m: Table, id: byte, v: seq<byte>)
    ensures DefaultFits(m, id, v) ==> DefaultAlone(id, v)
  {
  }

  /** The ids of the default profile: 0x00 to 0x4D without 0x48, and three antenna parameters. */
  predicate DefaultId(id: byte) {
    (id <= 0x4D && id != 0x48) || id in {0xB6, 0xE6, 0xE7}
  }

  lemma DefaultIdMeans(id: byte)
    ensures id in DefaultAppConfigIds() <==> DefaultId(id)
  {
    var ids := DefaultAppConfigIds();
    if id <= 0x4D && id != 0x48 { assert ids[if id < 0x48 then id else id - 1] == id; }
    assert ids[77] == 0xB6 && ids[78] == 0xE6 && ids[79] == 0xE7;
  }

  /**
   The status that refuses one parameter in the default profile, and none if and only if it is stored: 4 for an
   unsupported id or a bad value, 5 for an interval that is too short, 1 when it is too long or the table is full.
   */
  function DefaultRefusal(m: Table, t: Tlv): Option<byte> {
    if !DefaultId(t.id) then Some(4)
    else if !DefaultFits(m, t.id, t.value) then Some(if t.id == 0x09 && |t.value| == 4 then 5 else 4)
    else if |t.value| > 64 || (t.id !in m && |m| >= 80) then Some(1)
    else None
  }

  /** A refusal that shows at once, with a status. */
  predicate RefusesWith(v: Verdict, status: byte) {
    v.Reject? ==> v.rejection.surface.Immediate? && v.rejection.status == status
  }

  lemma ContextStatus(p: Profile, m: Table)
    requires p.faults == DefaultFaults()
    ensures RefusesWith(SlotTopologyVerdict(p, m), 4)
    ensures RefusesWith(BlockStrideVerdict(p, m), 4)
    ensures RefusesWith(CapSizeVerdict(p, m), 4)
  {
  }

  lemma RefusalStatus(p: Profile, m: Table, id: byte, v: seq<byte>)
    requires p.faults == DefaultFaults()
    ensures RefusesWith(AppConfigVerdict(p, m, id, v), if id == 0x09 && |v| == 4 then 5 else 4)
  {
    hide Bit, U16, U32, ListedIn, WithinMask, SlotTopologyVerdict, BlockStrideVerdict, CapSizeVerdict, SfdAllowed,
      PreambleAllowed;
    ContextStatus(p, m[id := v]);
  }

  /** Whether and with which status the default profile refuses a parameter, over any table. */
  lemma DefaultRefusalIs(m: Table, t: Tlv)
    ensures Refusal(DefaultProfile(), m, t) == DefaultRefusal(m, t)
  {
    hide AppConfigVerdict, DefaultFits, DefaultAppConfigIds;
    DefaultIdMeans(t.id);
    if IsChecked(t.id) {
      DefaultAcceptedIff(m, t.id, t.value);
      RefusalStatus(DefaultProfile(), m, t.id, t.value);
    } else {
      UncheckedFits(m, t.id, t.value);
    }
  }

  lemma UncheckedFits(m: Table, id: byte, v: seq<byte>)
    requires !IsChecked(id)
    ensures DefaultFits(m, id, v)
  {
  }
}
