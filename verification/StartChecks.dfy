/**
 The whole START validation as one ordered chain of conditions, each with the fault it
 reports: on any table of any profile START is refused with the fault of the first
 condition that fails, and accepted when none does.
 */
module StartChecks {
  import opened Types
  import opened Profiles
  import opened ConfigTables
  import opened Validation
  import opened StartGate
  import opened Acceptance
  import opened Reports

  /** A condition with the fault it reports, and what is checked after it. */
  function Need(holds: bool, fault: Rejection, rest: Option<Rejection>): Option<Rejection> {
    if holds then rest else Some(fault)
  }

  // ----- conditions -----

  /** A value below the width whose bit is set in a mask. */
  predicate Listed(mask: nat, width: nat, v: byte) {
    v < width && mask / Pow2(v) % 2 == 1
  }

  lemma ListedMeans(mask: nat, width: nat, v: byte)
    ensures ListedIn(mask, width, v) <==> Listed(mask, width, v)
  {
    BitIs(mask, v);
  }

  /** Every bit of a value is one of a mask. */
  predicate Within(v: byte, mask: byte) {
    forall n :: 0 <= n < 8 && v / Pow2(n) % 2 == 1 ==> mask / Pow2(n) % 2 == 1
  }

  lemma WithinMeans(v: byte, mask: byte)
    ensures WithinMask(v, mask) <==> Within(v, mask)
  {
    hide Bit, Pow2;
    forall n: nat | n < 8
      ensures Bit(v, n) <==> v / Pow2(n) % 2 == 1
      ensures Bit(mask, n) <==> mask / Pow2(n) % 2 == 1
    {
      BitIs(v, n);
      BitIs(mask, n);
    }
  }

  /** A stored one-byte parameter with its value as a number; longer, shorter or missing ones have none. */
  predicate IsByte(m: Table, id: byte) {
    id in m && |m[id]| == 1
  }

  function Byte(m: Table, id: byte): byte {
    if IsByte(m, id) then m[id][0] else 0
  }

  function LengthAt(m: Table, id: byte): nat {
    if id in m then |m[id]| else 0
  }

  // ----- the chain -----

  function RoleFault(p: Profile, m: Table, rest: Option<Rejection>): Option<Rejection> {
    var f, role, kind := p.faults.deviceType, Byte(m, 0x11), Byte(m, 0x00);
    Need(IsByte(m, 0x00), f,
    Need(Listed(p.limits.deviceTypeMask, 8, kind), f,
    Need(IsByte(m, 0x11), Rejection(4, 0, Immediate),
    Need((role == 0 ==> kind == 0) && (role == 1 ==> kind == 1), f,
    rest))))
  }

  function NodeFault(p: Profile, m: Table, rest: Option<Rejection>): Option<Rejection> {
    var l, f := p.limits, p.faults;
    var node, mode, count, dst := Byte(m, 0x03), Byte(m, 0x26), Byte(m, 0x05), LengthAt(m, 0x07);
    Need(IsByte(m, 0x03), f.multiNode,
    Need(Listed(l.multiNodeMask, 8, node), f.multiNode,
    Need(IsByte(m, 0x26), f.macMode,
    Need(Listed(l.macModeMask, 8, mode), f.macMode,
    Need(IsByte(m, 0x05), f.controlees,
    Need(count <= l.maxControlees, f.controlees,
    Need(0x06 in m, f.deviceMac,
    Need((mode == 0 ==> LengthAt(m, 0x06) == 2) && (mode == 1 ==> LengthAt(m, 0x06) == 8), f.deviceMac,
    Need(0x07 in m, f.dstMac,
    Need(dst > 0 && dst % 2 == 0 && dst / 2 <= l.maxControlees, f.dstMac,
    Need(dst / 2 == count, f.controlees,
    Need(node == 0 ==> count == 1 && dst == 2, f.multiNode,
    rest))))))))))))
  }

  function StsFault(p: Profile, m: Table, rest: Option<Rejection>): Option<Rejection> {
    var f, sts := p.faults.stsConfig, Byte(m, 0x02);
    Need(IsByte(m, 0x02), f,
    Need(Listed(p.limits.stsConfigMask, 8, sts), f,
    Need(sts == 0 ==> LengthAt(m, 0x28) == 8, f,
    Need(sts == 3 || sts == 4 ==> LengthAt(m, 0x45) == 16 || LengthAt(m, 0x45) == 32, f,
    Need(sts == 4 ==> LengthAt(m, 0x46) == 16 || LengthAt(m, 0x46) == 32, f,
    rest)))))
  }

  function ReportFault(p: Profile, m: Table, rest: Option<Rejection>): Option<Rejection> {
    Need(Within(if IsByte(m, 0x2E) then Byte(m, 0x2E) else 1, p.limits.resultReportMask), p.faults.resultReport,
    Need(Byte(m, 0x0D) <= p.limits.aoaResultMax, p.faults.aoaResult,
    rest))
  }

  function RadioFault(p: Profile, m: Table, rest: Option<Rejection>): Option<Rejection> {
    var l, f, prf := p.limits, p.faults, Byte(m, 0x1F);
    Need(IsByte(m, 0x1F), f.prfMode,
    Need(prf <= l.prfModeMax, f.prfMode,
    Need(IsByte(m, 0x14), f.preamble,
    Need(PreambleFits(l, Byte(m, 0x14), prf), f.preamble,
    Need(IsByte(m, 0x15), f.sfd,
    Need(SfdFits(l, Byte(m, 0x15), prf), f.sfd,
    rest))))))
  }

  function FrameFault(p: Profile, m: Table, rest: Option<Rejection>): Option<Rejection> {
    var l, f := p.limits, p.faults;
    Need(IsByte(m, 0x16), f.psduRate,
    Need(Byte(m, 0x16) <= l.psduRateMax, f.psduRate,
    Need(IsByte(m, 0x17), f.preambleDuration,
    Need(Byte(m, 0x17) <= l.preambleDurationMax, f.preambleDuration,
    Need(IsByte(m, 0x35), f.stsLength,
    Need(Byte(m, 0x35) <= l.stsLengthMax, f.stsLength,
    rest))))))
  }

  function RotationFault(p: Profile, m: Table, rest: Option<Rejection>): Option<Rejection> {
    var l, f := p.limits, p.faults;
    Need(IsByte(m, 0x23), f.keyRotation,
    Need(Byte(m, 0x23) <= l.keyRotationMax, f.keyRotation,
    Need(Byte(m, 0x23) != 0 ==> 1 <= Byte(m, 0x02) <= 4, f.keyRotation,
    Need(LengthAt(m, 0x24) == 2, f.keyRotationRate,
    Need(LengthAt(m, 0x24) == 2 ==> m[0x24][0] <= l.keyRotationRateMax, f.keyRotationRate,
    rest)))))
  }

  function LinkFault(p: Profile, m: Table, rest: Option<Rejection>): Option<Rejection> {
    var l, f := p.limits, p.faults;
    Need(IsByte(m, 0x29), f.stsSegments,
    Need(Byte(m, 0x29) <= l.stsSegmentsMax, f.stsSegments,
    Need(LengthAt(m, 0x2A) == 2, Rejection(4, 0, Immediate),
    Need(IsByte(m, 0x18), f.linkLayerMode,
    Need(Byte(m, 0x18) <= l.linkLayerModeMax, f.linkLayerMode,
    rest)))))
  }

  function ScheduleFault(p: Profile, m: Table, rest: Option<Rejection>): Option<Rejection> {
    var l, f := p.limits, p.faults;
    Need(IsByte(m, 0x1A), f.timeStruct,
    Need(Listed(l.timeStructMask, 8, Byte(m, 0x1A)), f.timeStruct,
    Need(IsByte(m, 0x22), f.scheduledMode,
    Need(Listed(l.scheduledModeMask, 8, Byte(m, 0x22)), f.scheduledMode,
    Need(StrideFits(l, m), f.blockStride,
    Need(SlotsFit(l, m), f.slotsPerRr,
    Need(CapFits(m), f.capSize,
    rest)))))))
  }

  function SlotFault(p: Profile, m: Table, rest: Option<Rejection>): Option<Rejection> {
    var l, f := p.limits, p.faults;
    Need(LengthAt(m, 0x08) == 2, f.slotDuration,
    Need(l.minSlotDuration <= WordOr(m, 0x08, 0), f.slotDuration,
    Need(IsByte(m, 0x04), f.channel,
    Need(Listed(l.channelMask, 16, Byte(m, 0x04)), f.channel,
    rest))))
  }

  function LastFault(p: Profile, m: Table, rest: Option<Rejection>): Option<Rejection> {
    Need(Byte(m, 0x13) <= p.limits.rssiReportingMax, p.faults.rssiReporting,
    Need(Listed(p.limits.roundUsageMask, 16, if IsByte(m, 0x01) then Byte(m, 0x01) else 1), p.faults.roundUsage,
    rest))
  }

  /** The fault START reports on a table, if any: all conditions in the order of the validation. */
  function StartFault(p: Profile, m: Table): Option<Rejection> {
    Need(p.limits.minRangingInterval <= IntervalNow(p, m), p.faults.rangingInterval,
    RoleFault(p, m, NodeFault(p, m, SlotFault(p, m, StsFault(p, m, ReportFault(p, m, RadioFault(p, m,
    FrameFault(p, m, RotationFault(p, m, LinkFault(p, m, ScheduleFault(p, m, LastFault(p, m, None))))))))))))
  }

  // ----- each group is its part of the validation -----

  /** What a verdict leaves to the checks after it. */
  function Then(v: Verdict, rest: Option<Rejection>): Option<Rejection> {
    if v.Accept? then rest else Some(v.rejection)
  }

  lemma RoleIs(p: Profile, m: Table, rest: Option<Rejection>)
    ensures RoleFault(p, m, rest) == Then(DeviceRoleVerdict(p, m), rest)
  {
    hide Listed, ListedIn;
    ListedMeans(p.limits.deviceTypeMask, 8, Byte(m, 0x00));
  }

  lemma NodeIs(p: Profile, m: Table, rest: Option<Rejection>)
    ensures NodeFault(p, m, rest) == Then(NodeTopologyVerdict(p, m), rest)
  {
    hide Listed, ListedIn;
    ListedMeans(p.limits.multiNodeMask, 8, Byte(m, 0x03));
    ListedMeans(p.limits.macModeMask, 8, Byte(m, 0x26));
  }

  lemma StsIs(p: Profile, m: Table, rest: Option<Rejection>)
    ensures StsFault(p, m, rest) == Then(StsVerdict(p, m), rest)
  {
    hide Listed, ListedIn;
    ListedMeans(p.limits.stsConfigMask, 8, Byte(m, 0x02));
  }

  lemma ReportIs(p: Profile, m: Table, rest: Option<Rejection>)
    ensures ReportFault(p, m, rest) == Then(ReportVerdict(p, m), rest)
  {
    hide Within, WithinMask;
    WithinMeans(if IsByte(m, 0x2E) then Byte(m, 0x2E) else 1, p.limits.resultReportMask);
  }

  lemma RadioIs(p: Profile, m: Table, rest: Option<Rejection>)
    ensures RadioFault(p, m, rest) == Then(RadioVerdict(p, m), rest)
  {
    hide SfdFits, SfdAllowed;
    SfdMeans(p.limits, Byte(m, 0x15), Byte(m, 0x1F));
  }

  lemma FrameIs(p: Profile, m: Table, rest: Option<Rejection>)
    ensures FrameFault(p, m, rest) == Then(FrameVerdict(p, m), rest)
  {
  }

  lemma RotationIs(p: Profile, m: Table, rest: Option<Rejection>)
    ensures RotationFault(p, m, rest) == Then(RotationVerdict(p, m), rest)
  {
  }

  lemma LinkIs(p: Profile, m: Table, rest: Option<Rejection>)
    ensures LinkFault(p, m, rest) == Then(LinkVerdict(p, m), rest)
  {
  }

  lemma ScheduleIs(p: Profile, m: Table, rest: Option<Rejection>)
    ensures ScheduleFault(p, m, rest) == Then(ScheduleVerdict(p, m), rest)
  {
    hide Listed, ListedIn, SlotTopologyVerdict, BlockStrideVerdict, CapSizeVerdict, SlotsFit, StrideFits, CapFits;
    ListedMeans(p.limits.timeStructMask, 8, Byte(m, 0x1A));
    ListedMeans(p.limits.scheduledModeMask, 8, Byte(m, 0x22));
    ContextChecksMean(p, m);
    ContextFaults(p, m);
  }

  lemma IntervalReads(p: Profile, m: Table)
    ensures IntervalOf(p, m) == IntervalNow(p, m)
  {
    hide U32;
    if RANGING_INTERVAL in m && |m[RANGING_INTERVAL]| == 4 { U32Long(m[RANGING_INTERVAL]); }
  }

  /** START's verdict on any table of any profile: the fault of the first condition that fails, or acceptance. */
  lemma StartVerdictIs(p: Profile, m: Table)
    ensures StartFault(p, m) == Then(StartVerdict(p, m), None)
  {
    hide DeviceRoleVerdict, NodeTopologyVerdict, StsVerdict, ReportVerdict, RadioVerdict, FrameVerdict, RotationVerdict,
      LinkVerdict, ScheduleVerdict, RoleFault, NodeFault, StsFault, ReportFault, RadioFault, FrameFault, RotationFault,
      LinkFault, ScheduleFault, Listed, ListedIn, IntervalOf, IntervalNow;
    IntervalReads(p, m);
    var last := LastFault(p, m, None);
    ListedMeans(p.limits.roundUsageMask, 16, if IsByte(m, 0x01) then Byte(m, 0x01) else 1);
    ScheduleIs(p, m, last);
    var schedule := ScheduleFault(p, m, last);
    LinkIs(p, m, schedule);
    var link := LinkFault(p, m, schedule);
    RotationIs(p, m, link);
    var rotation := RotationFault(p, m, link);
    FrameIs(p, m, rotation);
    var frame := FrameFault(p, m, rotation);
    RadioIs(p, m, frame);
    var radio := RadioFault(p, m, frame);
    ReportIs(p, m, radio);
    var report := ReportFault(p, m, radio);
    StsIs(p, m, report);
    var sts := StsFault(p, m, report);
    ListedMeans(p.limits.channelMask, 16, Byte(m, 0x04));
    NodeIs(p, m, SlotFault(p, m, sts));
    RoleIs(p, m, NodeFault(p, m, SlotFault(p, m, sts)));
  }
}
