/**
 What a measurement of the ranging stream tells the host: when it is reported, and every
 byte of the report, in terms of the stored parameters and the template.
 */
module Reports {
  import opened Types
  import opened PacketCodec
  import opened Profiles
  import opened ConfigTables
  import opened Validation
  import opened EventQueues
  import opened Sessions
  import opened Devices
  import opened Engines
  import opened Moves
  import opened Streams
  import opened Delivery

  // ----- stored parameters as numbers -----

  /** A stored one-byte value, or a default. */
  function ByteOr(m: Table, id: byte, default: nat): nat {
    if id in m && |m[id]| == 1 then m[id][0] else default
  }

  /** A stored two-byte value, low byte first, or a default. */
  function WordOr(m: Table, id: byte, default: nat): nat {
    if id in m && |m[id]| == 2 then (m[id][0] as nat) + 256 * (m[id][1] as nat) else default
  }

  /** Four bytes at a position, lowest first. */
  function Long4(b: seq<byte>, at: nat): nat
    requires at + 4 <= |b|
  {
    (b[at] as nat) + 256 * ((b[at + 1] as nat) + 256 * ((b[at + 2] as nat) + 256 * (b[at + 3] as nat)))
  }

  /** The interval a report names: four stored bytes, or the profile's. */
  function IntervalNow(p: Profile, m: Table): nat {
    if 0x09 in m && |m[0x09]| == 4 then Long4(m[0x09], 0) else p.rangingIntervalMs
  }

  /** The distance of the measurement with a number: it grows by the step and is cut to 16 bits. */
  function DistanceNow(p: Profile, count: nat): nat {
    ((p.rangeData.distanceBase as nat) + count * (p.rangeData.distanceStep as nat)) % 65536
  }

  /** The window of the proximity modes, both ends included; 0 to 65535 without stored ends. */
  predicate InsideWindow(m: Table, distance: nat) {
    WordOr(m, 0x0F, 0) <= distance <= WordOr(m, 0x10, 65535)
  }

  /**
   Mode 0 reports nothing, 2 inside the window, 5 when the side differs from the remembered one, any
   other mode always.
   */
  predicate Reported(p: Profile, s: Session) {
    var mode, inside := ByteOr(s.configs, 0x0E, 1), InsideWindow(s.configs, DistanceNow(p, s.rangingCount));
    || (mode == 2 && inside)
    || (mode == 5 && s.hasProximity && s.inProximity != inside)
    || (mode != 0 && mode != 2 && mode != 5)
  }

  lemma U32Long(b: seq<byte>)
    requires |b| == 4
    ensures U32(b) == Long4(b, 0)
  {
  }

  lemma DistanceIs(p: Profile, count: uint32)
    ensures DistanceOf(p, count) == DistanceNow(p, count)
  {
    CutTwice((p.rangeData.distanceBase as nat) + (count as nat) * (p.rangeData.distanceStep as nat));
  }

  lemma CutTwice(x: nat)
    ensures x % WRAP32 % WRAP16 == x % 65536
  {
    var q, r := x / WRAP32, x % WRAP32;
    QuotientUnique(x, 65536, 65536 * q + r / 65536, r % 65536);
  }

  lemma SampleIs(p: Profile, s: Session)
    ensures var sample := InitSample(p, s);
            && sample.session == s.id && sample.interval == IntervalNow(p, s.configs)
            && sample.distance == DistanceNow(p, s.rangingCount)
            && sample.slotIndex == ByteOr(s.configs, 0x1E, 0)
            && sample.measurementType == (var usage := ByteOr(s.configs, 0x01, 1);
                                          if usage == 5 then 2 else if usage == 6 then 3 else 1)
  {
    DistanceIs(p, s.rangingCount);
    if RANGING_INTERVAL in s.configs && |s.configs[RANGING_INTERVAL]| == 4 { U32Long(s.configs[RANGING_INTERVAL]); }
  }

  lemma PolicyIs(p: Profile, s: Session)
    ensures var policy := Evaluate(s, InitSample(p, s));
            && policy.emit == Reported(p, s) && policy.inRange ==
                InsideWindow(s.configs, DistanceNow(p, s.rangingCount))
  {
    hide InitSample;
    SampleIs(p, s);
  }

  // ----- which fields are filled in -----

  /** Bit n of the report configuration, as a quotient. */
  predicate Asked(m: Table, divisor: nat)
    requires divisor > 0
  {
    ByteOr(m, 0x2E, 1) / divisor % 2 == 1
  }

  predicate AsksAzimuth(m: Table) {
    ByteOr(m, 0x0D, 0) == 2 || ByteOr(m, 0x0D, 0) == 3
  }

  predicate AsksElevation(m: Table) {
    ByteOr(m, 0x0D, 0) == 1 || ByteOr(m, 0x0D, 0) == 3
  }

  /** Bit 0 asks for the distance, 1 for azimuths, 2 for elevations, 3 for their figures of merit. */
  lemma FieldsAre(m: Table)
    ensures ReportedFields(m) == Fields(Asked(m, 1), Asked(m, 2) && AsksAzimuth(m), Asked(m, 4) && AsksElevation(m),
                                        Asked(m, 8) && AsksAzimuth(m), Asked(m, 8) && AsksElevation(m),
                                        ByteOr(m, 0x13, 0) != 0)
  {
    hide Bit;
    var report := U8Or(m, RESULT_REPORT_CONFIG, 1);
    assert Pow2(0) == 1 && Pow2(1) == 2 && Pow2(2) == 4 && Pow2(3) == 8;
    BitIs(report, 0);
    BitIs(report, 1);
    BitIs(report, 2);
    BitIs(report, 3);
  }

  // ----- the bytes -----

  /** The fields lie inside the template and do not overlap. */
  predicate Placed(r: RangeLayout) {
    var n, q, a, b := |r.template|, r.sequenceAt as nat, r.primaryIdAt as nat, r.secondaryIdAt as nat;
    var i, t, d := r.intervalAt as nat, r.typeAt as nat, r.distanceAt as nat;
    && q + 4 <= n && a + 4 <= n && b + 4 <= n && i + 4 <= n && t + 1 <= n && d + 16 <= n
    && Apart(q, 4, a, 4) && Apart(q, 4, b, 4) && Apart(q, 4, i, 4) && Apart(q, 4, t, 1) && Apart(q, 4, d, 16)
    && Apart(a, 4, b, 4) && Apart(a, 4, i, 4) && Apart(a, 4, t, 1) && Apart(a, 4, d, 16)
    && Apart(b, 4, i, 4) && Apart(b, 4, t, 1) && Apart(b, 4, d, 16)
    && Apart(i, 4, t, 1) && Apart(i, 4, d, 16) && Apart(t, 1, d, 16)
  }

  predicate Apart(a: nat, n: nat, b: nat, k: nat) {
    a + n <= b || b + k <= a
  }

  lemma DefaultPlaced()
    ensures var r := DefaultRangeData();
            && Placed(r) && |r.template| == 52 && r.oid == 0 && r.distanceBase == 100 && r.distanceStep == 5
            && r.sequenceAt == 0 && r.primaryIdAt == 4 && r.intervalAt == 9 && r.typeAt == 13 && r.secondaryIdAt == 16
            && r.distanceAt == 29
  {
  }

  lemma {:induction false} PatchAllAppend(b: seq<byte>, ps: seq<(nat, seq<byte>)>, qs: seq<(nat, seq<byte>)>)
    ensures PatchAll(b, ps + qs) == PatchAll(PatchAll(b, ps), qs)
    decreases |ps|
  {
    if ps == [] {
      assert ps + qs == qs;
    } else {
      assert (ps + qs)[1..] == ps[1..] + qs;
      PatchAllAppend(Patch(b, ps[0].0, ps[0].1), ps[1..], qs);
    }
  }

  /** What a byte is after a field was written over part of a payload. */
  lemma PatchByte(b: seq<byte>, at: nat, field: seq<byte>, k: nat)
    requires at + |field| <= |b| && k < |b|
    ensures Patch(b, at, field)[k] == if at <= k < at + |field| then field[k - at] else b[k]
  {
  }

  /** Writing fields one after another, the last of them known. */
  lemma LastPatch(b: seq<byte>, ps: seq<(nat, seq<byte>)>, at: nat, field: seq<byte>, k: nat)
    requires at + |field| <= |b| && k < |b|
    ensures PatchAll(b, ps + [(at, field)])[k] == if at <= k < at + |field| then field[k - at] else PatchAll(b, ps)[k]
  {
    hide Patch;
    var none: seq<(nat, seq<byte>)> := [];
    var before, one := PatchAll(b, ps), [(at, field)];
    PatchAllAppend(b, ps, one);
    assert one[1..] == none && PatchAll(before, one) == PatchAll(Patch(before, at, field), none);
    PatchByte(before, at, field, k);
  }

  /** The same for a field that is zeroed unless it is kept. */
  lemma LastZeroed(b: seq<byte>, ps: seq<(nat, seq<byte>)>, keep: bool, at: nat, zeros: seq<byte>, k: nat)
    requires at + |zeros| <= |b| && k < |b|
    ensures PatchAll(b, ps + ZeroUnless(keep, at, zeros))[k] ==
              if !keep && at <= k < at + |zeros| then zeros[k - at] else PatchAll(b, ps)[k]
  {
    if keep {
      assert ps + [] == ps;
    } else {
      LastPatch(b, ps, at, zeros, k);
    }
  }

  function FirstFields(r: RangeLayout, sample: Sample, sequence: uint32, fields: Fields): seq<(nat, seq<byte>)> {
    [(r.sequenceAt as nat, U32Bytes(sequence)), (r.primaryIdAt as nat, U32Bytes(sample.session)),
     (r.secondaryIdAt as nat, U32Bytes(sample.session)), (r.intervalAt as nat, U32Bytes(sample.interval)),
     (r.typeAt as nat, [sample.measurementType]),
     (r.distanceAt as nat, if fields.distance then U16Bytes(sample.distance) else [0, 0])]
  }

  lemma FirstByte(r: RangeLayout, sample: Sample, sequence: uint32, fields: Fields, k: nat)
    requires Placed(r) && k < |r.template|
    ensures PatchAll(r.template, FirstFields(r, sample, sequence, fields))[k] ==
              if r.sequenceAt <= k < r.sequenceAt + 4 then U32Bytes(sequence)[k - r.sequenceAt]
              else if r.primaryIdAt <= k < r.primaryIdAt + 4 then U32Bytes(sample.session)[k - r.primaryIdAt]
              else if r.secondaryIdAt <= k < r.secondaryIdAt + 4 then U32Bytes(sample.session)[k - r.secondaryIdAt]
              else if r.intervalAt <= k < r.intervalAt + 4 then U32Bytes(sample.interval)[k - r.intervalAt]
              else if k == r.typeAt then sample.measurementType
              else if r.distanceAt <= k < r.distanceAt + 2 then
                if fields.distance then U16Bytes(sample.distance)[k - r.distanceAt] else 0
              else r.template[k]
  {
    hide PatchAll, U32Bytes, U16Bytes;
    var b, ps, none := r.template, FirstFields(r, sample, sequence, fields),
        FirstFields(r, sample, sequence, fields)[..0];
    assert PatchAll(b, none) == b by { NoPatches(b, none); }
    LastPatch(b, none, ps[0].0, ps[0].1, k);
    assert none + [ps[0]] == ps[..1];
    LastPatch(b, ps[..1], ps[1].0, ps[1].1, k);
    assert ps[..1] + [ps[1]] == ps[..2];
    LastPatch(b, ps[..2], ps[2].0, ps[2].1, k);
    assert ps[..2] + [ps[2]] == ps[..3];
    LastPatch(b, ps[..3], ps[3].0, ps[3].1, k);
    assert ps[..3] + [ps[3]] == ps[..4];
    LastPatch(b, ps[..4], ps[4].0, ps[4].1, k);
    assert ps[..4] + [ps[4]] == ps[..5];
    LastPatch(b, ps[..5], ps[5].0, ps[5].1, k);
    assert ps[..5] + [ps[5]] == ps;
  }

  lemma NoPatches(b: seq<byte>, none: seq<(nat, seq<byte>)>)
    requires none == []
    ensures PatchAll(b, none) == b
  {
  }

  /** The fields after the distance: local azimuth, elevation and figures, the remote ones, the slot and the RSSI. */
  lemma AngleByte(r: RangeLayout, sample: Sample, sequence: uint32, fields: Fields, j: nat)
    requires Placed(r) && j < |r.template|
    ensures var d, ps := r.distanceAt as nat, SampleFields(r, sample, sequence, fields);
            PatchAll(r.template, ps)[j] ==
              if d + 2 <= j < d + 4 || d + 8 <= j < d + 10 then
                if fields.azimuth then PatchAll(r.template, FirstFields(r, sample, sequence, fields))[j] else 0
              else if d + 5 <= j < d + 7 || d + 11 <= j < d + 13 then
                if fields.elevation then PatchAll(r.template, FirstFields(r, sample, sequence, fields))[j] else 0
              else if j == d + 4 || j == d + 10 then
                if fields.azimuthFom then PatchAll(r.template, FirstFields(r, sample, sequence, fields))[j] else 0
              else if j == d + 7 || j == d + 13 then
                if fields.elevationFom then PatchAll(r.template, FirstFields(r, sample, sequence, fields))[j] else 0
              else if j == d + 14 then sample.slotIndex
              else if j == d + 15 && !fields.rssi then 0
              else PatchAll(r.template, FirstFields(r, sample, sequence, fields))[j]
  {
    hide PatchAll, U32Bytes, U16Bytes, ZeroUnless;
    var b, d := r.template, r.distanceAt as nat;
    var a0 := FirstFields(r, sample, sequence, fields);
    var a1 := a0 + ZeroUnless(fields.azimuth, d + 2, [0, 0]);
    var a2 := a1 + ZeroUnless(fields.azimuth, d + 8, [0, 0]);
    var a3 := a2 + ZeroUnless(fields.elevation, d + 5, [0, 0]);
    var a4 := a3 + ZeroUnless(fields.elevation, d + 11, [0, 0]);
    var a5 := a4 + ZeroUnless(fields.azimuthFom, d + 4, [0]);
    var a6 := a5 + ZeroUnless(fields.azimuthFom, d + 10, [0]);
    var a7 := a6 + ZeroUnless(fields.elevationFom, d + 7, [0]);
    var a8 := a7 + ZeroUnless(fields.elevationFom, d + 13, [0]);
    var a9 := a8 + [(d + 14, [sample.slotIndex])];
    LastZeroed(b, a0, fields.azimuth, d + 2, [0, 0], j);
    LastZeroed(b, a1, fields.azimuth, d + 8, [0, 0], j);
    LastZeroed(b, a2, fields.elevation, d + 5, [0, 0], j);
    LastZeroed(b, a3, fields.elevation, d + 11, [0, 0], j);
    LastZeroed(b, a4, fields.azimuthFom, d + 4, [0], j);
    LastZeroed(b, a5, fields.azimuthFom, d + 10, [0], j);
    LastZeroed(b, a6, fields.elevationFom, d + 7, [0], j);
    LastZeroed(b, a7, fields.elevationFom, d + 13, [0], j);
    LastPatch(b, a8, d + 14, [sample.slotIndex], j);
    LastZeroed(b, a9, fields.rssi, d + 15, [0], j);
    assert SampleFields(r, sample, sequence, fields) == a9 + ZeroUnless(fields.rssi, d + 15, [0]);
  }

  /** A byte of the template that is kept when its field was asked for and zeroed otherwise. */
  predicate Kept(b: seq<byte>, template: seq<byte>, at: nat, asked: bool)
    requires at < |b| == |template|
  {
    b[at] == if asked then template[at] else 0
  }

  /** Every byte of the report of one measurement. */
  ghost predicate ReportBytes(p: Profile, s: Session, sequence: nat, b: seq<byte>)
    requires Placed(p.rangeData)
  {
    var r, m, d := p.rangeData, s.configs, p.rangeData.distanceAt as nat;
    var azimuth, elevation := Asked(m, 2) && AsksAzimuth(m), Asked(m, 4) && AsksElevation(m);
    var azimuthFom, elevationFom := Asked(m, 8) && AsksAzimuth(m), Asked(m, 8) && AsksElevation(m);
    && |b| == |r.template|
    && Long4(b, r.sequenceAt) == sequence && Long4(b, r.intervalAt) == IntervalNow(p, m)
    && Long4(b, r.primaryIdAt) == Long4(b, r.secondaryIdAt) == s.id
    && b[r.typeAt] == (if ByteOr(m, 0x01, 1) == 5 then 2 else if ByteOr(m, 0x01, 1) == 6 then 3 else 1)
    && (b[d] as nat) + 256 * (b[d + 1] as nat) == (if Asked(m, 1) then DistanceNow(p, s.rangingCount) else 0)
    && Kept(b, r.template, d + 2, azimuth) && Kept(b, r.template, d + 3, azimuth)
    && Kept(b, r.template, d + 8, azimuth) && Kept(b, r.template, d + 9, azimuth)
    && Kept(b, r.template, d + 5, elevation) && Kept(b, r.template, d + 6, elevation)
    && Kept(b, r.template, d + 11, elevation) && Kept(b, r.template, d + 12, elevation)
    && Kept(b, r.template, d + 4, azimuthFom) && Kept(b, r.template, d + 10, azimuthFom)
    && Kept(b, r.template, d + 7, elevationFom) && Kept(b, r.template, d + 13, elevationFom)
    && b[d + 14] == ByteOr(m, 0x1E, 0) && Kept(b, r.template, d + 15, ByteOr(m, 0x13, 0) != 0)
    && forall k :: 0 <= k < |b| && OutsideFields(r, k) ==> b[k] == r.template[k]
  }

  predicate OutsideFields(r: RangeLayout, k: nat) {
    && Apart(k, 1, r.sequenceAt, 4) && Apart(k, 1, r.primaryIdAt, 4) && Apart(k, 1, r.secondaryIdAt, 4)
    && Apart(k, 1, r.intervalAt, 4) && k != r.typeAt && Apart(k, 1, r.distanceAt, 16)
  }

  /** A four-byte field written at a position reads back as its value. */
  lemma FieldAt(b: seq<byte>, at: nat, v: uint32)
    requires at + 4 <= |b| && forall k :: 0 <= k < 4 ==> b[at + k] == U32Bytes(v)[k]
    ensures Long4(b, at) == v
  {
    hide U32, U32Bytes;
    U32Long(U32Bytes(v));
    assert b[at + 0] == U32Bytes(v)[0] && b[at + 1] == U32Bytes(v)[1] && b[at + 2] == U32Bytes(v)[2]
           && b[at + 3] == U32Bytes(v)[3];
  }

  /** The four-byte fields, the type and the distance. */
  lemma HeadBytes(r: RangeLayout, sample: Sample, sequence: uint32, fields: Fields, b: seq<byte>)
    requires Placed(r) && b == PatchAll(r.template, SampleFields(r, sample, sequence, fields))
    ensures Long4(b, r.sequenceAt) == sequence && Long4(b, r.intervalAt) == sample.interval
    ensures Long4(b, r.primaryIdAt) == Long4(b, r.secondaryIdAt) == sample.session
    ensures b[r.typeAt] == sample.measurementType
    ensures var d := r.distanceAt as nat;
            (b[d] as nat) + 256 * (b[d + 1] as nat) == if fields.distance then sample.distance else 0
  {
    hide PatchAll, SampleFields, FirstFields, U32Bytes, U16Bytes, U32, Long4, Placed;
    HeadField(r, sample, sequence, fields, b, r.sequenceAt, sequence);
    HeadField(r, sample, sequence, fields, b, r.intervalAt, sample.interval);
    HeadField(r, sample, sequence, fields, b, r.primaryIdAt, sample.session);
    HeadField(r, sample, sequence, fields, b, r.secondaryIdAt, sample.session);
    PlacedOnce(r);
    DistanceField(r, sample, sequence, fields, b);
  }

  lemma HeadField(r: RangeLayout, sample: Sample, sequence: uint32, fields: Fields, b: seq<byte>, at: byte, v: uint32)
    requires Placed(r) && b == PatchAll(r.template, SampleFields(r, sample, sequence, fields))
    requires || (at == r.sequenceAt && v == sequence) || (at == r.intervalAt && v == sample.interval)
             || (at == r.primaryIdAt && v == sample.session) || (at == r.secondaryIdAt && v == sample.session)
    ensures at + 4 <= |b| && Long4(b, at) == v
  {
    hide PatchAll, SampleFields, FirstFields, U32Bytes, U16Bytes, U32, Long4;
    forall k: nat | k < 4 ensures b[at + k] == U32Bytes(v)[k] {
      AngleByte(r, sample, sequence, fields, at + k);
      FirstByte(r, sample, sequence, fields, at + k);
    }
    FieldAt(b, at, v);
  }

  lemma DistanceField(r: RangeLayout, sample: Sample, sequence: uint32, fields: Fields, b: seq<byte>)
    requires Placed(r) && b == PatchAll(r.template, SampleFields(r, sample, sequence, fields))
    ensures r.typeAt < |b| && b[r.typeAt] == sample.measurementType
    ensures var d := r.distanceAt as nat;
            d + 1 < |b| && (b[d] as nat) + 256 * (b[d + 1] as nat) == if fields.distance then sample.distance else 0
  {
    hide PatchAll, SampleFields, FirstFields, U32Bytes, U32;
    AngleByte(r, sample, sequence, fields, r.typeAt);
    FirstByte(r, sample, sequence, fields, r.typeAt);
    var d := r.distanceAt as nat;
    AngleByte(r, sample, sequence, fields, d);
    FirstByte(r, sample, sequence, fields, d);
    AngleByte(r, sample, sequence, fields, d + 1);
    FirstByte(r, sample, sequence, fields, d + 1);
  }

  lemma PlacedOnce(r: RangeLayout)
    requires Placed(r)
    ensures r.distanceAt + 16 <= |r.template| && r.typeAt < |r.template|
    ensures r.typeAt < r.distanceAt || r.typeAt >= r.distanceAt + 16
  {
  }

  /** Bytes 2 to 15 after the start of the distance. */
  lemma TailBytes(r: RangeLayout, sample: Sample, sequence: uint32, fields: Fields, b: seq<byte>)
    requires Placed(r) && b == PatchAll(r.template, SampleFields(r, sample, sequence, fields))
    ensures var d := r.distanceAt as nat;
            && Kept(b, r.template, d + 2, fields.azimuth) && Kept(b, r.template, d + 3, fields.azimuth)
            && Kept(b, r.template, d + 8, fields.azimuth) && Kept(b, r.template, d + 9, fields.azimuth)
            && Kept(b, r.template, d + 5, fields.elevation) && Kept(b, r.template, d + 6, fields.elevation)
            && Kept(b, r.template, d + 11, fields.elevation) && Kept(b, r.template, d + 12, fields.elevation)
            && Kept(b, r.template, d + 4, fields.azimuthFom) && Kept(b, r.template, d + 10, fields.azimuthFom)
            && Kept(b, r.template, d + 7, fields.elevationFom) && Kept(b, r.template, d + 13, fields.elevationFom)
            && b[d + 14] == sample.slotIndex && Kept(b, r.template, d + 15, fields.rssi)
  {
    hide PatchAll, SampleFields, FirstFields;
    var d := r.distanceAt as nat;
    forall k | d + 2 <= k < d + 16
      ensures b[k] == if k - d in {2, 3, 8, 9} then (if fields.azimuth then r.template[k] else 0)
                      else if k - d in {5, 6, 11, 12} then (if fields.elevation then r.template[k] else 0)
                      else if k - d in {4, 10} then (if fields.azimuthFom then r.template[k] else 0)
                      else if k - d in {7, 13} then (if fields.elevationFom then r.template[k] else 0)
                      else if k - d == 14 then sample.slotIndex
                      else if fields.rssi then r.template[k] else 0
    {
      FirstByte(r, sample, sequence, fields, k);
      AngleByte(r, sample, sequence, fields, k);
    }
  }

  lemma OtherBytes(r: RangeLayout, sample: Sample, sequence: uint32, fields: Fields, b: seq<byte>)
    requires Placed(r) && b == PatchAll(r.template, SampleFields(r, sample, sequence, fields))
    ensures forall k :: 0 <= k < |b| && OutsideFields(r, k) ==> b[k] == r.template[k]
  {
    hide PatchAll, SampleFields, FirstFields, Placed;
    forall k | 0 <= k < |b| && OutsideFields(r, k) ensures b[k] == r.template[k] {
      FirstByte(r, sample, sequence, fields, k);
      AngleByte(r, sample, sequence, fields, k);
    }
  }

  /** The notification that a measurement would send. */
  lemma ReportIs(p: Profile, s: Session, sequence: uint32) returns (b: seq<byte>)
    requires Placed(p.rangeData) && |p.rangeData.template| <= 1024
    ensures var sample := InitSample(p, s);
            RangeDataNtf(p.rangeData, sample, sequence, Evaluate(s, sample).fields) ==
                Some(Packet(3, 0, 2, p.rangeData.oid, b))
    ensures ReportBytes(p, s, sequence, b)
  {
    hide PatchAll, SampleFields, InitSample, ReportedFields, IntervalNow, DistanceNow, Placed, OutsideFields;
    var r, sample := p.rangeData, InitSample(p, s);
    var fields := Evaluate(s, sample).fields;
    SampleIs(p, s);
    FieldsAre(s.configs);
    b := PatchAll(r.template, SampleFields(r, sample, sequence, fields));
    PlacedOnce(r);
    HeadBytes(r, sample, sequence, fields, b);
    TailBytes(r, sample, sequence, fields, b);
    OtherBytes(r, sample, sequence, fields, b);
  }

  // ----- what an emission notifies -----

  /** A session status notification. */
  predicate IsStatus(note: Packet, id: nat, state: byte, reason: byte) {
    && note == Packet(3, 0, 1, 2, note.payload) && |note.payload| == 6
    && Long4(note.payload, 0) == id && note.payload[4] == state && note.payload[5] == reason
  }

  lemma StatusIs(id: uint32, state: byte, reason: byte)
    ensures IsStatus(StatusNtf(id, state, reason), id, state, reason)
  {
    hide U32Bytes, U32;
    U32Long(U32Bytes(id));
  }

  /** The configured number of measurements, 0 for no limit. */
  function BudgetNow(s: Session): nat {
    WordOr(s.configs, 0x32, 0)
  }

  predicate StreamsNow(setup: Setup, s: Session) {
    setup.scenario.RangingStream? && s.streamRemaining > 0 && s.state == 2
  }

  /** The session after a measurement; the last of a budget leaves it idle with nothing remaining. */
  function AfterMeasurement(p: Profile, s: Session): Session
    requires s.streamRemaining > 0
  {
    var last := BudgetNow(s) != 0 && s.rangingCount + 1 >= BudgetNow(s);
    s.(hasProximity := true, inProximity := InsideWindow(s.configs, DistanceNow(p, s.rangingCount)),
       rangingCount := (s.rangingCount + 1) % 0x1_0000_0000,
       streamRemaining := if last then 0 else s.streamRemaining - 1, state := if last then 3 else s.state)
  }

  lemma MeasureIs(s: Session, room: nat, nextSequence: uint32, policy: Policy, ntf: Packet)
    requires s.streamRemaining > 0 && s.state == 2 && !BudgetReached(s)
    ensures var em, told := Measure(s, room, nextSequence, policy, Some(ntf)), if policy.emit then [ntf] else [];
            var last := Budget(s) != 0 && s.rangingCount + 1 == Budget(s);
            && em.nextSequence == (if policy.emit then (nextSequence + 1) % 0x1_0000_0000 else nextSequence)
            && if |told| > room then em.session == s && em.notes == [] && !em.ok && !em.cancels
               else
                 && em.session == s.(hasProximity := true, inProximity := policy.inRange,
                                     rangingCount := (s.rangingCount + 1) % 0x1_0000_0000,
                                     streamRemaining := if last then 0 else s.streamRemaining - 1,
                                     state := if last then 3 else 2)
                 && em.cancels == last && em.ok == (!last || room > |told|)
                 && em.notes == told + if last && room > |told| then [BudgetNtf(s)] else []
  {
    hide BudgetNtf;
  }

  /**
   A due measurement, in full: whether it is reported, every byte of the report, the status that tells of the last
   measurement of a budget, and the session afterwards. A report that finds no room stops it before it counts.
   */
  lemma MeasurementReported(setup: Setup, s: Session, room: nat, nextSequence: uint32) returns (b: seq<byte>)
    requires StreamsNow(setup, s) && (BudgetNow(s) == 0 || s.rangingCount < BudgetNow(s))
    requires Placed(setup.profile.rangeData) && |setup.profile.rangeData.template| <= 1024
    ensures ReportBytes(setup.profile, s, nextSequence, b)
    ensures var em, reported := Emit(setup, s, room, nextSequence), Reported(setup.profile, s);
            var told := if reported then [Packet(3, 0, 2, setup.profile.rangeData.oid, b)] else [];
            var last := BudgetNow(s) != 0 && s.rangingCount + 1 == BudgetNow(s);
            && em.nextSequence == (if reported then (nextSequence + 1) % 0x1_0000_0000 else nextSequence)
            && if reported && room == 0 then em.session == s && em.notes == [] && !em.ok && !em.cancels
               else
                 && em.session == AfterMeasurement(setup.profile, s)
                 && em.cancels == last && em.ok == (!last || room > |told|)
                 && |em.notes| == |told| + (if last && room > |told| then 1 else 0)
                 && em.notes[..|told|] == told && (|em.notes| > |told| ==> IsStatus(em.notes[|told|], s.id, 3, 2))
  {
    hide RangeDataNtf, InitSample, Evaluate, Measure, Reported, InsideWindow, DistanceNow, ReportBytes, Placed,
        IsStatus, BudgetNtf;
    b := ReportIs(setup.profile, s, nextSequence);
    PolicyIs(setup.profile, s);
    var sample := InitSample(setup.profile, s);
    MeasureIs(s, room, nextSequence, Evaluate(s, sample), Packet(3, 0, 2, setup.profile.rangeData.oid, b));
    BudgetStatusIs(s);
  }

  lemma BudgetStatusIs(s: Session)
    ensures IsStatus(BudgetNtf(s), s.id, 3, 2)
  {
    hide IsStatus;
    StatusIs(s.id, 3, 2);
  }

  /**
   A stream whose count has already reached its budget ends without a measurement, and the host is
   told when there is room.
   */
  lemma BudgetEnds(setup: Setup, s: Session, room: nat, nextSequence: uint32)
    requires StreamsNow(setup, s) && BudgetNow(s) != 0 && s.rangingCount >= BudgetNow(s)
    ensures var em := Emit(setup, s, room, nextSequence);
            && em.session == s.(state := 3, streamRemaining := 0) && em.cancels && em.nextSequence == nextSequence
            && em.ok == (room > 0) && |em.notes| == (if room > 0 then 1 else 0)
            && (room > 0 ==> IsStatus(em.notes[0], s.id, 3, 2))
  {
    hide IsStatus, BudgetNtf;
    BudgetStatusIs(s);
  }

  /** A session that is not streaming is not measured. */
  lemma NothingEmitted(setup: Setup, s: Session, room: nat, nextSequence: uint32)
    requires !StreamsNow(setup, s)
    ensures Emit(setup, s, room, nextSequence) == Emission(s, false, [], nextSequence, true)
  {
  }

  /** A drained host that waits receives what the emission notifies. */
  lemma WaitNotes(setup: Setup, e: Engine, elapsed: uint32, i: nat)
    requires !setup.scenario.DelayedNotifications? && Drained(e) && i < |e.dev.sessions|
    requires var served := ServedEvent(setup, e, Wait(elapsed));
             served.Some? && served.value.kind.RangeData? && FindSession(e.dev.sessions, served.value.session) == i
    ensures Next(setup, e, Wait(elapsed)).outbound ==
            Emit(setup, e.dev.sessions[i], Room(e.dev), e.dev.nextSequence).notes
  {
    hide Next, Emit;
    StepInOrder(setup, e, Wait(elapsed));
    var notes := Emit(setup, e.dev.sessions[i], Room(e.dev), e.dev.nextSequence).notes;
    assert [] + notes == notes;
  }

  /**
   On the wire: a host that has taken every packet and then only waits receives, from a measurement that falls due,
   the report if and only if it is due one, and after it the status when the budget is used up.
   */
  lemma WaitReports(setup: Setup, e: Engine, elapsed: uint32, i: nat) returns (b: seq<byte>)
    requires !setup.scenario.DelayedNotifications? && Drained(e) && i < |e.dev.sessions|
    requires Placed(setup.profile.rangeData) && |setup.profile.rangeData.template| <= 1024
    requires var s, served := e.dev.sessions[i], ServedEvent(setup, e, Wait(elapsed));
             && StreamsNow(setup, s) && (BudgetNow(s) == 0 || s.rangingCount < BudgetNow(s))
             && served.Some? && served.value.kind.RangeData? && FindSession(e.dev.sessions, served.value.session) == i
    ensures var s, out := e.dev.sessions[i], Next(setup, e, Wait(elapsed)).outbound;
            var told := if Reported(setup.profile, s) then [Packet(3, 0, 2, setup.profile.rangeData.oid, b)] else [];
            var last := BudgetNow(s) != 0 && s.rangingCount + 1 == BudgetNow(s);
            && ReportBytes(setup.profile, s, e.dev.nextSequence, b)
            && |out| == |told| + (if last then 1 else 0) && out[..|told|] == told
            && (last ==> IsStatus(out[|told|], s.id, 3, 2))
  {
    hide Next, Emit, Reported, ReportBytes, Placed, IsStatus, AfterMeasurement, StepProduced, TurnNotes, Interval;
    b := MeasurementReported(setup, e.dev.sessions[i], Room(e.dev), e.dev.nextSequence);
    WaitNotes(setup, e, elapsed, i);
  }

  /** Serving a range event leaves the session and the sequence number as the emission does. */
  lemma ServedSequence(setup: Setup, e: Engine, i: nat)
    requires var turn := TurnOf(e);
             turn.Some? && turn.value.event.kind.RangeData?
                 && FindSession(e.dev.sessions, turn.value.event.session) == i
    requires i < |e.dev.sessions|
    ensures var em, d' := Emit(setup, e.dev.sessions[i], Room(e.dev), e.dev.nextSequence), Serve(setup, e).engine.dev;
            d'.sessions == e.dev.sessions[i := em.session] && d'.nextSequence == em.nextSequence
  {
    hide Emit, Process, ServedEvents, AfterRange;
    var turn := TurnOf(e).value;
    ProcessCore(setup, e.(dev := turn.dev), turn.event);
    ProcessesRange(setup, e.(dev := turn.dev), turn.event, i);
    RangeSequence(setup, e.(dev := turn.dev), i);
  }

  lemma ProcessesRange(setup: Setup, e: Engine, event: Event, i: nat)
    requires event.kind.RangeData? && FindSession(e.dev.sessions, event.session) == i < |e.dev.sessions|
    ensures Process(setup, e, event) == AfterRange(setup, e, i)
  {
    hide AfterRange;
  }

  lemma RangeSequence(setup: Setup, e: Engine, i: nat)
    requires i < |e.dev.sessions|
    ensures AfterRange(setup, e, i).engine.dev.nextSequence ==
            Emit(setup, e.dev.sessions[i], Room(e.dev), e.dev.nextSequence).nextSequence
  {
    hide Emit, FlushEngine, Rearm, Interval, Cancel;
    var served := ServeRange(setup, e.dev, i);
    var flushed := FlushEngine(setup, e.(dev := served.dev));
    FlushKeepsSequence(setup, e.(dev := served.dev));
    if served.ok { RearmKeepsSequence(flushed, RangeEvent(setup.profile, flushed.dev.sessions[i])); }
  }

  lemma FlushKeepsSequence(setup: Setup, e: Engine)
    ensures FlushEngine(setup, e).dev == e.dev.(pending := FlushEngine(setup, e).dev.pending)
  {
  }

  lemma RearmKeepsSequence(e: Engine, event: Event)
    ensures Rearm(e, event).engine.dev == e.dev.(events := Rearm(e, event).engine.dev.events)
  {
  }

  lemma WaitServes(setup: Setup, e: Engine, elapsed: uint32)
    ensures Next(setup, e, Wait(elapsed)) == Serve(setup, Elapsed(e, elapsed)).engine
  {
    hide Serve;
  }

  /** The measurement is counted on the session, and a report uses up one sequence number. */
  lemma WaitMeasures(setup: Setup, e: Engine, elapsed: uint32, i: nat)
    requires |e.dev.pending| < 8 && i < |e.dev.sessions|
    requires Placed(setup.profile.rangeData) && |setup.profile.rangeData.template| <= 1024
    requires var s, served := e.dev.sessions[i], ServedEvent(setup, e, Wait(elapsed));
             && StreamsNow(setup, s) && (BudgetNow(s) == 0 || s.rangingCount < BudgetNow(s))
             && served.Some? && served.value.kind.RangeData? && FindSession(e.dev.sessions, served.value.session) == i
    ensures var s, d' := e.dev.sessions[i], Next(setup, e, Wait(elapsed)).dev;
            && d'.sessions == e.dev.sessions[i := AfterMeasurement(setup.profile, s)]
            && d'.nextSequence == (if Reported(setup.profile, s) then (e.dev.nextSequence + 1) % 0x1_0000_0000
                                   else e.dev.nextSequence)
  {
    hide Next, Emit, Serve, Reported, ReportBytes, Placed, IsStatus, AfterMeasurement;
    var b := MeasurementReported(setup, e.dev.sessions[i], Room(e.dev), e.dev.nextSequence);
    WaitServes(setup, e, elapsed);
    ServedSequence(setup, Elapsed(e, elapsed), i);
  }
}
