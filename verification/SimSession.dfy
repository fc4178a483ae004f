/**
 A session slot as the simulator keeps it: a record of scalar members, the parameter
 array and the link array, all updated in place. View gives the value the rest of
 the model reasons about.
 */
module SimSessions {
  import opened Types
  import opened Profiles
  import opened ConfigTables
  import opened LogicalLinks
  import opened Validation
  import opened Sessions

  class SimSession {
    /** The scalar members; the parameters and links of this value are not used. */
    var record: Session
    const table: ConfigTable
    const links: LinkTable

    ghost function Footprint(): set<object> {
      {this, table, table.slots, links, links.slots}
    }

    ghost predicate Valid()
      reads Footprint()
    {
      && table.Valid() && table.slots.Length == MAX_SESSION_CONFIGS
      && links.Valid()
    }

    ghost function View(): Session
      reads Footprint()
      requires Valid()
    {
      record.(configs := table.View(), links := links.View())
    }

    twostate predicate Untouched()
      reads Footprint()
    {
      unchanged(this) && unchanged(table.slots) && unchanged(links) && unchanged(links.slots)
    }

    /** Whether two slots share no memory. */
    ghost predicate Apart(other: SimSession) {
      this != other && table.slots != other.table.slots && links != other.links && links.slots != other.links.slots
    }

    twostate lemma Kept()
      requires old(Valid()) && Untouched()
      ensures Valid() && View() == old(View())
    {
    }

    constructor ()
      ensures Valid() && fresh(Footprint()) && View() == ZERO_SESSION
    {
      record := ZERO_SESSION;
      table := new ConfigTable(MAX_SESSION_CONFIGS);
      links := new LinkTable();
    }

    /** The memset of a slot. */
    method Zero()
      requires Valid()
      modifies Footprint()
      ensures Valid() && View() == ZERO_SESSION
    {
      table.Clear();
      links.Clear();
      record := ZERO_SESSION;
    }

    /** What allocation does to a free slot; a default that cannot be stored is passed over. */
    method Open(p: Profile, sessionId: uint32)
      requires Valid()
      modifies Footprint()
      ensures Valid() && View() == Opened(p, old(View()), sessionId)
    {
      hide DistinctIds, Contents, WellFormed;
      ghost var before := table.View();
      record := record.(inUse := true, id := sessionId, sessionType := p.sessionType, state := p.initialState,
                        rangingCount := 0, hasProximity := false, inProximity := false, maxDataSize := p.maxDataSize);
      ghost var scalars, kept := record, links.View();
      var i := 0;
      while i < |p.defaults|
        invariant 0 <= i <= |p.defaults| && Valid()
        invariant record == scalars && links.View() == kept
        invariant StoreAll(before, MAX_SESSION_CONFIGS, p.defaults)
               == StoreAll(table.View(), MAX_SESSION_CONFIGS, p.defaults[i..])
      {
        var t := p.defaults[i];
        var ok := table.Put(t.id, t.value);
        assert p.defaults[i..][1..] == p.defaults[i + 1..];
        i := i + 1;
      }
    }

    method ByteOr(key: byte, default: byte) returns (v: byte)
      requires Valid()
      ensures v == U8Or(table.View(), key, default)
    {
      var stored := table.Find(key);
      v := if stored.Some? && |stored.value| == 1 then stored.value[0] else default;
    }

    method WordOr(key: byte, default: uint16) returns (v: uint16)
      requires Valid()
      ensures v == U16Or(table.View(), key, default)
    {
      var stored := table.Find(key);
      v := if stored.Some? && |stored.value| == 2 then U16(stored.value) else default;
    }

    method RangingInterval(p: Profile) returns (v: uint32)
      requires Valid()
      ensures v == Interval(p, View())
    {
      var stored := table.Find(RANGING_INTERVAL);
      v := if stored.Some? && |stored.value| == 4 then U32(stored.value) else p.rangingIntervalMs;
    }

    method InitRangingSample(p: Profile) returns (sample: Sample)
      requires Valid()
      ensures sample == InitSample(p, View())
    {
      var interval := RangingInterval(p);
      var usage := ByteOr(RANGING_ROUND_USAGE, 1);
      var slotIndex := ByteOr(RESPONDER_SLOT_INDEX, 0);
      sample := Sample(record.id, interval, DistanceOf(p, record.rangingCount), MeasurementType(usage), slotIndex);
    }

    /** The reported fields: those the report parameter asks for, less the angles the AoA parameter rules out. */
    method SelectFields() returns (fields: Fields)
      requires Valid()
      ensures fields == ReportedFields(table.View())
    {
      hide DistinctIds, Contents, WellFormed, Bit;
      var report := ByteOr(RESULT_REPORT_CONFIG, 1);
      var rssi := ByteOr(RSSI_REPORTING, 0);
      fields := Fields(Bit(report, 0), Bit(report, 1), Bit(report, 2), Bit(report, 3), Bit(report, 3), rssi != 0);
      var aoa := ByteOr(AOA_RESULT_REQ, 0);
      if aoa != 2 && aoa != 3 { fields := fields.(azimuth := false, azimuthFom := false); }
      if aoa != 1 && aoa != 3 { fields := fields.(elevation := false, elevationFom := false); }
    }

    method EvaluatePolicy(sample: Sample) returns (policy: Policy)
      requires Valid()
      ensures policy == Evaluate(View(), sample)
    {
      hide DistinctIds, Contents, WellFormed, ReportedFields, U8Or, U16Or;
      var mode := ByteOr(NTF_CONFIG, 1);
      var near := WordOr(PROXIMITY_NEAR, 0);
      var far := WordOr(PROXIMITY_FAR, 0xFFFF);
      var inRange := near <= far && sample.distance >= near && sample.distance <= far;
      var fields := SelectFields();
      var emit := true;
      if mode == 0 {
        emit := false;
      } else if mode == 2 {
        emit := inRange;
      } else if mode == 5 {
        emit := record.hasProximity && record.inProximity != inRange;
      }
      policy := Policy(emit, inRange, fields);
    }
  }
}
