/**
 The packet handlers of the simulator (src/handlers/uci_sim_handlers.c) over the
 device's arrays: parameter lists are walked by offset, tables and queues change in
 place, and the result is filled in along the way. Each handler is shown to carry
 out the decision of its counterpart in Handlers.
 */
module SimHandlers {
  import opened Types
  import opened PacketCodec
  import opened Profiles
  import opened ConfigTables
  import opened EventQueues
  import opened PacketQueues
  import opened LogicalLinks
  import opened Validation
  import opened Sessions
  import opened Devices
  import opened Handlers
  import opened SimSessions
  import opened SimDevices

  /** Carrying out a decision with no notification, and one with a single delivered notification. */
  lemma CarryShort(setup: Setup, d: Device, k: Decision)
    requires SlotOf(d, k.move)
    ensures k.notes == [] ==> Carry(setup, d, k) == Handled(Apply(setup, d, k.move), Result(k.response, None), k.ok)
    ensures |k.notes| == 1 && k.notes[0].Deliver? ==>
      var d' := Apply(setup, d, k.move);
      var m := Hand(setup.scenario.DelayedNotifications?, Mail(None, d'.pending, true), k.notes[0]);
      Carry(setup, d, k) == Handled(d'.(pending := m.pending), Result(k.response, m.direct), k.ok)
  {
    hide Apply;
    var d' := Apply(setup, d, k.move);
    var defers, start := setup.scenario.DelayedNotifications?, Mail(None, d'.pending, true);
    if |k.notes| == 1 && k.notes[0].Deliver? {
      var m := Hand(defers, start, k.notes[0]);
      assert HandAll(defers, start, k.notes) == HandAll(defers, m, []) by { assert k.notes[1..] == []; }
    }
  }

  // ----- core commands -----

  ghost predicate AllOk(statuses: seq<byte>) {
    forall i :: 0 <= i < |statuses| ==> statuses[i] == STATUS_OK
  }

  /** What the first parameter of a list contributes. */
  lemma CoreFirst(p: Profile, m: Table, list: seq<Tlv>)
    requires list != []
    ensures var status, m' := CoreStatus(p, m, list[0]), CoreStep(p, m, list[0]);
            var rest := CoreStatuses(p, m', list[1..]);
            && CoreFold(p, m, list) == CoreFold(p, m', list[1..])
            && Pairs(list, CoreStatuses(p, m, list)) == [list[0].id, status] + Pairs(list[1..], rest)
            && (AllOk(CoreStatuses(p, m, list)) <==> status == STATUS_OK && AllOk(rest))
  {
    var status, m' := CoreStatus(p, m, list[0]), CoreStep(p, m, list[0]);
    var rest := CoreStatuses(p, m', list[1..]);
    var all := CoreStatuses(p, m, list);
    assert all == [status] + rest;
    assert all[1..] == rest && all[0] == status;
    assert AllOk(all) ==> AllOk(rest) by {
      if AllOk(all) {
        forall i | 0 <= i < |rest| ensures rest[i] == STATUS_OK { assert all[i + 1] == STATUS_OK; }
      }
    }
  }

  /** What a walk over parameters sees at an offset. */
  lemma DecodeNext(payload: seq<byte>, offset: nat, count: nat)
    ensures count == 0 || offset + 2 > |payload| ==> DecodeTlvs(payload, offset, count) == TlvList([], false)
    ensures count > 0 && offset + 2 <= |payload| ==>
      var end := offset + 2 + payload[offset + 1];
      if end > |payload| then DecodeTlvs(payload, offset, count) == TlvList([], true)
      else
        var list, rest := DecodeTlvs(payload, offset, count), DecodeTlvs(payload, end, count - 1);
        && list == TlvList([Tlv(payload[offset], payload[offset + 2..end])] + rest.tlvs, rest.overrun)
        && list.tlvs[1..] == rest.tlvs
  {
  }

  method SetCoreParameter(d: SimDevice, id: byte, value: seq<byte>) returns (status: byte)
    requires d.Valid()
    modifies d.configs.slots
    ensures d.Valid()
    ensures var p, m, t := d.setup.profile, old(d.View()).configs, Tlv(id, value);
            && status == CoreStatus(p, m, t) && d.View() == old(d.View()).(configs := CoreStep(p, m, t))
  {
    hide SimDevice.View, SimDevice.Valid;
    if id == DEVICE_CONFIG_STATE { return STATUS_INVALID_PARAM; }
    if id !in d.setup.profile.coreConfigIds { return STATUS_INVALID_PARAM; }
    var stored := d.StoreCoreConfig(id, value);
    status := if stored then STATUS_OK else STATUS_FAILED;
  }

  /** Walks the parameters of CORE_SET_CONFIG; a rejected one is listed and passed over. */
  method SetCoreParameters(d: SimDevice, payload: seq<byte>, count: byte)
      returns (processed: byte, pairs: seq<byte>, failed: bool)
    requires d.Valid()
    modifies d.configs.slots
    ensures d.Valid()
    ensures var p, m, list := d.setup.profile, old(d.View()).configs, DecodeTlvs(payload, 1, count).tlvs;
            && processed == |list|
            && pairs == Pairs(list, CoreStatuses(p, m, list))
            && (failed <==> !AllOk(CoreStatuses(p, m, list)))
            && d.View() == old(d.View()).(configs := CoreFold(p, m, list))
  {
    hide SimDevice.View, SimDevice.Valid, DecodeTlvs, AllOk, CoreFold, CoreStatuses, Pairs, CoreStatus, CoreStep;
    var p := d.setup.profile;
    ghost var before := d.View();
    ghost var list := DecodeTlvs(payload, 1, count).tlvs;
    ghost var rest, rests := list, CoreStatuses(p, before.configs, list);
    var offset: nat := 1;
    processed, pairs, failed := 0, [], false;
    while processed < count && offset + 2 <= |payload|
      invariant d.Valid() && d.View() == before.(configs := d.View().configs)
      invariant 0 <= processed <= count && processed + |rest| == |list|
      invariant rest == DecodeTlvs(payload, offset, count - processed).tlvs
      invariant rests == CoreStatuses(p, d.View().configs, rest)
      invariant CoreFold(p, before.configs, list) == CoreFold(p, d.View().configs, rest)
      invariant Pairs(list, CoreStatuses(p, before.configs, list)) == pairs + Pairs(rest, rests)
      invariant AllOk(CoreStatuses(p, before.configs, list)) <==> !failed && AllOk(rests)
      decreases count - processed
    {
      DecodeNext(payload, offset, count - processed);
      var id, length := payload[offset], payload[offset + 1];
      offset := offset + 2;
      if offset + length > |payload| { break; }
      CoreFirst(p, d.View().configs, rest);
      var status := SetCoreParameter(d, id, payload[offset..offset + length]);
      pairs := pairs + [id, status];
      failed := failed || status != STATUS_OK;
      offset := offset + length;
      processed := processed + 1;
      rest := rest[1..];
      rests := CoreStatuses(p, d.View().configs, rest);
    }
    DecodeNext(payload, offset, count - processed);
    CoreDone(p, d.View().configs);
  }

  method HandleCoreSet(d: SimDevice, req: Packet) returns (result: Result, ok: bool)
    requires d.Valid()
    modifies d.Footprint()
    ensures d.Valid()
    ensures Handled(d.View(), result, ok) ==
            Carry(d.setup, old(d.View()), DecideCoreSet(d.setup.profile, old(d.View()), req))
  {
    hide SimDevice.View, SimDevice.Valid, Carry, CoreFold, CoreStatuses, Pairs, DecodeTlvs;
    CarryShort(d.setup, d.View(), DecideCoreSet(d.setup.profile, d.View(), req));
    if |req.payload| < 1 { return Result(Some(StatusResponse(req, STATUS_INVALID_PARAM)), None), false; }
    var processed, pairs, failed := SetCoreParameters(d, req.payload, req.payload[0]);
    ok := !failed && processed == req.payload[0];
    var overall := if ok then STATUS_OK else STATUS_INVALID_PARAM;
    result := Result(Some(Response(GID_CORE, req.oid, [overall, processed] + pairs)), None);
  }

  lemma CoreDone(p: Profile, m: Table)
    ensures CoreFold(p, m, []) == m && CoreStatuses(p, m, []) == [] && Pairs([], []) == [] && AllOk([])
  {
  }

  // ----- reading parameters -----

  /** What is left to collect, given what has been written. */
  ghost predicate Collecting(all: Collected, rest: Collected, processed: nat, bytes: seq<byte>) {
    && |all.tlvs| == processed + |rest.tlvs| && all.failed == rest.failed
    && EncodeTlvs(all.tlvs) == bytes + EncodeTlvs(rest.tlvs)
  }

  lemma CollectedNone(all: Collected, rest: Collected, processed: nat, bytes: seq<byte>)
    requires Collecting(all, rest, processed, bytes) && rest.tlvs == []
    ensures |all.tlvs| == processed && EncodeTlvs(all.tlvs) == bytes && all.failed == rest.failed
  {
  }

  lemma CollectedOne(all: Collected, rest: Collected, processed: nat, bytes: seq<byte>, more: seq<byte>)
    requires Collecting(all, rest, processed, bytes) && rest.tlvs != [] && more == EncodeTlv(rest.tlvs[0])
    ensures Collecting(all, rest.(tlvs := rest.tlvs[1..]), processed + 1, bytes + more)
  {
  }

  method CollectCore(d: SimDevice, payload: seq<byte>, count: byte)
      returns (processed: nat, bytes: seq<byte>, failed: bool)
    requires d.Valid() && |payload| >= 1
    ensures d.Valid() && d.View() == old(d.View())
    ensures var got := Collect(DeviceParameters(d.View()), d.setup.profile.coreConfigIds, Requested(payload, 1, count),
                               2);
            processed == |got.tlvs| && bytes == EncodeTlvs(got.tlvs) && failed == got.failed
  {
    hide SimDevice.View, SimDevice.Valid, EncodeTlvs, EncodeTlv, Collecting, DeviceParameters;
    ghost var m, ids := DeviceParameters(d.View()), Requested(payload, 1, count);
    ghost var all := Collect(m, d.setup.profile.coreConfigIds, ids, 2);
    ghost var rest := all;
    processed, bytes, failed := 0, [], false;
    CollectingStarts(all);
    while processed < count && 1 + processed < |payload|
      invariant d.Valid() && d.View() == old(d.View())
      invariant processed <= |ids|
      invariant rest == Collect(m, d.setup.profile.coreConfigIds, ids[processed..], 2 + |bytes|)
      invariant Collecting(all, rest, processed, bytes)
      decreases count - processed
    {
      var id := payload[1 + processed];
      assert ids[processed..][0] == id && ids[processed..][1..] == ids[processed + 1..];
      if id !in d.setup.profile.coreConfigIds { failed := true; break; }
      var value := d.ReadCoreConfig(id);
      if value.None? { failed := true; break; }
      if 2 + |bytes| + 2 + |value.value| > MAX_PAYLOAD { failed := true; break; }
      var more := EncodeTlv(Tlv(id, value.value));
      CollectedOne(all, rest, processed, bytes, more);
      EncodedLength(Tlv(id, value.value));
      bytes := bytes + more;
      processed := processed + 1;
      rest := rest.(tlvs := rest.tlvs[1..]);
    }
    CollectedNone(all, rest, processed, bytes);
  }

  lemma CollectingStarts(all: Collected)
    ensures Collecting(all, all, 0, [])
  {
  }

  lemma EncodedLength(t: Tlv)
    ensures |EncodeTlv(t)| == 2 + |t.value|
  {
  }

  method CollectApp(d: SimDevice, i: nat, payload: seq<byte>, count: byte)
    returns (processed: nat, bytes: seq<byte>, failed: bool)
    requires d.Valid() && i < |d.sessions| && |payload| >= 5
    ensures d.Valid() && d.View() == old(d.View())
    ensures var got := Collect(d.View().sessions[i].configs, d.setup.profile.appConfigIds, Requested(payload, 5, count),
                               2);
            processed == |got.tlvs| && bytes == EncodeTlvs(got.tlvs) && failed == got.failed
  {
    hide SimDevice.View, SimDevice.Valid, EncodeTlvs, EncodeTlv, Collecting;
    ghost var m, ids := d.View().sessions[i].configs, Requested(payload, 5, count);
    ghost var all := Collect(m, d.setup.profile.appConfigIds, ids, 2);
    ghost var rest := all;
    processed, bytes, failed := 0, [], false;
    CollectingStarts(all);
    while processed < count && 5 + processed < |payload|
      invariant d.Valid() && d.View() == old(d.View())
      invariant processed <= |ids|
      invariant rest == Collect(m, d.setup.profile.appConfigIds, ids[processed..], 2 + |bytes|)
      invariant Collecting(all, rest, processed, bytes)
      decreases count - processed
    {
      var id := payload[5 + processed];
      assert ids[processed..][0] == id && ids[processed..][1..] == ids[processed + 1..];
      if id !in d.setup.profile.appConfigIds { failed := true; break; }
      var value := d.ReadConfig(i, id);
      if value.None? { failed := true; break; }
      if 2 + |bytes| + 2 + |value.value| > MAX_PAYLOAD { failed := true; break; }
      var more := EncodeTlv(Tlv(id, value.value));
      CollectedOne(all, rest, processed, bytes, more);
      EncodedLength(Tlv(id, value.value));
      bytes := bytes + more;
      processed := processed + 1;
      rest := rest.(tlvs := rest.tlvs[1..]);
    }
    CollectedNone(all, rest, processed, bytes);
  }

  /** A GET of everything: every supported parameter that is stored, until one does not fit. */
  method CollectSupported(d: SimDevice, i: nat) returns (processed: nat, bytes: seq<byte>, failed: bool)
    requires d.Valid() && i < |d.sessions|
    ensures d.Valid() && d.View() == old(d.View())
    ensures var got := CollectStored(d.View().sessions[i].configs, d.setup.profile.appConfigIds, 2);
            processed == |got.tlvs| && bytes == EncodeTlvs(got.tlvs) && failed == got.failed
  {
    hide SimDevice.View, SimDevice.Valid, EncodeTlvs, EncodeTlv, Collecting;
    ghost var m := d.View().sessions[i].configs;
    var ids := d.setup.profile.appConfigIds;
    ghost var all := CollectStored(m, ids, 2);
    ghost var rest := all;
    processed, bytes, failed := 0, [], false;
    CollectingStarts(all);
    var at := 0;
    while at < |ids|
      invariant d.Valid() && d.View() == old(d.View())
      invariant 0 <= at <= |ids|
      invariant rest == CollectStored(m, ids[at..], 2 + |bytes|)
      invariant Collecting(all, rest, processed, bytes)
    {
      var id := ids[at];
      assert ids[at..][0] == id && ids[at..][1..] == ids[at + 1..];
      var value := d.ReadConfig(i, id);
      if value.Some? {
        if 2 + |bytes| + 2 + |value.value| > MAX_PAYLOAD { failed := true; break; }
        var more := EncodeTlv(Tlv(id, value.value));
        CollectedOne(all, rest, processed, bytes, more);
        EncodedLength(Tlv(id, value.value));
        bytes := bytes + more;
        processed := processed + 1;
        rest := rest.(tlvs := rest.tlvs[1..]);
      }
      at := at + 1;
    }
    CollectedNone(all, rest, processed, bytes);
  }

  method HandleCoreGet(d: SimDevice, req: Packet) returns (result: Result, ok: bool)
    requires d.Valid()
    ensures d.Valid()
    ensures Handled(d.View(), result, ok) ==
            Carry(d.setup, old(d.View()), DecideCoreGet(d.setup.profile, old(d.View()), req))
  {
    hide SimDevice.View, SimDevice.Valid, Carry, EncodeTlvs, Collect, Requested;
    CarryShort(d.setup, d.View(), DecideCoreGet(d.setup.profile, d.View(), req));
    if |req.payload| < 1 { return Result(Some(StatusResponse(req, STATUS_INVALID_PARAM)), None), false; }
    var processed, bytes, failed := CollectCore(d, req.payload, req.payload[0]);
    ok := !failed && processed != 0;
    var status := if ok then STATUS_OK else STATUS_INVALID_PARAM;
    result := Result(Some(Response(req.gid, req.oid, [status, processed % WRAP8] + bytes)), None);
  }

  /** Reset answers with the live state the reset leaves. */
  method HandleReset(d: SimDevice, req: Packet) returns (result: Result, ok: bool)
    requires d.Valid() && req.gid == GID_CORE && req.oid == CORE_DEVICE_RESET
    requires SupportsCommand(d.setup.profile, req.gid, req.oid)
    modifies d.Footprint()
    ensures d.Valid()
    ensures Handled(d.View(), result, ok)
         == Carry(d.setup, old(d.View()), DecideCore(d.setup.profile, old(d.View()), req, Reply(None, false)))
  {
    hide SimDevice.View, SimDevice.Valid, Carry, SupportsCommand;
    CarryShort(d.setup, d.View(), DecideCore(d.setup.profile, d.View(), req, Reply(None, false)));
    if |req.payload| != 1 { return Result(Some(StatusResponse(req, STATUS_INVALID_MSG_SIZE)), None), false; }
    if req.payload[0] != 1 { return Result(Some(StatusResponse(req, STATUS_INVALID_PARAM)), None), false; }
    d.ResetRuntimeState();
    var notified := d.DeliverNotification(DeviceStatusNtf(d.state), None);
    return Result(Some(StatusResponse(req, STATUS_OK)), notified), true;
  }

  // ----- session configuration commands -----

  /** Checks and stores one application parameter; a new interval re-arms a running stream. */
  method SetParameter(d: SimDevice, i: nat, id: byte, value: seq<byte>) returns (stop: Option<byte>)
    requires d.Valid() && i < |d.sessions|
    modifies d.Footprint()
    ensures d.Valid()
    ensures var c := ApplyTlv(d.setup.profile, old(d.View()).sessions[i], old(d.View()).events, Tlv(id, value));
            stop == c.stop && d.View() == Put(old(d.View()), i, c.session).(events := c.events)
  {
    hide SimDevice.View, SimDevice.Valid, SimDevice.Footprint, SimSession.View, SimSession.Valid, AppConfigVerdict;
    d.Within(i);
    d.RecordIs(i);
    var p := d.setup.profile;
    if id !in p.appConfigIds { return Some(STATUS_INVALID_PARAM); }
    if IsChecked(id) {
      var verdict := AppConfigVerdict(p, d.Parameters(i), id, value);
      if verdict.Reject? && verdict.rejection.surface.Immediate? { return Some(verdict.rejection.status); }
    }
    var stored := d.StoreConfig(i, id, value);
    if !stored { return Some(STATUS_REJECTED); }
    stop := SettleParameter(d, i, id);
  }

  /** What follows a store: some parameters forget the proximity state, and the interval re-arms a running stream. */
  method SettleParameter(d: SimDevice, i: nat, id: byte) returns (stop: Option<byte>)
    requires d.Valid() && i < |d.sessions|
    modifies d.Footprint()
    ensures d.Valid()
    ensures var c := FollowUp(d.setup.profile, old(d.View()).sessions[i], old(d.View()).events, id);
            stop == c.stop && d.View() == Put(old(d.View()), i, c.session).(events := c.events)
  {
    hide SimDevice.View, SimDevice.Valid, SimDevice.Footprint, SimSession.View, SimSession.Valid, Reschedule,
      Without;
    d.Within(i);
    d.RecordIs(i);
    var s := d.sessions[i].record;
    if id == NTF_CONFIG || id == PROXIMITY_NEAR || id == PROXIMITY_FAR {
      d.Update(i, s.(hasProximity := false, inProximity := false));
    }
    if id == RANGING_INTERVAL && s.state == STATE_ACTIVE && s.streamRemaining > 0 {
      var interval := d.ReadInterval(i);
      var rearmed := d.RescheduleEvent(Event(RangeData, s.id, interval));
      if !rearmed { return Some(STATUS_REJECTED); }
    }
    return None;
  }

  /** Walks the parameters of SET_APP_CONFIG up to the first that is refused. */
  method SetParameters(d: SimDevice, i: nat, payload: seq<byte>, count: byte) returns (status: byte)
    requires d.Valid() && i < |d.sessions|
    modifies d.Footprint()
    ensures d.Valid()
    ensures var list := DecodeTlvs(payload, 5, count);
            var c := ApplyTlvs(d.setup.profile, old(d.View()).sessions[i], old(d.View()).events, list.tlvs);
            && status == SetStatus(c, list.overrun)
            && d.View() == Put(old(d.View()), i, c.session).(events := c.events)
  {
    hide SimDevice.View, SimDevice.Valid, SimDevice.Footprint, SimSession.View, SimSession.Valid, ApplyTlv,
      DecodeTlvs;
    var p := d.setup.profile;
    ghost var before := d.View();
    ghost var list := DecodeTlvs(payload, 5, count);
    ghost var all := ApplyTlvs(p, before.sessions[i], before.events, list.tlvs);
    ghost var rest := list.tlvs;
    var offset: nat, processed: byte := 5, 0;
    status := STATUS_OK;
    while processed < count && offset + 2 <= |payload|
      invariant d.Valid() && status == STATUS_OK
      invariant d.View() == Put(before, i, d.View().sessions[i]).(events := d.View().events)
      invariant processed <= count
      invariant DecodeTlvs(payload, offset, count - processed) == TlvList(rest, list.overrun)
      invariant all == ApplyTlvs(p, d.View().sessions[i], d.View().events, rest)
      decreases count - processed
    {
      DecodeNext(payload, offset, count - processed);
      var id, length := payload[offset], payload[offset + 1];
      offset := offset + 2;
      if offset + length > |payload| { return STATUS_INVALID_PARAM; }
      var stop := SetParameter(d, i, id, payload[offset..offset + length]);
      if stop.Some? { return stop.value; }
      offset := offset + length;
      processed := processed + 1;
      rest := rest[1..];
    }
    DecodeNext(payload, offset, count - processed);
  }

  method HandleSetApp(d: SimDevice, req: Packet) returns (result: Result, ok: bool)
    requires d.Valid()
    modifies d.Footprint()
    ensures d.Valid()
    ensures Handled(d.View(), result, ok) ==
            Carry(d.setup, old(d.View()), DecideSetApp(d.setup.profile, old(d.View()), req))
  {
    hide SimDevice.View, SimDevice.Valid, Carry, FindSession, FirstFree, U32, U32Bytes, SimDevice.Footprint,
      ApplyTlvs, DecodeTlvs, SetStatus;
    CarryShort(d.setup, d.View(), DecideSetApp(d.setup.profile, d.View(), req));
    if |req.payload| < 5 { return Result(Some(StatusResponse(req, STATUS_INVALID_MSG_SIZE)), None), false; }
    var i := d.FindSlot(U32(req.payload[..4]));
    if i >= |d.sessions| { return Result(Some(StatusResponse(req, STATUS_INVALID_PARAM)), None), false; }
    var status := SetParameters(d, i, req.payload, req.payload[4]);
    return Result(Some(Response(req.gid, req.oid, [status, 0])), None), status == STATUS_OK;
  }

  method HandleGetApp(d: SimDevice, req: Packet) returns (result: Result, ok: bool)
    requires d.Valid()
    ensures d.Valid()
    ensures Handled(d.View(), result, ok) ==
            Carry(d.setup, old(d.View()), DecideGetApp(d.setup.profile, old(d.View()), req))
  {
    hide SimDevice.View, SimDevice.Valid, Carry, FindSession, FirstFree, U32, U32Bytes, Collect, CollectStored,
      Requested, EncodeTlvs;
    CarryShort(d.setup, d.View(), DecideGetApp(d.setup.profile, d.View(), req));
    if |req.payload| < 5 { return Result(Some(StatusResponse(req, STATUS_INVALID_MSG_SIZE)), None), false; }
    var i := d.FindSlot(U32(req.payload[..4]));
    if i >= |d.sessions| { return Result(Some(StatusResponse(req, STATUS_INVALID_PARAM)), None), false; }
    var processed, bytes, failed;
    if req.payload[4] == 0 {
      processed, bytes, failed := CollectSupported(d, i);
    } else {
      processed, bytes, failed := CollectApp(d, i, req.payload, req.payload[4]);
    }
    var status := if failed then STATUS_INVALID_PARAM else STATUS_OK;
    return Result(Some(Response(req.gid, req.oid, [status, processed % WRAP8] + bytes)), None), !failed;
  }

  method HandleInit(d: SimDevice, req: Packet) returns (result: Result, ok: bool)
    requires d.Valid()
    modifies d.Footprint()
    ensures d.Valid()
    ensures Handled(d.View(), result, ok) ==
            Carry(d.setup, old(d.View()), DecideInit(d.setup.profile, old(d.View()), req))
  {
    hide SimDevice.View, SimDevice.Valid, Carry, FindSession, FirstFree, U32, U32Bytes, SimDevice.Footprint,
      SimSession.View, SimSession.Valid, StoreAll;
    CarryShort(d.setup, d.View(), DecideInit(d.setup.profile, d.View(), req));
    if |req.payload| < 5 { return Result(Some(StatusResponse(req, STATUS_INVALID_MSG_SIZE)), None), false; }
    if req.payload[4] != 0 { return Result(Some(StatusResponse(req, STATUS_INVALID_RANGE)), None), false; }
    var id := U32(req.payload[..4]);
    var i := d.FindSlot(id);
    if i >= |d.sessions| {
      i := d.AllocSession(id);
      if i >= |d.sessions| { return Result(Some(StatusResponse(req, STATUS_REJECTED)), None), false; }
    }
    d.Within(i);
    d.RecordIs(i);
    var notified := d.DeliverNotification(StatusNtf(id, d.sessions[i].record.state, d.setup.profile.statusReason),
                                          None);
    return Result(Some(Response(req.gid, req.oid, [STATUS_OK] + U32Bytes(id))), notified), true;
  }

  /** Zeroes the slot; events of the session stay queued. */
  method HandleDeinit(d: SimDevice, req: Packet) returns (result: Result, ok: bool)
    requires d.Valid()
    modifies d.Footprint()
    ensures d.Valid()
    ensures Handled(d.View(), result, ok) ==
            Carry(d.setup, old(d.View()), DecideDeinit(d.setup.profile, old(d.View()), req))
  {
    hide SimDevice.View, SimDevice.Valid, Carry, FindSession, FirstFree, U32, U32Bytes, SimDevice.Footprint,
      SimSession.View, SimSession.Valid;
    CarryShort(d.setup, d.View(), DecideDeinit(d.setup.profile, d.View(), req));
    if |req.payload| < 4 { return Result(Some(StatusResponse(req, STATUS_INVALID_MSG_SIZE)), None), false; }
    var id := U32(req.payload[..4]);
    var i := d.FindSlot(id);
    if i >= |d.sessions| { return Result(Some(StatusResponse(req, STATUS_INVALID_PARAM)), None), false; }
    var note := StatusNtf(id, STATE_DEINIT, d.setup.profile.statusReason);
    d.Within(i);
    var notified := d.DeliverNotification(note, None);
    d.ZeroSession(i);
    return Result(Some(StatusResponse(req, STATUS_OK)), notified), true;
  }

  method CountSessions(d: SimDevice) returns (n: nat)
    requires d.Valid()
    ensures d.Valid() && d.View() == old(d.View()) && n == CountInUse(d.View().sessions)
  {
    n := 0;
    var i := 0;
    while i < |d.sessions|
      invariant 0 <= i <= |d.sessions|
      invariant CountInUse(d.View().sessions) == n + CountInUse(d.View().sessions[i..])
    {
      assert d.View().sessions[i..][1..] == d.View().sessions[i + 1..];
      if d.sessions[i].record.inUse { n := n + 1; }
      i := i + 1;
    }
  }

  method HandleDataSize(d: SimDevice, req: Packet) returns (result: Result, ok: bool)
    requires d.Valid()
    ensures d.Valid()
    ensures Handled(d.View(), result, ok) == Carry(d.setup, old(d.View()), DecideDataSize(old(d.View()), req))
  {
    hide SimDevice.View, SimDevice.Valid, Carry, FindSession, U32, U16Bytes, SimSession.View, SimSession.Valid;
    CarryShort(d.setup, d.View(), DecideDataSize(d.View(), req));
    if |req.payload| < 4 { return Result(Some(Response(req.gid, req.oid, [STATUS_INVALID_PARAM, 0, 0])), None), false; }
    var i := d.FindSlot(U32(req.payload[..4]));
    if i >= |d.sessions| { return Result(Some(Response(req.gid, req.oid, [STATUS_INVALID_PARAM, 0, 0])), None), false; }
    d.RecordIs(i);
    return Result(Some(Response(req.gid, req.oid, [STATUS_OK] + U16Bytes(d.sessions[i].record.maxDataSize))), None),
        true;
  }

  method HandleGetState(d: SimDevice, req: Packet) returns (result: Result, ok: bool)
    requires d.Valid()
    ensures d.Valid()
    ensures Handled(d.View(), result, ok) == Carry(d.setup, old(d.View()), DecideGetState(old(d.View()), req))
  {
    hide SimDevice.View, SimDevice.Valid, Carry, FindSession, U32, SimSession.View, SimSession.Valid;
    CarryShort(d.setup, d.View(), DecideGetState(d.View(), req));
    if |req.payload| < 4 { return Result(Some(StatusResponse(req, STATUS_INVALID_MSG_SIZE)), None), false; }
    var i := d.FindSlot(U32(req.payload[..4]));
    if i >= |d.sessions| { return Result(Some(StatusResponse(req, STATUS_INVALID_PARAM)), None), false; }
    d.RecordIs(i);
    return Result(Some(Response(req.gid, req.oid, [STATUS_OK, d.sessions[i].record.state])), None), true;
  }

  method HandleSessionConfig(d: SimDevice, req: Packet, other: Reply) returns (result: Result, ok: bool)
    requires d.Valid()
    modifies d.Footprint()
    ensures d.Valid()
    ensures Handled(d.View(), result, ok)
         == Carry(d.setup, old(d.View()), DecideSessionConfig(d.setup.profile, old(d.View()), req, other))
  {
    hide SimDevice.View, SimDevice.Valid, SimDevice.Footprint, SimSession.View, SimSession.Valid, Carry, DecideInit,
      DecideDeinit, DecideSetApp, DecideGetApp, DecideGetState, DecideDataSize, CountInUse, SupportsCommand, Hand,
      SlotOf, StatusResponse, Response;
    CarryShort(d.setup, d.View(), DecideSessionConfig(d.setup.profile, d.View(), req, other));
    if !SupportsCommand(d.setup.profile, req.gid, req.oid) {
      return Result(Some(StatusResponse(req, STATUS_UNKNOWN_OID)), None), false;
    }
    match req.oid {
      case SESSION_INIT => result, ok := HandleInit(d, req);
      case SESSION_DEINIT => result, ok := HandleDeinit(d, req);
      case SESSION_SET_APP_CONFIG => result, ok := HandleSetApp(d, req);
      case SESSION_GET_APP_CONFIG => result, ok := HandleGetApp(d, req);
      case SESSION_GET_COUNT =>
        var n := CountSessions(d);
        return Result(Some(Response(req.gid, req.oid, [STATUS_OK, n % WRAP8])), None), true;
      case SESSION_GET_STATE => result, ok := HandleGetState(d, req);
      case SESSION_QUERY_DATA_SIZE => result, ok := HandleDataSize(d, req);
      case _ =>
        if req.oid in {SESSION_MULTICAST_LIST, SESSION_DT_ANCHOR_ROUNDS, SESSION_DT_TAG_ROUNDS,
                       SESSION_DATA_TRANSFER_PHASE} {
          return Result(other.response, None), other.ok;
        }
        return Result(Some(StatusResponse(req, STATUS_UNKNOWN_OID)), None), false;
    }
  }

  method HandleCore(d: SimDevice, req: Packet, other: Reply) returns (result: Result, ok: bool)
    requires d.Valid() && req.gid == GID_CORE
    modifies d.Footprint()
    ensures d.Valid()
    ensures Handled(d.View(), result, ok)
         == Carry(d.setup, old(d.View()), DecideCore(d.setup.profile, old(d.View()), req, other))
  {
    hide SimDevice.View, SimDevice.Valid, Carry, DecideCoreSet, DecideCoreGet, SupportsCommand;
    CarryShort(d.setup, d.View(), DecideCore(d.setup.profile, d.View(), req, other));
    if !SupportsCommand(d.setup.profile, req.gid, req.oid) {
      return Result(Some(StatusResponse(req, STATUS_UNKNOWN_OID)), None), false;
    }
    match req.oid {
      case CORE_DEVICE_RESET => result, ok := HandleReset(d, req);
      case CORE_SET_CONFIG => result, ok := HandleCoreSet(d, req);
      case CORE_GET_CONFIG => result, ok := HandleCoreGet(d, req);
      case _ =>
        if req.oid in {CORE_DEVICE_INFO, CORE_GET_CAPS_INFO, CORE_QUERY_TIMESTAMP} {
          return Result(other.response, None), other.ok;
        }
        return Result(Some(StatusResponse(req, STATUS_UNKNOWN_OID)), None), false;
    }
  }

  // ----- session control commands -----

  method HandleLinkCreate(d: SimDevice, i: nat, req: Packet) returns (result: Result, ok: bool)
    requires d.Valid() && i < |d.sessions| && |req.payload| >= 4
    modifies d.Footprint()
    ensures d.Valid()
    ensures Handled(d.View(), result, ok) ==
            Carry(d.setup, old(d.View()), DecideLinkCreate(old(d.View()).sessions[i], i, req))
  {
    hide SimDevice.View, SimDevice.Valid, SimDevice.Footprint, Carry, SimSession.View, SimSession.Valid, U32,
      U32Bytes, Hand, AssignedId, Exists, LinkNtf;
    CarryShort(d.setup, d.View(), DecideLinkCreate(d.View().sessions[i], i, req));
    d.Within(i);
    if |req.payload| < 5 { return Result(Some(StatusResponse(req, STATUS_INVALID_MSG_SIZE)), None), false; }
    var requested := req.payload[4];
    var mode := if |req.payload| >= 6 then req.payload[5] else 0;
    var credit := if |req.payload| >= 7 then req.payload[6] else 1;
    var taken := false;
    if requested != ANY_ID { taken := d.HasLink(i, requested); }
    if taken { return Result(Some(Response(req.gid, req.oid, [STATUS_INVALID_PARAM, 0xFF, 0])), None), false; }
    var link := d.AllocateLink(i, requested, mode, credit);
    if link.None? { return Result(Some(Response(req.gid, req.oid, [STATUS_LIST_FULL, 0xFF, 0])), None), false; }
    var notified := d.DeliverNotification(LinkNtf(U32(req.payload[..4]), SESSION_LINK_UWBS_CREATE, link.value, credit),
                                          None);
    return Result(Some(Response(req.gid, req.oid, [STATUS_OK, link.value, credit])), notified), true;
  }

  method HandleLinkClose(d: SimDevice, i: nat, req: Packet) returns (result: Result, ok: bool)
    requires d.Valid() && i < |d.sessions| && |req.payload| >= 4
    modifies d.Footprint()
    ensures d.Valid()
    ensures Handled(d.View(), result, ok) ==
            Carry(d.setup, old(d.View()), DecideLinkClose(old(d.View()).sessions[i], i, req))
  {
    hide SimDevice.View, SimDevice.Valid, SimDevice.Footprint, Carry, SimSession.View, SimSession.Valid, U32,
      U32Bytes, Exists;
    CarryShort(d.setup, d.View(), DecideLinkClose(d.View().sessions[i], i, req));
    d.Within(i);
    if |req.payload| < 5 { return Result(Some(StatusResponse(req, STATUS_INVALID_MSG_SIZE)), None), false; }
    var id := req.payload[4];
    var closed := d.RemoveLink(i, id);
    if !closed { return Result(Some(Response(req.gid, req.oid, [STATUS_INVALID_PARAM, id])), None), false; }
    var notified := d.DeliverNotification(LinkNtf(U32(req.payload[..4]), SESSION_LINK_UWBS_CLOSE, id, 0), None);
    return Result(Some(Response(req.gid, req.oid, [STATUS_OK, id])), notified), true;
  }

  method HandleLinkQuery(d: SimDevice, i: nat, req: Packet) returns (result: Result, ok: bool)
    requires d.Valid() && i < |d.sessions|
    ensures d.Valid()
    ensures Handled(d.View(), result, ok) ==
            Carry(d.setup, old(d.View()), DecideLinkQuery(old(d.View()).sessions[i], req))
  {
    hide SimDevice.View, SimDevice.Valid, Carry, SimSession.View, SimSession.Valid;
    CarryShort(d.setup, d.View(), DecideLinkQuery(d.View().sessions[i], req));
    if |req.payload| < 5 { return Result(Some(StatusResponse(req, STATUS_INVALID_MSG_SIZE)), None), false; }
    var id := req.payload[4];
    var link := d.FindLink(i, id);
    if link.None? { return Result(Some(Response(req.gid, req.oid, [STATUS_INVALID_PARAM, id, 0, 0])), None), false; }
    return Result(Some(Response(req.gid, req.oid, [STATUS_OK, id, link.value.mode, link.value.credit])), None), true;
  }

  /** START validates the table again; entering a state resets the proximity state, and the scenario acts last. */
  method HandleTransition(d: SimDevice, i: nat, req: Packet) returns (result: Result, ok: bool)
    requires d.Valid() && i < |d.sessions| && |req.payload| >= 4
    modifies d.Footprint()
    ensures d.Valid()
    ensures Handled(d.View(), result, ok)
         == Carry(d.setup, old(d.View()), DecideTransition(d.setup.profile, old(d.View()).sessions[i], i, req))
  {
    hide SimDevice.View, SimDevice.Valid, SimDevice.Footprint, Carry, SimSession.View, SimSession.Valid, U32,
      U32Bytes, StartVerdict, Bit, TransitionFor, Armed, Cancel;
    CarryShort(d.setup, d.View(), DecideTransition(d.setup.profile, d.View().sessions[i], i, req));
    d.Within(i);
    d.RecordIs(i);
    var p, s := d.setup.profile, d.sessions[i].record;
    var found := TransitionFor(p.transitions, req.oid);
    if found.None? { return Result(Some(StatusResponse(req, STATUS_UNKNOWN_OID)), None), false; }
    var t := found.value;
    if !Bit(t.allowedStates, s.state) { return Result(Some(StatusResponse(req, t.invalidStatus)), None), false; }
    if req.oid == SESSION_START {
      var verdict := StartVerdict(p, d.Parameters(i));
      if verdict.Reject? {
        if verdict.rejection.surface.SessionStatus? {
          var told := d.DeliverNotification(StatusNtf(U32(req.payload[..4]), s.state, verdict.rejection.reason), None);
          return Result(Some(StatusResponse(req, STATUS_OK)), told), true;
        }
        return Result(Some(StatusResponse(req, verdict.rejection.status)), None), false;
      }
    }
    var notified := EnterState(d, i, req.oid, t.nextState,
                               StatusNtf(U32(req.payload[..4]), t.nextState, p.statusReason));
    return Result(Some(StatusResponse(req, STATUS_OK)), notified), true;
  }

  /** What the scenario does to a session that entered a state. */
  ghost function ScenarioActs(setup: Setup, d: Device, i: nat, oid: byte): Device
    requires i < |d.sessions|
  {
    var s := d.sessions[i];
    if oid == SESSION_START then
      var (s', q') := Armed(setup, s, d.events);
      Put(d, i, s').(events := q')
    else if oid == SESSION_STOP then Put(d, i, Stopped(s)).(events := Cancel(d.events, s.id))
    else d
  }

  /** Entering a state, telling the host and then letting the scenario act is one transition. */
  lemma TransitInSteps(setup: Setup, d: Device, i: nat, oid: byte, next: byte, pending: seq<Packet>)
    requires i < |d.sessions|
    ensures ScenarioActs(setup, Put(d, i, Entered(d.sessions[i], oid, next)).(pending := pending), i, oid)
         == Apply(setup, d, Transit(i, oid, next)).(pending := pending)
    ensures Apply(setup, d, Transit(i, oid, next)).pending == d.pending
  {
    hide Armed, Cancel, Stopped;
  }

  method Enter(d: SimDevice, i: nat, oid: byte, next: byte)
    requires d.Valid() && i < |d.sessions|
    modifies d.Footprint()
    ensures d.Valid() && d.View() == Put(old(d.View()), i, Entered(old(d.View()).sessions[i], oid, next))
  {
    hide SimDevice.View, SimDevice.Valid, SimDevice.Footprint, SimSession.View, SimSession.Valid, Put;
    d.Within(i);
    d.RecordIs(i);
    var s := d.sessions[i].record;
    if oid == SESSION_START || oid == SESSION_STOP {
      s := s.(hasProximity := false, inProximity := false);
    }
    d.Update(i, s.(state := next));
  }

  method ActOnTransition(d: SimDevice, i: nat, oid: byte)
    requires d.Valid() && i < |d.sessions|
    modifies d.Footprint()
    ensures d.Valid() && d.View() == ScenarioActs(d.setup, old(d.View()), i, oid)
  {
    hide SimDevice.View, SimDevice.Valid, SimDevice.Footprint, Armed, Cancel, Stopped, Put;
    if oid == SESSION_START {
      d.SessionStarted(i);
    } else if oid == SESSION_STOP {
      d.SessionStopped(i);
    }
  }

  /** Enters a state and tells the host, then lets the scenario act on a start or a stop. */
  method EnterState(d: SimDevice, i: nat, oid: byte, next: byte, note: Packet) returns (notified: Option<Packet>)
    requires d.Valid() && i < |d.sessions|
    modifies d.Footprint()
    ensures d.Valid()
    ensures var d' := Apply(d.setup, old(d.View()), Transit(i, oid, next));
            var m := Hand(d.setup.scenario.DelayedNotifications?, Mail(None, d'.pending, true), Deliver(note));
            notified == m.direct && d.View() == d'.(pending := m.pending)
  {
    hide SimDevice.View, SimDevice.Valid, SimDevice.Footprint, Apply, ScenarioActs, Hand;
    d.Within(i);
    ghost var before := d.View();
    Enter(d, i, oid, next);
    notified := d.DeliverNotification(note, None);
    TransitInSteps(d.setup, before, i, oid, next, d.View().pending);
    ActOnTransition(d, i, oid);
  }

  method HandleSessionControl(d: SimDevice, req: Packet) returns (result: Result, ok: bool)
    requires d.Valid()
    modifies d.Footprint()
    ensures d.Valid()
    ensures Handled(d.View(), result, ok) ==
            Carry(d.setup, old(d.View()), DecideSessionControl(d.setup.profile, old(d.View()), req))
  {
    hide SimDevice.View, SimDevice.Valid, Carry, DecideLinkCreate, DecideLinkClose, DecideLinkQuery,
      DecideTransition, SupportsCommand, SimSession.View, SimSession.Valid, FindSession, U32, U32Bytes, Hand, SlotOf;
    CarryShort(d.setup, d.View(), DecideSessionControl(d.setup.profile, d.View(), req));
    if !SupportsCommand(d.setup.profile, req.gid, req.oid) {
      return Result(Some(StatusResponse(req, STATUS_UNKNOWN_OID)), None), false;
    }
    if |req.payload| < 4 { return Result(Some(StatusResponse(req, STATUS_INVALID_MSG_SIZE)), None), false; }
    var i := d.FindSlot(U32(req.payload[..4]));
    if i >= |d.sessions| { return Result(Some(StatusResponse(req, STATUS_INVALID_PARAM)), None), false; }
    match req.oid {
      case SESSION_GET_RANGING_COUNT =>
        d.RecordIs(i);
        return Result(Some(Response(req.gid, req.oid, [STATUS_OK] + U32Bytes(d.sessions[i].record.rangingCount))),
                      None), true;
      case SESSION_LINK_CREATE => result, ok := HandleLinkCreate(d, i, req);
      case SESSION_LINK_CLOSE => result, ok := HandleLinkClose(d, i, req);
      case SESSION_LINK_GET_PARAM => result, ok := HandleLinkQuery(d, i, req);
      case _ => result, ok := HandleTransition(d, i, req);
    }
  }

  // ----- data messages -----

  /** Carrying out a decision that fills the result directly, and one that posts two notifications. */
  lemma CarryData(setup: Setup, d: Device, k: Decision)
    requires SlotOf(d, k.move)
    ensures |k.notes| == 1 && k.notes[0].Direct? ==>
      Carry(setup, d, k) == Handled(Apply(setup, d, k.move), Result(k.response, Some(k.notes[0].packet)), k.ok)
    ensures |k.notes| == 2 && k.notes[0].Post? && k.notes[1].Post? ==>
      var d' := Apply(setup, d, k.move);
      var q := Posted(d'.pending, k.notes[0].packet);
      Carry(setup, d, k) == Handled(d'.(pending := Posted(q, k.notes[1].packet)), Result(k.response, None),
                                    k.ok && |d'.pending| < MAX_PENDING && |q| < MAX_PENDING)
  {
    hide Apply;
    var d' := Apply(setup, d, k.move);
    var defers, start := setup.scenario.DelayedNotifications?, Mail(None, d'.pending, true);
    if |k.notes| == 1 && k.notes[0].Direct? {
      assert HandAll(defers, start, k.notes) == start.(direct := Some(k.notes[0].packet)) by {
        assert k.notes[1..] == [];
      }
    }
    if |k.notes| == 2 && k.notes[0].Post? && k.notes[1].Post? {
      var first := Hand(defers, start, k.notes[0]);
      assert HandAll(defers, start, k.notes) == HandAll(defers, first, [k.notes[1]]) by {
        assert k.notes[1..] == [k.notes[1]];
      }
      assert HandAll(defers, first, [k.notes[1]]) == Hand(defers, first, k.notes[1]) by {
        assert [k.notes[1]][1..] == [];
      }
    }
  }

  ghost function Posted(pending: seq<Packet>, note: Packet): seq<Packet> {
    Queue(Mail(None, pending, true), note).pending
  }

  /** Queues the credit and the status of a message, stopping at the first that finds no room. */
  method Acknowledge(d: SimDevice, credit: Packet, status: Packet) returns (ok: bool)
    requires d.Valid()
    modifies d.Core()
    ensures d.Valid()
    ensures var q := Posted(old(d.View()).pending, credit);
            && ok == (|old(d.View()).pending| < MAX_PENDING && |q| < MAX_PENDING)
            && d.View() == old(d.View()).(pending := Posted(q, status))
  {
    hide SimDevice.View, SimDevice.Valid;
    ok := d.QueueNotification(credit);
    if !ok { return; }
    ok := d.QueueNotification(status);
  }

  /** Remembers a new message and, with repetitions configured, begins a transfer if an event fits. */
  method AcceptMessage(d: SimDevice, i: nat, sequence: uint16, length: uint16) returns (repetitions: byte, ok: bool)
    requires d.Valid() && i < |d.sessions|
    modifies d.Footprint()
    ensures d.Valid()
    ensures var (s, q, sent) := Sent(d.setup.profile, old(d.View()).sessions[i], old(d.View()).events, sequence,
                                     length);
            && repetitions == Repetitions(old(d.View()).sessions[i]) && ok == sent
            && d.View() == Put(old(d.View()), i, s).(events := q)
  {
    hide SimDevice.View, SimDevice.Valid, SimDevice.Footprint, SimSession.View, SimSession.Valid, IntervalOf;
    d.Within(i);
    d.RecordIs(i);
    repetitions := d.ReadByte(i, DATA_REPETITION_COUNT, 0);
    var s := d.sessions[i].record.(hasLastMessage := true, lastSequence := sequence, lastLength := length);
    if repetitions == 0 {
      d.Update(i, s);
      return repetitions, true;
    }
    s := s.(transferring := true, repetitionsLeft := repetitions, txCount := 0, transferSequence := sequence);
    var interval := d.ReadInterval(i);
    ok := d.ScheduleEvent(Event(DataTransfer, s.id, interval));
    if !ok { s := s.(transferring := false, repetitionsLeft := 0, txCount := 0); }
    d.Update(i, s);
  }

  method NewMessage(d: SimDevice, i: nat, id: uint32, sequence: uint16, length: uint16) returns (ok: bool)
    requires d.Valid() && i < |d.sessions|
    modifies d.Footprint()
    ensures d.Valid()
    ensures Handled(d.View(), Result(None, None), ok)
         == Carry(d.setup, old(d.View()), DecideNewMessage(d.setup.profile, old(d.View()), i, id, sequence, length))
  {
    hide SimDevice.View, SimDevice.Valid, SimDevice.Footprint, SimSession.View, SimSession.Valid, Carry, CreditNtf,
      TransferNtf, Repetitions, Sent, Posted;
    ghost var k := DecideNewMessage(d.setup.profile, d.View(), i, id, sequence, length);
    CarryShort(d.setup, d.View(), k);
    CarryData(d.setup, d.View(), k);
    SentPlain(d.setup.profile, d.View().sessions[i], d.View().events, sequence, length);
    d.Within(i);
    var repetitions;
    repetitions, ok := AcceptMessage(d, i, sequence, length);
    if repetitions == 0 {
      ok := Acknowledge(d, CreditNtf(id), TransferNtf(id, sequence, TRANSFER_OK, 1));
    }
  }

  lemma SentPlain(p: Profile, s: Session, q: seq<Event>, sequence: uint16, length: uint16)
    ensures Repetitions(s) == 0 ==> Sent(p, s, q, sequence, length).2
  {
  }

  method HandleData(d: SimDevice, req: Packet) returns (result: Result, ok: bool)
    requires d.Valid()
    modifies d.Footprint()
    ensures d.Valid()
    ensures Handled(d.View(), result, ok) ==
            Carry(d.setup, old(d.View()), DecideData(d.setup.profile, old(d.View()), req))
  {
    hide SimDevice.View, SimDevice.Valid, SimDevice.Footprint, SimSession.View, SimSession.Valid, Carry, U16, U32,
      FindSession, CreditNtf, TransferNtf, DecideNewMessage, Posted;
    ghost var k := DecideData(d.setup.profile, d.View(), req);
    CarryShort(d.setup, d.View(), k);
    CarryData(d.setup, d.View(), k);
    if req.gid != 1 || req.oid != 0 || |req.payload| < 16 { return Result(None, None), false; }
    var id, sequence, length := U32(req.payload[..4]), U16(req.payload[12..14]), U16(req.payload[14..16]);
    var i := d.FindSlot(id);
    if 16 + length > |req.payload| {
      return Result(None, Some(TransferNtf(id, sequence, TRANSFER_INVALID_FORMAT, 0))), false;
    }
    if i >= |d.sessions| { return Result(None, Some(TransferNtf(id, sequence, TRANSFER_REJECTED, 0))), false; }
    d.Within(i);
    d.RecordIs(i);
    var s := d.sessions[i].record;
    if s.state != STATE_ACTIVE { return Result(None, Some(TransferNtf(id, sequence, TRANSFER_REJECTED, 0))), false; }
    if s.transferring { return Result(None, Some(TransferNtf(id, sequence, TRANSFER_ONGOING, s.txCount))), false; }
    result := Result(None, None);
    if s.hasLastMessage && s.lastSequence == sequence && s.lastLength == length {
      ok := Acknowledge(d, CreditNtf(id), TransferNtf(id, sequence, TRANSFER_REPETITION_OK, 1));
      return;
    }
    ok := NewMessage(d, i, id, sequence, length);
  }

  // ----- any packet -----

  lemma {:induction false} HandAllAppend(defers: bool, m: Mail, notes: seq<Note>, more: seq<Note>)
    ensures HandAll(defers, m, notes + more) == HandAll(defers, HandAll(defers, m, notes), more)
    decreases |notes|
  {
    if notes == [] {
      assert notes + more == more;
    } else {
      assert (notes + more)[1..] == notes[1..] + more;
      HandAllAppend(defers, Hand(defers, m, notes[0]), notes[1..], more);
    }
  }

  lemma {:induction false} DeliveriesSucceed(defers: bool, m: Mail, notes: seq<Note>)
    requires forall n :: n in notes ==> n.Deliver?
    ensures HandAll(defers, m, notes).ok == m.ok
    decreases |notes|
  {
    if notes != [] { DeliveriesSucceed(defers, Hand(defers, m, notes[0]), notes[1..]); }
  }

  /** Commands only deliver, so the verdict of carrying one out is the handler's own. */
  lemma CommandsDeliver(p: Profile, d: Device, req: Packet, other: Reply)
    requires req.mt != MT_DATA
    ensures forall n :: n in Decide(p, d, req, other).notes ==> n.Deliver?
  {
    hide DecideCore, DecideSessionConfig, DecideSessionControl;
    CoreNotes(p, d, req, other);
    ConfigNotes(p, d, req, other);
    ControlNotes(p, d, req);
  }

  /** A command is carried out, then an error adds its notification. */
  lemma CommandInSteps(setup: Setup, d: Device, req: Packet, other: Reply)
    requires req.mt != MT_DATA
    ensures var k := Decide(setup.profile, d, req, other);
            var c := Carry(setup, d, k);
            var m := HandAll(setup.scenario.DelayedNotifications?, Mail(c.result.notification, c.dev.pending, true),
                             ErrorNotes(k));
            && c.ok == k.ok && c.result.response == k.response
            && Carry(setup, d, k.(notes := k.notes + ErrorNotes(k)))
            == Handled(c.dev.(pending := m.pending), c.result.(notification := m.direct), k.ok)
  {
    hide Decide, Apply, Hand;
    var k := Decide(setup.profile, d, req, other);
    var defers, start := setup.scenario.DelayedNotifications?, Mail(None, Apply(setup, d, k.move).pending, true);
    CommandsDeliver(setup.profile, d, req, other);
    DeliveriesSucceed(defers, start, k.notes);
    DeliveriesSucceed(defers, HandAll(defers, start, k.notes), ErrorNotes(k));
    HandAllAppend(defers, start, k.notes, ErrorNotes(k));
  }

  /** A data message has no response, so no error is added. */
  lemma DataInSteps(setup: Setup, d: Device, req: Packet, other: Reply)
    requires req.mt == MT_DATA
    ensures var k := Decide(setup.profile, d, req, other);
            k == DecideData(setup.profile, d, req) && k.(notes := k.notes + ErrorNotes(k)) == k
  {
    hide DecideData;
    DataNotes(setup.profile, d, req);
  }

  /** The error notification of a refused command. */
  lemma ErrorInSteps(defers: bool, m: Mail, k: Decision)
    ensures HandAll(defers, m, ErrorNotes(k)) ==
      if !k.ok && k.response.Some? && |k.response.value.payload| >= 1
      then Hand(defers, m, Deliver(Notification(GID_CORE, CORE_GENERIC_ERROR, [k.response.value.payload[0]])))
      else m
  {
    hide Hand;
    if ErrorNotes(k) != [] {
      assert ErrorNotes(k)[1..] == [];
    }
  }

  method HandleCommand(d: SimDevice, req: Packet, other: Reply) returns (result: Result, ok: bool)
    requires d.Valid() && req.mt != MT_DATA
    modifies d.Footprint()
    ensures d.Valid()
    ensures Handled(d.View(), result, ok) ==
            Carry(d.setup, old(d.View()), Decide(d.setup.profile, old(d.View()), req, other))
  {
    hide SimDevice.View, SimDevice.Valid, Carry, DecideCore, DecideSessionConfig, DecideSessionControl;
    CarryShort(d.setup, d.View(), Decide(d.setup.profile, d.View(), req, other));
    match req.gid {
      case GID_CORE => result, ok := HandleCore(d, req, other);
      case GID_SESSION_CONFIG => result, ok := HandleSessionConfig(d, req, other);
      case GID_SESSION_CONTROL => result, ok := HandleSessionControl(d, req);
      case _ =>
        if req.gid == GID_QORVO_EXT2 || req.gid == GID_QORVO_MAC { return Result(other.response, None), other.ok; }
        return Result(Some(StatusResponse(req, STATUS_UNKNOWN_GID)), None), false;
    }
  }

  method HandlePacket(d: SimDevice, req: Packet, other: Reply) returns (result: Result, ok: bool)
    requires d.Valid()
    modifies d.Footprint()
    ensures d.Valid() && Handled(d.View(), result, ok) == Handle(d.setup, old(d.View()), req, other)
  {
    hide SimDevice.View, SimDevice.Valid, SimDevice.Footprint, Carry, Decide, DecideData, Finalize, Hand, ErrorNotes;
    ghost var before := d.View();
    d.Within(0);
    var pendingBefore := d.PendingCount();
    if req.mt == MT_DATA {
      DataInSteps(d.setup, before, req, other);
      result, ok := HandleData(d, req);
    } else if req.mt != MT_COMMAND {
      return Result(None, None), false;
    } else {
      ghost var k := Decide(d.setup.profile, before, req, other);
      CommandInSteps(d.setup, before, req, other);
      result, ok := HandleCommand(d, req, other);
      ErrorInSteps(d.setup.scenario.DelayedNotifications?, Mail(result.notification, d.View().pending, true), k);
      if !ok && result.response.Some? && |result.response.value.payload| >= 1 {
        var error := Notification(GID_CORE, CORE_GENERIC_ERROR, [result.response.value.payload[0]]);
        var notified := d.DeliverNotification(error, result.notification);
        result := result.(notification := notified);
      }
    }
    var taken := d.FinalizeResult(result.notification, pendingBefore);
    result := result.(notification := taken);
  }
}
