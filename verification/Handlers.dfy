/**
 The packet handlers (src/handlers/uci_sim_handlers.c). Each handler decides on
 a move, a response, and the notifications to hand out; Handle carries that out.
 */
module Handlers {
  import opened Types
  import opened PacketCodec
  import opened Profiles
  import opened ConfigTables
  import opened LogicalLinks
  import opened PacketQueues
  import opened Validation
  import opened Sessions
  import opened Devices

  /**
   How a notification leaves a handler: delivered (into the result if it is
   still free and the scenario does not defer, else queued), posted straight
   to the queue, or placed in the result whatever the scenario.
   */
  datatype Note = Deliver(packet: Packet) | Post(packet: Packet) | Direct(packet: Packet)

  datatype Decision = Decision(move: Move, response: Option<Packet>, notes: seq<Note>, ok: bool)

  /** The response and verdict of a command outside this model, chosen by the environment. */
  datatype Reply = Reply(response: Option<Packet>, ok: bool)

  datatype Result = Result(response: Option<Packet>, notification: Option<Packet>)

  datatype Handled = Handled(dev: Device, result: Result, ok: bool)

  function Response(gid: byte, oid: byte, payload: seq<byte>): Packet {
    Packet(MT_RESPONSE, PBF_COMPLETE, gid, oid, payload)
  }

  function StatusResponse(req: Packet, status: byte): Packet {
    Response(req.gid, req.oid, [status])
  }

  function Refuse(req: Packet, status: byte): Decision {
    Decision(Stay, Some(StatusResponse(req, status)), [], false)
  }

  function Answer(req: Packet, payload: seq<byte>, ok: bool): Decision {
    Decision(Stay, Some(Response(req.gid, req.oid, payload)), [], ok)
  }

  // ----- parameter lists -----

  /**
   The parameters a payload frames from an offset, and whether the list ended at a value that
   overruns the payload.
   */
  datatype TlvList = TlvList(tlvs: seq<Tlv>, overrun: bool)

  function DecodeTlvs(payload: seq<byte>, offset: nat, count: nat): (r: TlvList)
    ensures |r.tlvs| <= count
    decreases count
  {
    if count == 0 || offset + 2 > |payload| then TlvList([], false)
    else
      var end := offset + 2 + payload[offset + 1];
      if end > |payload| then TlvList([], true)
      else
        var rest := DecodeTlvs(payload, end, count - 1);
        TlvList([Tlv(payload[offset], payload[offset + 2..end])] + rest.tlvs, rest.overrun)
  }

  /** Parameters as a response lists them; stored values are at most 64 bytes, so their length fits a byte. */
  function EncodeTlvs(tlvs: seq<Tlv>): seq<byte> {
    if tlvs == [] then [] else EncodeTlv(tlvs[0]) + EncodeTlvs(tlvs[1..])
  }

  function EncodeTlv(t: Tlv): seq<byte> {
    [t.id, |t.value| % WRAP8] + t.value
  }

  /** The parameters collected for a GET response, and whether one of them ended the collection. */
  datatype Collected = Collected(tlvs: seq<Tlv>, failed: bool)

  /** Collects each requested parameter until one is unsupported, not stored, or does not fit the response. */
  function Collect(m: Table, supported: seq<byte>, ids: seq<byte>, used: nat): (r: Collected)
    ensures |r.tlvs| <= |ids|
    decreases |ids|
  {
    if ids == [] then Collected([], false)
    else if ids[0] !in supported || ids[0] !in m || used + 2 + |m[ids[0]]| > MAX_PAYLOAD then Collected([], true)
    else
      var rest := Collect(m, supported, ids[1..], used + 2 + |m[ids[0]]|);
      Collected([Tlv(ids[0], m[ids[0]])] + rest.tlvs, rest.failed)
  }

  /** Collects every stored parameter of a list, passing over the ones not stored. */
  function CollectStored(m: Table, ids: seq<byte>, used: nat): (r: Collected)
    decreases |ids|
  {
    if ids == [] then Collected([], false)
    else if ids[0] !in m then CollectStored(m, ids[1..], used)
    else if used + 2 + |m[ids[0]]| > MAX_PAYLOAD then Collected([], true)
    else
      var rest := CollectStored(m, ids[1..], used + 2 + |m[ids[0]]|);
      Collected([Tlv(ids[0], m[ids[0]])] + rest.tlvs, rest.failed)
  }

  /** The ids a GET names: as many as its count says and the payload holds. */
  function Requested(payload: seq<byte>, offset: nat, count: nat): seq<byte>
    requires offset <= |payload|
  {
    payload[offset..Min(offset + count, |payload|)]
  }

  // ----- core commands -----

  /** The device parameters as GET sees them: DEVICE_STATE always reads the live state. */
  function DeviceParameters(d: Device): Table {
    d.configs[DEVICE_CONFIG_STATE := [d.state]]
  }

  function Pairs(tlvs: seq<Tlv>, statuses: seq<byte>): seq<byte>
    requires |tlvs| == |statuses|
  {
    if tlvs == [] then [] else [tlvs[0].id, statuses[0]] + Pairs(tlvs[1..], statuses[1..])
  }

  function DecideCoreSet(p: Profile, d: Device, req: Packet): (k: Decision)
    ensures SlotOf(d, k.move)
  {
    if |req.payload| < 1 then Refuse(req, STATUS_INVALID_PARAM)
    else
      var count := req.payload[0];
      var list := DecodeTlvs(req.payload, 1, count);
      var statuses := CoreStatuses(p, d.configs, list.tlvs);
      var ok := |list.tlvs| == count && forall i :: 0 <= i < |statuses| ==> statuses[i] == STATUS_OK;
      var status := if ok then STATUS_OK else STATUS_INVALID_PARAM;
      Decision(SetCore(list.tlvs),
               Some(Response(GID_CORE, req.oid, [status, |list.tlvs|] + Pairs(list.tlvs, statuses))), [], ok)
  }

  function DecideCoreGet(p: Profile, d: Device, req: Packet): (k: Decision)
    ensures SlotOf(d, k.move)
  {
    if |req.payload| < 1 then Refuse(req, STATUS_INVALID_PARAM)
    else
      var got := Collect(DeviceParameters(d), p.coreConfigIds, Requested(req.payload, 1, req.payload[0]), 2);
      var status := if got.failed || got.tlvs == [] then STATUS_INVALID_PARAM else STATUS_OK;
      Answer(req, [status, |got.tlvs| % WRAP8] + EncodeTlvs(got.tlvs), status == STATUS_OK)
  }

  function DeviceStatusNtf(state: byte): Packet {
    Notification(GID_CORE, CORE_DEVICE_STATUS_NTF, [state])
  }

  function DecideCore(p: Profile, d: Device, req: Packet, other: Reply): (k: Decision)
    ensures SlotOf(d, k.move)
  {
    if !SupportsCommand(p, req.gid, req.oid) then Refuse(req, STATUS_UNKNOWN_OID)
    else if req.oid == CORE_DEVICE_RESET then
      if |req.payload| != 1 then Refuse(req, STATUS_INVALID_MSG_SIZE)
      else if req.payload[0] != 1 then Refuse(req, STATUS_INVALID_PARAM)
      else Decision(Reset, Some(StatusResponse(req, STATUS_OK)), [Deliver(DeviceStatusNtf(p.deviceState))], true)
    else if req.oid == CORE_SET_CONFIG then DecideCoreSet(p, d, req)
    else if req.oid == CORE_GET_CONFIG then DecideCoreGet(p, d, req)
    else if req.oid in {CORE_DEVICE_INFO, CORE_GET_CAPS_INFO, CORE_QUERY_TIMESTAMP} then Foreign(other)
    else Refuse(req, STATUS_UNKNOWN_OID)
  }

  function Foreign(other: Reply): Decision {
    Decision(Stay, other.response, [], other.ok)
  }

  // ----- session configuration commands -----

  function SessionId(req: Packet): uint32
    requires |req.payload| >= 4
  {
    U32(req.payload[..4])
  }

  function CountInUse(sessions: seq<Session>): nat {
    if sessions == [] then 0 else (if sessions[0].inUse then 1 else 0) + CountInUse(sessions[1..])
  }

  function DecideInit(p: Profile, d: Device, req: Packet): (k: Decision)
    ensures SlotOf(d, k.move)
  {
    if |req.payload| < 5 then Refuse(req, STATUS_INVALID_MSG_SIZE)
    else if req.payload[4] != 0 then Refuse(req, STATUS_INVALID_RANGE)
    else
      var id := SessionId(req);
      var found, free := FindSession(d.sessions, id), FirstFree(d.sessions);
      var response := Some(Response(req.gid, req.oid, [STATUS_OK] + U32Bytes(id)));
      if found < |d.sessions| then
        Decision(Stay, response, [Deliver(StatusNtf(id, d.sessions[found].state, p.statusReason))], true)
      else if free < |d.sessions| then
        Decision(Open(free, id), response, [Deliver(StatusNtf(id, p.initialState, p.statusReason))], true)
      else Refuse(req, STATUS_REJECTED)
  }

  function DecideDeinit(p: Profile, d: Device, req: Packet): (k: Decision)
    ensures SlotOf(d, k.move)
  {
    if |req.payload| < 4 then Refuse(req, STATUS_INVALID_MSG_SIZE)
    else
      var id := SessionId(req);
      var i := FindSession(d.sessions, id);
      if i == |d.sessions| then Refuse(req, STATUS_INVALID_PARAM)
      else Decision(Drop(i), Some(StatusResponse(req, STATUS_OK)),
                    [Deliver(StatusNtf(id, STATE_DEINIT, p.statusReason))], true)
  }

  /** The status of a SET: the one that stopped it, an overrun list, or OK. */
  function SetStatus(c: Configured, overrun: bool): byte {
    if c.stop.Some? then c.stop.value else if overrun then STATUS_INVALID_PARAM else STATUS_OK
  }

  function DecideSetApp(p: Profile, d: Device, req: Packet): (k: Decision)
    ensures SlotOf(d, k.move)
  {
    if |req.payload| < 5 then Refuse(req, STATUS_INVALID_MSG_SIZE)
    else
      var i := FindSession(d.sessions, SessionId(req));
      if i == |d.sessions| then Refuse(req, STATUS_INVALID_PARAM)
      else
        var list := DecodeTlvs(req.payload, 5, req.payload[4]);
        var status := SetStatus(ApplyTlvs(p, d.sessions[i], d.events, list.tlvs), list.overrun);
        Decision(Configure(i, list.tlvs), Some(Response(req.gid, req.oid, [status, 0])), [], status == STATUS_OK)
  }

  function DecideGetApp(p: Profile, d: Device, req: Packet): (k: Decision)
    ensures SlotOf(d, k.move)
  {
    if |req.payload| < 5 then Refuse(req, STATUS_INVALID_MSG_SIZE)
    else
      var i := FindSession(d.sessions, SessionId(req));
      if i == |d.sessions| then Refuse(req, STATUS_INVALID_PARAM)
      else
        var m := d.sessions[i].configs;
        var got := if req.payload[4] == 0 then CollectStored(m, p.appConfigIds, 2)
                   else Collect(m, p.appConfigIds, Requested(req.payload, 5, req.payload[4]), 2);
        var status := if got.failed then STATUS_INVALID_PARAM else STATUS_OK;
        Answer(req, [status, |got.tlvs| % WRAP8] + EncodeTlvs(got.tlvs), status == STATUS_OK)
  }

  function DecideDataSize(d: Device, req: Packet): (k: Decision)
    ensures SlotOf(d, k.move)
  {
    if |req.payload| < 4 then Answer(req, [STATUS_INVALID_PARAM, 0, 0], false)
    else
      var i := FindSession(d.sessions, SessionId(req));
      if i == |d.sessions| then Answer(req, [STATUS_INVALID_PARAM, 0, 0], false)
      else Answer(req, [STATUS_OK] + U16Bytes(d.sessions[i].maxDataSize), true)
  }

  function DecideGetState(d: Device, req: Packet): (k: Decision)
    ensures SlotOf(d, k.move)
  {
    if |req.payload| < 4 then Refuse(req, STATUS_INVALID_MSG_SIZE)
    else
      var i := FindSession(d.sessions, SessionId(req));
      if i == |d.sessions| then Refuse(req, STATUS_INVALID_PARAM)
      else Answer(req, [STATUS_OK, d.sessions[i].state], true)
  }

  function DecideSessionConfig(p: Profile, d: Device, req: Packet, other: Reply): (k: Decision)
    ensures SlotOf(d, k.move)
  {
    if !SupportsCommand(p, req.gid, req.oid) then Refuse(req, STATUS_UNKNOWN_OID)
    else if req.oid == SESSION_INIT then DecideInit(p, d, req)
    else if req.oid == SESSION_DEINIT then DecideDeinit(p, d, req)
    else if req.oid == SESSION_SET_APP_CONFIG then DecideSetApp(p, d, req)
    else if req.oid == SESSION_GET_APP_CONFIG then DecideGetApp(p, d, req)
    else if req.oid == SESSION_GET_COUNT then Answer(req, [STATUS_OK, CountInUse(d.sessions) % WRAP8], true)
    else if req.oid == SESSION_GET_STATE then DecideGetState(d, req)
    else if req.oid == SESSION_QUERY_DATA_SIZE then DecideDataSize(d, req)
    else if req.oid in {SESSION_MULTICAST_LIST, SESSION_DT_ANCHOR_ROUNDS, SESSION_DT_TAG_ROUNDS,
                        SESSION_DATA_TRANSFER_PHASE} then
      Foreign(other)
    else Refuse(req, STATUS_UNKNOWN_OID)
  }

  // ----- session control commands -----

  function LinkNtf(id: uint32, oid: byte, link: byte, detail: byte): Packet {
    Notification(GID_SESSION_CONTROL, oid, U32Bytes(id) + [link, detail])
  }

  function DecideLinkCreate(s: Session, i: nat, req: Packet): Decision
    requires |req.payload| >= 4
  {
    if |req.payload| < 5 then Refuse(req, STATUS_INVALID_MSG_SIZE)
    else
      var requested := req.payload[4];
      var mode := if |req.payload| >= 6 then req.payload[5] else 0;
      var credit := if |req.payload| >= 7 then req.payload[6] else 1;
      if requested != ANY_ID && Exists(s.links, requested) then Answer(req, [STATUS_INVALID_PARAM, 0xFF, 0], false)
      else if |s.links| >= MAX_LINKS then Answer(req, [STATUS_LIST_FULL, 0xFF, 0], false)
      else
        var id := AssignedId(s.links, requested);
        if id > 0xFF then Answer(req, [STATUS_INVALID_PARAM, 0xFF, 0], false)
        else Decision(Relink(i, s.links + [Link(true, id, mode, credit)]),
                      Some(Response(req.gid, req.oid, [STATUS_OK, id, credit])),
                      [Deliver(LinkNtf(SessionId(req), SESSION_LINK_UWBS_CREATE, id, credit))], true)
  }

  function DecideLinkClose(s: Session, i: nat, req: Packet): Decision
    requires |req.payload| >= 4
  {
    if |req.payload| < 5 then Refuse(req, STATUS_INVALID_MSG_SIZE)
    else
      var id := req.payload[4];
      if !Exists(s.links, id) then Answer(req, [STATUS_INVALID_PARAM, id], false)
      else Decision(Relink(i, Close(s.links, id)), Some(Response(req.gid, req.oid, [STATUS_OK, id])),
                    [Deliver(LinkNtf(SessionId(req), SESSION_LINK_UWBS_CLOSE, id, 0))], true)
  }

  function DecideLinkQuery(s: Session, req: Packet): Decision {
    if |req.payload| < 5 then Refuse(req, STATUS_INVALID_MSG_SIZE)
    else
      var id := req.payload[4];
      var at := IndexOf(s.links, id);
      if at == |s.links| then Answer(req, [STATUS_INVALID_PARAM, id, 0, 0], false)
      else Answer(req, [STATUS_OK, id, s.links[at].mode, s.links[at].credit], true)
  }

  /** START is validated again; a rejection that surfaces in a session status answers OK without starting. */
  function DecideTransition(p: Profile, s: Session, i: nat, req: Packet): Decision
    requires |req.payload| >= 4
  {
    var found := TransitionFor(p.transitions, req.oid);
    var id := SessionId(req);
    if found.None? then Refuse(req, STATUS_UNKNOWN_OID)
    else
      var t := found.value;
      var verdict := if req.oid == SESSION_START then StartVerdict(p, s.configs) else Accept;
      if !Bit(t.allowedStates, s.state) then Refuse(req, t.invalidStatus)
      else if verdict.Reject? && verdict.rejection.surface.SessionStatus? then
        Decision(Stay, Some(StatusResponse(req, STATUS_OK)),
                 [Deliver(StatusNtf(id, s.state, verdict.rejection.reason))], true)
      else if verdict.Reject? then Refuse(req, verdict.rejection.status)
      else Decision(Transit(i, req.oid, t.nextState), Some(StatusResponse(req, STATUS_OK)),
                    [Deliver(StatusNtf(id, t.nextState, p.statusReason))], true)
  }

  function DecideSessionControl(p: Profile, d: Device, req: Packet): (k: Decision)
    ensures SlotOf(d, k.move)
  {
    if !SupportsCommand(p, req.gid, req.oid) then Refuse(req, STATUS_UNKNOWN_OID)
    else if |req.payload| < 4 then Refuse(req, STATUS_INVALID_MSG_SIZE)
    else
      var i := FindSession(d.sessions, SessionId(req));
      if i == |d.sessions| then Refuse(req, STATUS_INVALID_PARAM)
      else
        var s := d.sessions[i];
        if req.oid == SESSION_GET_RANGING_COUNT then Answer(req, [STATUS_OK] + U32Bytes(s.rangingCount), true)
        else if req.oid == SESSION_LINK_CREATE then DecideLinkCreate(s, i, req)
        else if req.oid == SESSION_LINK_CLOSE then DecideLinkClose(s, i, req)
        else if req.oid == SESSION_LINK_GET_PARAM then DecideLinkQuery(s, req)
        else DecideTransition(p, s, i, req)
  }

  // ----- data messages -----

  function Fail(): Decision {
    Decision(Stay, None, [], false)
  }

  function Rebuff(id: uint32, sequence: uint16, status: byte, txCount: byte): Decision {
    Decision(Stay, None, [Direct(TransferNtf(id, sequence, status, txCount))], false)
  }

  /** A repeat of the last message is only acknowledged; any other starts over. */
  function DecideData(p: Profile, d: Device, req: Packet): (k: Decision)
    ensures SlotOf(d, k.move)
  {
    if req.gid != 1 || req.oid != 0 || |req.payload| < 16 then Fail()
    else
      var id, sequence, length := SessionId(req), U16(req.payload[12..14]), U16(req.payload[14..16]);
      var i := FindSession(d.sessions, id);
      if 16 + length > |req.payload| then Rebuff(id, sequence, TRANSFER_INVALID_FORMAT, 0)
      else if i == |d.sessions| || d.sessions[i].state != STATE_ACTIVE then Rebuff(id, sequence, TRANSFER_REJECTED, 0)
      else
        var s := d.sessions[i];
        if s.transferring then Rebuff(id, sequence, TRANSFER_ONGOING, s.txCount)
        else if s.hasLastMessage && s.lastSequence == sequence && s.lastLength == length then
          Decision(Stay, None, [Post(CreditNtf(id)), Post(TransferNtf(id, sequence, TRANSFER_REPETITION_OK, 1))], true)
        else DecideNewMessage(p, d, i, id, sequence, length)
  }

  /** Without repetitions the message is acknowledged at once; with them a transfer begins. */
  function DecideNewMessage(p: Profile, d: Device, i: nat, id: uint32, sequence: uint16, length: uint16): (k: Decision)
    requires i < |d.sessions|
    ensures SlotOf(d, k.move)
  {
    if Repetitions(d.sessions[i]) == 0 then
      Decision(Send(i, sequence, length), None, [Post(CreditNtf(id)), Post(TransferNtf(id, sequence, TRANSFER_OK, 1))],
               true)
    else Decision(Send(i, sequence, length), None, [], Sent(p, d.sessions[i], d.events, sequence, length).2)
  }

  // ----- carrying a decision out -----

  function Decide(p: Profile, d: Device, req: Packet, other: Reply): (k: Decision)
    ensures SlotOf(d, k.move)
  {
    if req.mt == MT_DATA then DecideData(p, d, req)
    else if req.gid == GID_CORE then DecideCore(p, d, req, other)
    else if req.gid == GID_SESSION_CONFIG then DecideSessionConfig(p, d, req, other)
    else if req.gid == GID_SESSION_CONTROL then DecideSessionControl(p, d, req)
    else if req.gid == GID_QORVO_EXT2 || req.gid == GID_QORVO_MAC then Foreign(other)
    else Refuse(req, STATUS_UNKNOWN_GID)
  }

  /** Handlers only ever deliver, only ever post, or place a single direct notification. */
  predicate Uniform(notes: seq<Note>) {
    || (forall i :: 0 <= i < |notes| ==> notes[i].Deliver?)
    || (forall i :: 0 <= i < |notes| ==> notes[i].Post?)
    || (|notes| == 1 && notes[0].Direct?)
  }

  lemma CoreNotes(p: Profile, d: Device, req: Packet, other: Reply)
    ensures var k := DecideCore(p, d, req, other);
            |k.notes| <= 1 && forall i :: 0 <= i < |k.notes| ==> k.notes[i].Deliver?
  {
  }

  lemma ConfigNotes(p: Profile, d: Device, req: Packet, other: Reply)
    ensures var k := DecideSessionConfig(p, d, req, other);
            |k.notes| <= 1 && forall i :: 0 <= i < |k.notes| ==> k.notes[i].Deliver?
  {
    hide ApplyTlvs, DecodeTlvs, Collect, CollectStored;
  }

  lemma ControlNotes(p: Profile, d: Device, req: Packet)
    ensures var k := DecideSessionControl(p, d, req);
            |k.notes| <= 1 && forall i :: 0 <= i < |k.notes| ==> k.notes[i].Deliver?
  {
    hide StartVerdict;
  }

  lemma DataNotes(p: Profile, d: Device, req: Packet)
    ensures var k := DecideData(p, d, req); |k.notes| <= 2 && Uniform(k.notes) && k.response.None?
    ensures var k := DecideData(p, d, req); k.notes != [] && !k.notes[0].Direct? ==> k.ok
  {
  }

  /** The notification slot of the result, the pending queue, and whether every posted notification found room. */
  datatype Mail = Mail(direct: Option<Packet>, pending: seq<Packet>, ok: bool)

  function Queue(m: Mail, packet: Packet): Mail {
    if |m.pending| < MAX_PENDING then m.(pending := m.pending + [packet]) else m
  }

  function Hand(defers: bool, m: Mail, note: Note): Mail {
    match note
    case Deliver(packet) => if !defers && m.direct.None? then m.(direct := Some(packet)) else Queue(m, packet)
    case Post(packet) => Queue(m, packet).(ok := m.ok && |m.pending| < MAX_PENDING)
    case Direct(packet) => m.(direct := Some(packet))
  }

  function HandAll(defers: bool, m: Mail, notes: seq<Note>): Mail
    decreases |notes|
  {
    if notes == [] then m else HandAll(defers, Hand(defers, m, notes[0]), notes[1..])
  }

  /** A free result takes the oldest pending notification, except on the first deferred one. */
  function Finalize(setup: Setup, m: Mail, pendingBefore: nat): Mail {
    if m.direct.Some? || m.pending == [] then m
    else if setup.scenario.DelayedNotifications? && pendingBefore == 0 then m
    else m.(direct := Some(m.pending[0]), pending := m.pending[1..])
  }

  function ErrorNotes(k: Decision): seq<Note> {
    if !k.ok && k.response.Some? && |k.response.value.payload| >= 1 then
      [Deliver(Notification(GID_CORE, CORE_GENERIC_ERROR, [k.response.value.payload[0]]))]
    else []
  }

  /** Applies the move, answers, and hands out the notifications. */
  function Carry(setup: Setup, d: Device, k: Decision): Handled
    requires SlotOf(d, k.move)
  {
    var d' := Apply(setup, d, k.move);
    var m := HandAll(setup.scenario.DelayedNotifications?, Mail(None, d'.pending, true), k.notes);
    Handled(d'.(pending := m.pending), Result(k.response, m.direct), k.ok && m.ok)
  }

  function Handle(setup: Setup, d: Device, req: Packet, other: Reply): Handled {
    if req.mt != MT_DATA && req.mt != MT_COMMAND then Handled(d, Result(None, None), false)
    else
      var k := Decide(setup.profile, d, req, other);
      var c := Carry(setup, d, k.(notes := k.notes + ErrorNotes(k)));
      var mail := Finalize(setup, Mail(c.result.notification, c.dev.pending, true), |d.pending|);
      Handled(c.dev.(pending := mail.pending), c.result.(notification := mail.direct), c.ok)
  }
}
