/**
 What a host is answered: for each request the response byte by byte, the notification
 handed out with it, and what the device is left with, stated on the handled packet.
 */
module Answers {
  import opened Types
  import opened PacketCodec
  import opened Profiles
  import opened ConfigTables
  import opened LogicalLinks
  import opened EventQueues
  import opened PacketQueues
  import opened Validation
  import opened StartGate
  import opened Sessions
  import opened Devices
  import opened Handlers
  import opened Engines
  import opened Moves
  import opened Streams
  import opened Reports

  // ----- how a notification leaves -----

  /**
   At most one notification leaves with a response. Outside the deferring scenario it takes the result slot and the
   pending queue stays as it is. In the deferring scenario it joins the queue when there is room, and the result takes
   the oldest pending packet, unless nothing was pending before. A request without a notification takes the oldest
   pending packet by the same rule.
   */
  predicate HandsOut(setup: Setup, before: seq<Packet>, after: seq<Packet>, direct: Option<Packet>,
                     note: Option<Packet>) {
    var defers := setup.scenario.DelayedNotifications?;
    if note.Some? && !defers then direct == note && after == before
    else
      var all := if note.Some? && |before| < 8 then before + [note.value] else before;
      if all == [] || (defers && before == []) then direct == None && after == all
      else direct == Some(all[0]) && after == all[1..]
  }

  /** The response, and the notification that goes with it. */
  predicate AnsweredWith(setup: Setup, d: Device, h: Handled, response: Packet, note: Option<Packet>) {
    h.result.response == Some(response) && HandsOut(setup, d.pending, h.dev.pending, h.result.notification, note)
  }

  /** A status notification, built from the bytes of an id. */
  function Status(id: seq<byte>, state: byte, reason: byte): Packet {
    Packet(3, 0, 1, 2, id + [state, reason])
  }

  /** A refusal: the payload, whose first byte is the status, then a generic error with that status; nothing changes. */
  predicate RefusedWith(setup: Setup, d: Device, req: Packet, h: Handled, payload: seq<byte>)
    requires |payload| > 0
  {
    && AnsweredWith(setup, d, h, Packet(2, 0, req.gid, req.oid, payload), Some(Packet(3, 0, 0, 7, [payload[0]])))
    && h.dev == d.(pending := h.dev.pending) && !h.ok
  }

  /** A query: the payload, no notification, nothing changes. */
  predicate QueriedWith(setup: Setup, d: Device, req: Packet, h: Handled, payload: seq<byte>) {
    && AnsweredWith(setup, d, h, Packet(2, 0, req.gid, req.oid, payload), None)
    && h.dev == d.(pending := h.dev.pending) && h.ok
  }

  /** What Handle makes of a decision with at most one notification. */
  lemma OneNote(setup: Setup, d: Device, req: Packet, other: Reply, note: Option<Packet>)
    requires req.mt == MT_DATA || req.mt == MT_COMMAND
    requires var k := Decide(setup.profile, d, req, other);
             k.notes + ErrorNotes(k) == (if note.Some? then [Deliver(note.value)] else []) && !k.move.Reset?
    ensures var k, h := Decide(setup.profile, d, req, other), Handle(setup, d, req, other);
            && h.result.response == k.response && h.ok == k.ok
            && h.dev == Apply(setup, d, k.move).(pending := h.dev.pending)
            && HandsOut(setup, d.pending, h.dev.pending, h.result.notification, note)
  {
    hide Decide, Apply, HandAll, ErrorNotes;
    var k := Decide(setup.profile, d, req, other);
    ApplyKeepsPending(setup, d, k.move);
    OneHanded(setup.scenario.DelayedNotifications?, Mail(None, d.pending, true), note);
  }

  lemma OneHanded(defers: bool, m: Mail, note: Option<Packet>)
    ensures HandAll(defers, m, if note.Some? then [Deliver(note.value)] else []) ==
              if note.Some? then Hand(defers, m, Deliver(note.value)) else m
  {
    if note.Some? {
      var one := [Deliver(note.value)];
      assert one[1..] == [];
    }
  }

  /** No move but a reset touches the pending queue. */
  lemma ApplyKeepsPending(setup: Setup, d: Device, mv: Move)
    requires SlotOf(d, mv) && !mv.Reset?
    ensures Apply(setup, d, mv).pending == d.pending
  {
    hide ApplyTlvs, StoreAll, CoreFold, Sent, Armed;
  }

  /** A refused request. */
  lemma Refusing(setup: Setup, d: Device, req: Packet, other: Reply, payload: seq<byte>)
    requires req.mt == MT_COMMAND && |payload| > 0
    requires Decide(setup.profile, d, req, other) ==
             Decision(Stay, Some(Response(req.gid, req.oid, payload)), [], false)
    ensures RefusedWith(setup, d, req, Handle(setup, d, req, other), payload)
  {
    hide Decide, HandsOut, Handle;
    OneNote(setup, d, req, other, Some(Packet(3, 0, 0, 7, [payload[0]])));
  }

  lemma Querying(setup: Setup, d: Device, req: Packet, other: Reply, payload: seq<byte>)
    requires req.mt == MT_COMMAND
    requires Decide(setup.profile, d, req, other) == Decision(Stay, Some(Response(req.gid, req.oid, payload)), [], true)
    ensures QueriedWith(setup, d, req, Handle(setup, d, req, other), payload)
  {
    hide Decide, HandsOut, Handle;
    OneNote(setup, d, req, other, None);
  }

  lemma IdBytes(b: seq<byte>)
    requires |b| == 4
    ensures U32Bytes(U32(b)) == b
  {
    hide U16Bytes;
    WordBytes(b[..2]);
    WordBytes(b[2..]);
    var lo, hi := U16(b[..2]) as int, U16(b[2..]) as int;
    assert (lo + 0x1_0000 * hi) % 0x1_0000 == lo && (lo + 0x1_0000 * hi) / 0x1_0000 == hi;
    assert b == b[..2] + b[2..];
  }

  lemma WordBytes(b: seq<byte>)
    requires |b| == 2
    ensures U16Bytes(U16(b)) == b
  {
  }

  /** The session id a request names: its first four payload bytes, lowest first. */
  function NamedId(req: Packet): (id: uint32)
    requires |req.payload| >= 4
  {
    Long4(req.payload, 0)
  }

  lemma NamedIs(req: Packet)
    requires |req.payload| >= 4
    ensures SessionId(req) == NamedId(req) && U32Bytes(SessionId(req)) == req.payload[..4]
  {
    hide U32, U32Bytes;
    U32Long(req.payload[..4]);
    IdBytes(req.payload[..4]);
  }

  /** Slot of the session a request names, or the number of slots. */
  function NamedSlot(d: Device, req: Packet): nat
    requires |req.payload| >= 4
  {
    FindSession(d.sessions, NamedId(req))
  }

  predicate IsCommand(req: Packet, gid: byte, oid: byte) {
    req.mt == 1 && req.gid == gid && req.oid == oid
  }

  // ----- unknown packets -----

  /** The commands of the default profile. */
  predicate DefaultCommand(gid: byte, oid: byte) {
    || (gid == 0 && oid in {0, 2, 3, 4, 5, 8})
    || (gid == 1 && oid in {0, 1, 3, 4, 5, 6, 7, 8, 9, 11, 14})
    || (gid == 2 && oid in {0, 1, 3, 7, 8, 11})
  }

  lemma DefaultCommandIs(gid: byte, oid: byte)
    ensures SupportsCommand(DefaultProfile(), gid, oid) <==> DefaultCommand(gid, oid)
  {
    hide DefaultLimits, DefaultFaults, DefaultRangeData, DefaultTlvs, DefaultAppConfigIds;
  }

  /** Responses and notifications sent to the device are ignored; a group or command it does not know is refused. */
  lemma UnknownAnswer(setup: Setup, d: Device, req: Packet, other: Reply)
    requires setup.profile == DefaultProfile()
    ensures var h := Handle(setup, d, req, other);
            && (req.mt >= 2 ==> h == Handled(d, Result(None, None), false))
            && (req.mt == 1 && req.gid !in {0, 1, 2, 11, 14} ==> RefusedWith(setup, d, req, h, [7]))
            && (req.mt == 1 && req.gid in {0, 1, 2} && !DefaultCommand(req.gid, req.oid) ==>
                RefusedWith(setup, d, req, h, [8]))
  {
    hide RefusedWith, Carry, Finalize, DefaultProfile, SupportsCommand, DecideCoreSet, DecideCoreGet, DecideInit,
        DecideDeinit,
      DecideSetApp, DecideGetApp, DecideGetState, DecideDataSize, DecideLinkCreate, DecideLinkClose, DecideLinkQuery,
      DecideTransition, ErrorNotes;
    DefaultCommandIs(req.gid, req.oid);
    if req.mt == 1 && req.gid !in {0, 1, 2, 11, 14} {
      Refusing(setup, d, req, other, [7]);
    } else if req.mt == 1 && req.gid in {0, 1, 2} && !DefaultCommand(req.gid, req.oid) {
      Refusing(setup, d, req, other, [8]);
    }
  }

  // ----- sessions: creating, dropping, asking -----

  /** A session as INIT creates it. */
  predicate Fresh(p: Profile, s: Session, id: uint32) {
    && s == Session(true, id, p.sessionType, p.initialState, 0, p.maxDataSize, 0, false, 0, 0, false, 0, 0, 0, false,
                    false,
                    s.configs, [])
    && s.configs == FreshTable(p.defaults)
  }

  /**
   SESSION_INIT: a short request, a session type other than 0, or a full table is refused; a known id is only announced
   again; otherwise the first free slot gets a fresh session.
   */
  lemma InitAnswer(setup: Setup, d: Device, req: Packet, other: Reply)
    requires Structured(d) && IsCommand(req, 1, 0) && 0 in setup.profile.sessionConfigOids
    ensures var h, p := Handle(setup, d, req, other), setup.profile;
            if |req.payload| < 5 then RefusedWith(setup, d, req, h, [6])
            else if req.payload[4] != 0 then RefusedWith(setup, d, req, h, [5])
            else
              var i, j, id := NamedSlot(d, req), FirstFree(d.sessions), req.payload[..4];
              var response := Packet(2, 0, 1, 0, [0] + id);
              if i < |d.sessions| then
                && AnsweredWith(setup, d, h, response, Some(Status(id, d.sessions[i].state, p.statusReason)))
                && h.dev == d.(pending := h.dev.pending) && h.ok
              else if j < |d.sessions| then
                && AnsweredWith(setup, d, h, response, Some(Status(id, p.initialState, p.statusReason))) && h.ok
                && |h.dev.sessions| == |d.sessions| && Fresh(p, h.dev.sessions[j], NamedId(req))
                && h.dev == d.(sessions := d.sessions[j := h.dev.sessions[j]], pending := h.dev.pending)
              else RefusedWith(setup, d, req, h, [1])
  {
    hide RefusedWith, HandsOut, Handle, U32, StoreAll, WellFormed, ShortTable;
    if |req.payload| < 5 {
      Refusing(setup, d, req, other, [6]);
    } else if req.payload[4] != 0 {
      Refusing(setup, d, req, other, [5]);
    } else {
      NamedIs(req);
      var i, j, id := NamedSlot(d, req), FirstFree(d.sessions), req.payload[..4];
      if i < |d.sessions| {
        OneNote(setup, d, req, other, Some(Status(id, d.sessions[i].state, setup.profile.statusReason)));
      } else if j < |d.sessions| {
        OneNote(setup, d, req, other, Some(Status(id, setup.profile.initialState, setup.profile.statusReason)));
      } else {
        Refusing(setup, d, req, other, [1]);
      }
    }
  }

  /** SESSION_DEINIT: the host is told, the slot is zeroed, and nothing else changes. */
  lemma DeinitAnswer(setup: Setup, d: Device, req: Packet, other: Reply)
    requires IsCommand(req, 1, 1) && 1 in setup.profile.sessionConfigOids
    ensures var h := Handle(setup, d, req, other);
            if |req.payload| < 4 then RefusedWith(setup, d, req, h, [6])
            else
              var i := NamedSlot(d, req);
              if i == |d.sessions| then RefusedWith(setup, d, req, h, [4])
              else
                && AnsweredWith(setup, d, h, Packet(2, 0, 1, 1, [0]),
                                Some(Status(req.payload[..4], 1, setup.profile.statusReason)))
                && h.dev == d.(sessions := d.sessions[i := ZERO_SESSION], pending := h.dev.pending) && h.ok
  {
    hide RefusedWith, HandsOut, Handle, U32;
    if |req.payload| < 4 {
      Refusing(setup, d, req, other, [6]);
    } else {
      NamedIs(req);
      if NamedSlot(d, req) == |d.sessions| {
        Refusing(setup, d, req, other, [4]);
      } else {
        OneNote(setup, d, req, other, Some(Status(req.payload[..4], 1, setup.profile.statusReason)));
      }
    }
  }

  /** Which slots are allocated. */
  function Allocated(sessions: seq<Session>): seq<bool> {
    seq(|sessions|, i requires 0 <= i < |sessions| => sessions[i].inUse)
  }

  /** The number of allocated slots. */
  lemma {:induction false} CountIs(sessions: seq<Session>)
    ensures CountInUse(sessions) == multiset(Allocated(sessions))[true] <= |sessions|
  {
    if sessions != [] {
      CountIs(sessions[1..]);
      assert Allocated(sessions) == [sessions[0].inUse] + Allocated(sessions[1..]);
    }
  }

  /** The number of sessions. */
  lemma CountAnswer(setup: Setup, d: Device, req: Packet, other: Reply)
    requires IsCommand(req, 1, 5) && 5 in setup.profile.sessionConfigOids && |d.sessions| == 8
    ensures multiset(Allocated(d.sessions))[true] <= 8
    ensures QueriedWith(setup, d, req, Handle(setup, d, req, other), [0, multiset(Allocated(d.sessions))[true]])
  {
    hide QueriedWith, Handle, Allocated;
    CountIs(d.sessions);
    Querying(setup, d, req, other, [0, CountInUse(d.sessions)]);
  }

  /** The state of a session. */
  lemma StateAnswer(setup: Setup, d: Device, req: Packet, other: Reply)
    requires IsCommand(req, 1, 6) && 6 in setup.profile.sessionConfigOids
    ensures var h := Handle(setup, d, req, other);
            if |req.payload| < 4 then RefusedWith(setup, d, req, h, [6])
            else
              var i := NamedSlot(d, req);
              if i == |d.sessions| then RefusedWith(setup, d, req, h, [4])
              else QueriedWith(setup, d, req, h, [0, d.sessions[i].state])
  {
    hide QueriedWith, RefusedWith, Handle, U32;
    if |req.payload| < 4 {
      Refusing(setup, d, req, other, [6]);
    } else {
      NamedIs(req);
      var i := NamedSlot(d, req);
      if i == |d.sessions| {
        Refusing(setup, d, req, other, [4]);
      } else {
        Querying(setup, d, req, other, [0, d.sessions[i].state]);
      }
    }
  }

  /** The largest data message, low byte first. */
  lemma DataSizeAnswer(setup: Setup, d: Device, req: Packet, other: Reply)
    requires IsCommand(req, 1, 11) && 11 in setup.profile.sessionConfigOids
    ensures var h := Handle(setup, d, req, other);
            if |req.payload| < 4 || NamedSlot(d, req) == |d.sessions| then RefusedWith(setup, d, req, h, [4, 0, 0])
            else
              var size := d.sessions[NamedSlot(d, req)].maxDataSize;
              QueriedWith(setup, d, req, h, [0, size % 256, size / 256])
  {
    hide QueriedWith, RefusedWith, Handle, U32;
    if |req.payload| < 4 {
      Refusing(setup, d, req, other, [4, 0, 0]);
    } else {
      NamedIs(req);
      var i := NamedSlot(d, req);
      if i == |d.sessions| {
        Refusing(setup, d, req, other, [4, 0, 0]);
      } else {
        var size := d.sessions[i].maxDataSize;
        assert [0] + U16Bytes(size) == [0, size % 256, size / 256];
        Querying(setup, d, req, other, [0, size % 256, size / 256]);
      }
    }
  }

  /** The measurements a session has counted, lowest byte first. */
  lemma RangingCountAnswer(setup: Setup, d: Device, req: Packet, other: Reply)
    requires IsCommand(req, 2, 3) && 3 in setup.profile.sessionControlOids
    ensures var h := Handle(setup, d, req, other);
            if |req.payload| < 4 then RefusedWith(setup, d, req, h, [6])
            else
              var i := NamedSlot(d, req);
              if i == |d.sessions| then RefusedWith(setup, d, req, h, [4])
              else
                exists count: seq<byte> :: |count| == 4 && Long4(count, 0) == d.sessions[i].rangingCount
                                           && QueriedWith(setup, d, req, h, [0] + count)
  {
    hide QueriedWith, RefusedWith, Handle, U32, U32Bytes;
    if |req.payload| < 4 {
      Refusing(setup, d, req, other, [6]);
    } else {
      NamedIs(req);
      var i := NamedSlot(d, req);
      if i == |d.sessions| {
        Refusing(setup, d, req, other, [4]);
      } else {
        U32Long(U32Bytes(d.sessions[i].rangingCount));
        Querying(setup, d, req, other, [0] + U32Bytes(d.sessions[i].rangingCount));
      }
    }
  }
}
