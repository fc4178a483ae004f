/** What a host is told about a data message, branch by branch, and about each transmission of its transfer. */
module DataAnswers {
  import opened Types
  import opened PacketCodec
  import opened Profiles
  import opened ConfigTables
  import opened EventQueues
  import opened PacketQueues
  import opened Validation
  import opened Sessions
  import opened Devices
  import opened Handlers
  import opened Engines
  import opened Reports
  import opened Answers
  import opened ControlAnswers

  // ----- the notifications of a transfer -----

  /** A transfer status: session, sequence number, status and the number of transmissions. */
  predicate IsTransfer(note: Packet, id: nat, sequence: nat, status: nat, txCount: nat) {
    && note == Packet(3, 0, 2, 5, note.payload) && |note.payload| == 8
    && Long4(note.payload, 0) == id && (note.payload[4] as nat) + 256 * (note.payload[5] as nat) == sequence
    && note.payload[6] == status && note.payload[7] == txCount
  }

  /** One credit returned to a session. */
  predicate IsCredit(note: Packet, id: nat) {
    note == Packet(3, 0, 2, 4, note.payload) && |note.payload| == 5 && Long4(note.payload, 0) == id
        && note.payload[4] == 1
  }

  lemma TransferNoteIs(id: uint32, sequence: uint16, status: byte, txCount: byte)
    ensures IsTransfer(TransferNtf(id, sequence, status, txCount), id, sequence, status, txCount)
  {
    hide U32Bytes, U32;
    U32Long(U32Bytes(id));
  }

  lemma CreditNoteIs(id: uint32)
    ensures IsCredit(CreditNtf(id), id)
  {
    hide U32Bytes, U32;
    U32Long(U32Bytes(id));
  }

  /**
   One transmission: a repetition counts down and reports status 0; the last returns the credit and
   reports status 1.
   */
  lemma TransmissionTold(s: Session)
    ensures var a := Advance(s);
            var tx := (s.txCount + 1) % 256;
            if s.repetitionsLeft > 0 then
              && a.session == s.(txCount := tx, repetitionsLeft := s.repetitionsLeft - 1)
              && |a.notes| == 1 && IsTransfer(a.notes[0], s.id, s.transferSequence, 0, tx)
            else
              && a.session == s.(txCount := tx, transferring := false)
              && |a.notes| == 2 && IsCredit(a.notes[0], s.id) && IsTransfer(a.notes[1], s.id, s.transferSequence, 1, tx)
  {
    hide IsTransfer, IsCredit, TransferNtf, CreditNtf;
    var tx: byte := (s.txCount + 1) % 256;
    TransferNoteIs(s.id, s.transferSequence, 0, tx);
    TransferNoteIs(s.id, s.transferSequence, 1, tx);
    CreditNoteIs(s.id);
  }

  // ----- the message -----

  function Sequence(req: Packet): nat
    requires |req.payload| >= 16
  {
    (req.payload[12] as nat) + 256 * (req.payload[13] as nat)
  }

  function Length(req: Packet): nat
    requires |req.payload| >= 16
  {
    (req.payload[14] as nat) + 256 * (req.payload[15] as nat)
  }

  lemma FieldsIs(req: Packet)
    requires |req.payload| >= 16
    ensures U16(req.payload[12..14]) == Sequence(req) && U16(req.payload[14..16]) == Length(req)
  {
  }

  /** Nothing happens and nothing is said, except that an older notification may leave. */
  predicate Ignored(setup: Setup, d: Device, h: Handled) {
    && h.result.response == None && !h.ok && h.dev == d.(pending := h.dev.pending)
    && HandsOut(setup, d.pending, h.dev.pending, h.result.notification, None)
  }

  /** A rebuff goes straight into the result, in every scenario; nothing changes. */
  predicate RebuffedWith(d: Device, h: Handled, id: nat, sequence: nat, status: nat, txCount: nat) {
    && h.result.response == None && !h.ok && h.dev == d
    && h.result.notification.Some? && IsTransfer(h.result.notification.value, id, sequence, status, txCount)
  }

  /** Two notifications join the pending queue as far as it has room, and the oldest may leave as always. */
  predicate PostsBoth(setup: Setup, before: seq<Packet>, h: Handled, first: Packet, second: Packet) {
    var all := (before + [first, second])[..Min(|before| + 2, 8)];
    && h.result.response == None && h.ok == (|before| <= 6)
    && if setup.scenario.DelayedNotifications? && before == [] then
        h.result.notification == None && h.dev.pending == all
       else h.result.notification == Some(all[0]) && h.dev.pending == all[1..]
  }

  lemma NoNote(setup: Setup, d: Device, req: Packet, other: Reply)
    requires req.mt == 0
    requires var k := Decide(setup.profile, d, req, other); k.notes == [] && k.response == None && !k.move.Reset?
    ensures var k, h := Decide(setup.profile, d, req, other), Handle(setup, d, req, other);
            && h.result.response == None && h.ok == k.ok
            && h.dev == Apply(setup, d, k.move).(pending := h.dev.pending)
            && HandsOut(setup, d.pending, h.dev.pending, h.result.notification, None)
  {
    hide Decide, Handle, HandsOut;
    OneNote(setup, d, req, other, None);
  }

  lemma OneDirect(setup: Setup, d: Device, req: Packet, other: Reply, note: Packet)
    requires req.mt == 0 && Decide(setup.profile, d, req, other) == Decision(Stay, None, [Direct(note)], false)
    ensures Handle(setup, d, req, other) == Handled(d, Result(None, Some(note)), false)
  {
    hide Decide;
    var one := [Direct(note)];
    assert one[1..] == [] && one + [] == one;
    var defers, m := setup.scenario.DelayedNotifications?, Mail(None, d.pending, true);
    assert HandAll(defers, m, one) == HandAll(defers, Hand(defers, m, one[0]), []);
  }

  lemma TwoPosts(setup: Setup, d: Device, req: Packet, other: Reply, first: Packet, second: Packet)
    requires req.mt == 0 && |d.pending| <= 8
    requires var k := Decide(setup.profile, d, req, other);
             k.response == None && k.notes == [Post(first), Post(second)] && k.ok && !k.move.Reset?
    ensures var h := Handle(setup, d, req, other);
            && PostsBoth(setup, d.pending, h, first, second)
            && h.dev == Apply(setup, d, Decide(setup.profile, d, req, other).move).(pending := h.dev.pending)
  {
    hide Decide, Apply;
    ApplyKeepsPending(setup, d, Decide(setup.profile, d, req, other).move);
    var two := [Post(first), Post(second)];
    assert two[1..] == [Post(second)] && two[1..][1..] == [] && two + [] == two;
    var m := Mail(None, d.pending, true);
    TwoHanded(setup.scenario.DelayedNotifications?, m, first, second);
  }

  lemma TwoHanded(defers: bool, m: Mail, first: Packet, second: Packet)
    requires |m.pending| <= 8 && m.ok
    ensures var all := (m.pending + [first, second])[..Min(|m.pending| + 2, 8)];
            HandAll(defers, m, [Post(first), Post(second)]) == Mail(m.direct, all, |m.pending| <= 6)
  {
    var two := [Post(first), Post(second)];
    var m1 := Hand(defers, m, two[0]);
    assert two[1..] == [Post(second)] && two[1..][1..] == [];
    assert HandAll(defers, m1, [Post(second)]) == HandAll(defers, Hand(defers, m1, Post(second)), []);
  }

  /** The session after a message was remembered. */
  function Remembered(s: Session, req: Packet): Session
    requires |req.payload| >= 16
  {
    s.(hasLastMessage := true, lastSequence := Sequence(req), lastLength := Length(req))
  }

  /**
   A transfer of the configured repetitions begins with one event an interval away; without room for
   it it does not.
   */
  predicate TransferBegun(setup: Setup, d: Device, h: Handled, i: nat, req: Packet)
    requires i < |d.sessions| && |req.payload| >= 16
  {
    var s := Remembered(d.sessions[i], req);
    var fits := |d.events| < 8;
    && h.ok == fits
    && h.dev == d.(sessions := d.sessions[i := s.(transferring := fits,
                                                  repetitionsLeft := if fits then ByteOr(s.configs, 0x19, 0) else 0,
                                                  txCount := 0, transferSequence := Sequence(req))],
                   events := h.dev.events, pending := h.dev.pending)
    && Scheduled(h.dev.events) == Scheduled(d.events) + if fits then
        [(DataTransfer, s.id, IntervalNow(setup.profile, s.configs))] else []
  }

  lemma MalformedIgnored(setup: Setup, d: Device, req: Packet, other: Reply)
    requires req.mt == 0 && (req.gid != 1 || req.oid != 0 || |req.payload| < 16)
    ensures Ignored(setup, d, Handle(setup, d, req, other))
  {
    hide Handle, HandsOut;
    NoNote(setup, d, req, other);
  }

  lemma DataRebuffed(setup: Setup, d: Device, req: Packet, other: Reply)
    requires req.mt == 0 && req.gid == 1 && req.oid == 0 && |req.payload| >= 16
    ensures var h, i, id, sequence := Handle(setup, d, req, other), NamedSlot(d, req), NamedId(req), Sequence(req);
            && (16 + Length(req) > |req.payload| ==> RebuffedWith(d, h, id, sequence, 7, 0))
            && (16 + Length(req) <= |req.payload| ==>
                  && (i == |d.sessions| || d.sessions[i].state != 2 ==> RebuffedWith(d, h, id, sequence, 4, 0))
                  && (i < |d.sessions| && d.sessions[i].state == 2 && d.sessions[i].transferring ==>
                        RebuffedWith(d, h, id, sequence, 6, d.sessions[i].txCount)))
  {
    hide Handle, IsTransfer, TransferNtf, DecideNewMessage, U32, U16, NamedId, Sequence, Length;
    NamedIs(req);
    FieldsIs(req);
    var i, id, sequence := NamedSlot(d, req), NamedId(req), U16(req.payload[12..14]);
    var tx: byte := if i < |d.sessions| && d.sessions[i].transferring then d.sessions[i].txCount else 0;
    TransferNoteIs(id, sequence, 7, 0);
    TransferNoteIs(id, sequence, 4, 0);
    TransferNoteIs(id, sequence, 6, tx);
    if 16 + Length(req) > |req.payload| {
      OneDirect(setup, d, req, other, TransferNtf(id, sequence, 7, 0));
    } else if i == |d.sessions| || d.sessions[i].state != 2 {
      OneDirect(setup, d, req, other, TransferNtf(id, sequence, 4, 0));
    } else if d.sessions[i].transferring {
      OneDirect(setup, d, req, other, TransferNtf(id, sequence, 6, tx));
    }
  }

  /** The message reaches an ACTIVE session that has no transfer in progress. */
  predicate Reaches(d: Device, req: Packet) {
    && req.mt == 0 && req.gid == 1 && req.oid == 0 && |req.payload| >= 16 && 16 + Length(req) <= |req.payload|
    && NamedSlot(d, req) < |d.sessions| && d.sessions[NamedSlot(d, req)].state == 2
    && !d.sessions[NamedSlot(d, req)].transferring
  }

  predicate RepeatsLast(s: Session, req: Packet)
    requires |req.payload| >= 16
  {
    s.hasLastMessage && s.lastSequence == Sequence(req) && s.lastLength == Length(req)
  }

  lemma RepeatAcknowledged(setup: Setup, d: Device, req: Packet, other: Reply) returns (credit: Packet, status: Packet)
    requires Reaches(d, req) && RepeatsLast(d.sessions[NamedSlot(d, req)], req) && |d.pending| <= 8
    ensures var h := Handle(setup, d, req, other);
            && IsCredit(credit, NamedId(req)) && IsTransfer(status, NamedId(req), Sequence(req), 0, 1)
            && PostsBoth(setup, d.pending, h, credit, status) && h.dev == d.(pending := h.dev.pending)
  {
    hide Handle, IsTransfer, IsCredit, TransferNtf, CreditNtf, DecideNewMessage, PostsBoth, U32, U16, NamedId, Sequence,
        Length;
    NamedIs(req);
    FieldsIs(req);
    var id, sequence := NamedId(req), U16(req.payload[12..14]);
    CreditNoteIs(id);
    TransferNoteIs(id, sequence, 0, 1);
    credit, status := CreditNtf(id), TransferNtf(id, sequence, 0, 1);
    TwoPosts(setup, d, req, other, credit, status);
  }

  lemma RepetitionsAre(s: Session)
    ensures Repetitions(s) == ByteOr(s.configs, 0x19, 0)
  {
  }

  lemma MessageAcknowledged(setup: Setup, d: Device, req: Packet, other: Reply) returns (credit: Packet, status: Packet)
    requires Reaches(d, req) && !RepeatsLast(d.sessions[NamedSlot(d, req)], req) && |d.pending| <= 8
    requires ByteOr(d.sessions[NamedSlot(d, req)].configs, 0x19, 0) == 0
    ensures var h, i := Handle(setup, d, req, other), NamedSlot(d, req);
            && IsCredit(credit, NamedId(req)) && IsTransfer(status, NamedId(req), Sequence(req), 1, 1)
            && PostsBoth(setup, d.pending, h, credit, status)
            && h.dev == d.(sessions := d.sessions[i := Remembered(d.sessions[i], req)], pending := h.dev.pending)
  {
    hide Handle, IsTransfer, IsCredit, TransferNtf, CreditNtf, PostsBoth, U32, U16, NamedId, Sequence, Length,
        Repetitions, IntervalOf;
    NamedIs(req);
    FieldsIs(req);
    RepetitionsAre(d.sessions[NamedSlot(d, req)]);
    var id, sequence := NamedId(req), U16(req.payload[12..14]);
    CreditNoteIs(id);
    TransferNoteIs(id, sequence, 1, 1);
    credit, status := CreditNtf(id), TransferNtf(id, sequence, 1, 1);
    TwoPosts(setup, d, req, other, credit, status);
  }

  lemma MessageBegins(setup: Setup, d: Device, req: Packet, other: Reply)
    requires Reaches(d, req) && !RepeatsLast(d.sessions[NamedSlot(d, req)], req)
    requires ByteOr(d.sessions[NamedSlot(d, req)].configs, 0x19, 0) > 0
    ensures var h := Handle(setup, d, req, other);
            && HandsOut(setup, d.pending, h.dev.pending, h.result.notification, None) && h.result.response == None
            && TransferBegun(setup, d, h, NamedSlot(d, req), req)
  {
    hide Handle, HandsOut, U32, U16, NamedId, Sequence, Length, Repetitions, IntervalOf, IntervalNow;
    NamedIs(req);
    FieldsIs(req);
    var i := NamedSlot(d, req);
    RepetitionsAre(d.sessions[i]);
    IntervalIs(setup.profile, d.sessions[i]);
    NoNote(setup, d, req, other);
  }

  /**
   Every data message: a malformed one is ignored; one whose length overruns it, one for no ACTIVE session, and one
   during a transfer are rebuffed; a repeat of the last message is acknowledged and changes nothing; a new one without
   repetitions is remembered and acknowledged at once.
   */
  lemma DataAnswer(setup: Setup, d: Device, req: Packet, other: Reply) returns (credit: Packet, status: Packet)
    requires req.mt == 0 && |d.pending| <= 8
    ensures var h := Handle(setup, d, req, other);
            if req.gid != 1 || req.oid != 0 || |req.payload| < 16 then Ignored(setup, d, h)
            else
              var i, id, sequence := NamedSlot(d, req), NamedId(req), Sequence(req);
              if 16 + Length(req) > |req.payload| then RebuffedWith(d, h, id, sequence, 7, 0)
              else if i == |d.sessions| || d.sessions[i].state != 2 then RebuffedWith(d, h, id, sequence, 4, 0)
              else
                var s := d.sessions[i];
                if s.transferring then RebuffedWith(d, h, id, sequence, 6, s.txCount)
                else if s.hasLastMessage && s.lastSequence == sequence && s.lastLength == Length(req) then
                  && IsCredit(credit, id) && IsTransfer(status, id, sequence, 0, 1)
                  && PostsBoth(setup, d.pending, h, credit, status) && h.dev == d.(pending := h.dev.pending)
                else if ByteOr(s.configs, 0x19, 0) == 0 then
                  && IsCredit(credit, id) && IsTransfer(status, id, sequence, 1, 1)
                  && PostsBoth(setup, d.pending, h, credit, status)
                  && h.dev == d.(sessions := d.sessions[i := Remembered(s, req)], pending := h.dev.pending)
                else
                  && HandsOut(setup, d.pending, h.dev.pending, h.result.notification, None) && h.result.response == None
                  && TransferBegun(setup, d, h, i, req)
  {
    hide Handle, Decide, IsTransfer, IsCredit, PostsBoth, HandsOut, TransferBegun, NamedId, Sequence, Length;
    credit, status := CreditNtf(0), CreditNtf(0);
    if req.gid != 1 || req.oid != 0 || |req.payload| < 16 {
      MalformedIgnored(setup, d, req, other);
    } else {
      var i, id := NamedSlot(d, req), NamedId(req);
      DataRebuffed(setup, d, req, other);
      if 16 + Length(req) <= |req.payload| && i < |d.sessions| && d.sessions[i].state == 2
          && !d.sessions[i].transferring {
        var s := d.sessions[i];
        if s.hasLastMessage && s.lastSequence == Sequence(req) && s.lastLength == Length(req) {
          credit, status := RepeatAcknowledged(setup, d, req, other);
        } else if ByteOr(s.configs, 0x19, 0) == 0 {
          credit, status := MessageAcknowledged(setup, d, req, other);
        } else {
          MessageBegins(setup, d, req, other);
        }
      }
    }
  }
}
