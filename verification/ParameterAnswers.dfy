/** What a host is answered when it sets or reads parameters, of a session or of the device. */
module ParameterAnswers {
  import opened Types
  import opened PacketCodec
  import opened Profiles
  import opened ConfigTables
  import opened EventQueues
  import opened PacketQueues
  import opened Validation
  import opened Sessions
  import opened Devices
  import opened Handlers
  import opened Engines
  import opened Acceptance
  import opened Reports
  import opened Answers
  import opened ControlAnswers

  // ----- parameter lists in a payload -----

  /** Bytes that a list of parameters takes: two for each, and its value. */
  function Size(tlvs: seq<Tlv>): nat {
    if tlvs == [] then 0 else 2 + |tlvs[0].value| + Size(tlvs[1..])
  }

  /** The parameter that a payload holds at an offset: id, length, value. */
  predicate HoldsTlv(payload: seq<byte>, at: nat, t: Tlv) {
    && at + 2 + |t.value| <= |payload| && payload[at] == t.id && payload[at + 1] == |t.value|
    && payload[at + 2..at + 2 + |t.value|] == t.value
  }

  /** The parameters of a list lie one behind the other from an offset on. */
  ghost predicate LieFrom(payload: seq<byte>, offset: nat, tlvs: seq<Tlv>) {
    forall j :: 0 <= j < |tlvs| ==> HoldsTlv(payload, offset + Size(tlvs[..j]), tlvs[j])
  }

  lemma LieCons(payload: seq<byte>, offset: nat, t: Tlv, rest: seq<Tlv>)
    requires HoldsTlv(payload, offset, t) && LieFrom(payload, offset + 2 + |t.value|, rest)
    ensures LieFrom(payload, offset, [t] + rest) && Size([t] + rest) == 2 + |t.value| + Size(rest)
  {
    hide HoldsTlv;
    var tlvs := [t] + rest;
    assert tlvs[1..] == rest;
    forall j | 0 <= j < |tlvs| ensures HoldsTlv(payload, offset + Size(tlvs[..j]), tlvs[j]) {
      if j > 0 { assert tlvs[..j][1..] == rest[..j - 1]; }
    }
  }

  /**
   Each parameter read lies right behind the one before; reading ends after the count, at the end, or
   at an overrun.
   */
  lemma {:induction false} DecodeReads(payload: seq<byte>, offset: nat, count: nat)
    ensures var r := DecodeTlvs(payload, offset, count);
            var end := offset + Size(r.tlvs);
            && LieFrom(payload, offset, r.tlvs)
            && (r.overrun ==> |r.tlvs| < count && end + 2 <= |payload| < end + 2 + payload[end + 1])
            && (!r.overrun && |r.tlvs| < count ==> end + 2 > |payload|)
    decreases count
  {
    hide LieFrom;
    if count == 0 || offset + 2 > |payload| || offset + 2 + payload[offset + 1] > |payload| {
      LieNone(payload, offset);
    } else {
      var next := offset + 2 + payload[offset + 1];
      DecodeReads(payload, next, count - 1);
      LieCons(payload, offset, Tlv(payload[offset], payload[offset + 2..next]),
              DecodeTlvs(payload, next, count - 1).tlvs);
    }
  }

  lemma LieNone(payload: seq<byte>, offset: nat)
    ensures LieFrom(payload, offset, [])
  {
  }

  // ----- setting one parameter -----

  predicate ForgetsSide(id: byte) {
    id == 0x0E || id == 0x0F || id == 0x10
  }

  /** A session with one parameter stored; a notification parameter forgets the remembered side. */
  function WithParameter(s: Session, t: Tlv): Session {
    s.(configs := s.configs[t.id := t.value],
       hasProximity := s.hasProximity && !ForgetsSide(t.id), inProximity := s.inProximity && !ForgetsSide(t.id))
  }

  predicate IsStreaming(s: Session) {
    s.state == 2 && s.streamRemaining > 0
  }

  /**
   One parameter in the default profile: refused with the status above and without effect, or stored. An interval set
   on a running stream replaces the session's range event by one that far away, unless eight others fill the queue.
   */
  lemma ParameterSet(s: Session, q: seq<Event>, t: Tlv)
    ensures var c, p := ApplyTlv(DefaultProfile(), s, q, t), DefaultProfile();
            var refusal, s' := DefaultRefusal(s.configs, t), WithParameter(s, t);
            var others := Without(q, Some(EventKind.RangeData), s.id);
            if refusal.Some? then c == Configured(s, q, refusal)
            else if !(t.id == 0x09 && IsStreaming(s)) then c == Configured(s', q, None)
            else if |others| >= 8 then c == Configured(s', others, Some(1))
            else
              && c.session == s' && c.stop == None
              && Scheduled(c.events) == Scheduled(others) + [(RangeData, s.id, IntervalNow(p, s'.configs))]
  {
    hide DefaultProfile, DefaultRefusal, Refusal, IntervalOf, IntervalNow;
    DefaultRefusalIs(s.configs, t);
    IntervalIs(DefaultProfile(), WithParameter(s, t));
    SideForgotten(s, t);
  }

  lemma SideForgotten(s: Session, t: Tlv)
    ensures ForgetProximity(s.(configs := s.configs[t.id := t.value]), t.id) == WithParameter(s, t)
  {
  }

  // ----- SET on a session -----

  /** The session after some parameters were stored. */
  function WithParameters(s: Session, tlvs: seq<Tlv>): Session {
    if tlvs == [] then s else WithParameter(WithParameters(s, tlvs[..|tlvs| - 1]), tlvs[|tlvs| - 1])
  }

  lemma {:induction false} WithParametersCons(s: Session, t: Tlv, rest: seq<Tlv>)
    ensures WithParameters(s, [t] + rest) == WithParameters(WithParameter(s, t), rest)
    decreases |rest|
  {
    if rest == [] {
      assert [t] + rest == [t] && [t][..0] == [];
      assert WithParameters(s, []) == s;
    } else {
      WithParametersCons(s, t, rest[..|rest| - 1]);
      assert ([t] + rest)[..|rest|] == [t] + rest[..|rest| - 1];
    }
  }

  /**
   The first k parameters are accepted, each over the table as it then stands, and the next one, if
   any, is refused.
   */
  ghost predicate AcceptedPrefix(s: Session, tlvs: seq<Tlv>, k: nat) {
    && k <= |tlvs| && (forall j :: 0 <= j < k ==> DefaultRefusal(WithParameters(s, tlvs[..j]).configs, tlvs[j]) == None)
    && (k < |tlvs| ==> DefaultRefusal(WithParameters(s, tlvs[..k]).configs, tlvs[k]).Some?)
  }

  lemma AcceptedCons(s: Session, t: Tlv, rest: seq<Tlv>, k: nat)
    requires DefaultRefusal(s.configs, t) == None && AcceptedPrefix(WithParameter(s, t), rest, k)
    ensures AcceptedPrefix(s, [t] + rest, k + 1)
    ensures WithParameters(s, ([t] + rest)[..k + 1]) == WithParameters(WithParameter(s, t), rest[..k])
  {
    hide DefaultRefusal, WithParameter;
    var tlvs := [t] + rest;
    forall j | 0 < j <= k + 1
      ensures WithParameters(s, tlvs[..j]) == WithParameters(WithParameter(s, t), rest[..j - 1])
    {
      assert tlvs[..j] == [t] + rest[..j - 1];
      WithParametersCons(s, t, rest[..j - 1]);
    }
    assert tlvs[..0] == [] && WithParameters(s, []) == s;
    forall j | 0 <= j < k + 1 ensures DefaultRefusal(WithParameters(s, tlvs[..j]).configs, tlvs[j]) == None {
      if j > 0 { assert tlvs[j] == rest[j - 1]; }
    }
  }

  /** The session keeps its place in the stream over a stored parameter. */
  lemma {:induction false} ParametersSet(s: Session, q: seq<Event>, tlvs: seq<Tlv>) returns (k: nat)
    requires !IsStreaming(s)
    ensures AcceptedPrefix(s, tlvs, k)
    ensures ApplyTlvs(DefaultProfile(), s, q, tlvs) ==
              Configured(WithParameters(s, tlvs[..k]), q,
                         if k == |tlvs| then None else DefaultRefusal(WithParameters(s, tlvs[..k]).configs, tlvs[k]))
    decreases |tlvs|
  {
    hide DefaultProfile, DefaultRefusal, ApplyTlv, AcceptedPrefix, WithParameters, WithParameter, IsStreaming;
    k := 0;
    AcceptedNone(s, tlvs);
    if tlvs != [] {
      QuietSet(s, q, tlvs[0]);
      if DefaultRefusal(s.configs, tlvs[0]).None? {
        var s' := WithParameter(s, tlvs[0]);
        var k' := ParametersSet(s', q, tlvs[1..]);
        AcceptedCons(s, tlvs[0], tlvs[1..], k');
        assert tlvs == [tlvs[0]] + tlvs[1..];
        k := k' + 1;
      }
    }
  }

  lemma AcceptedNone(s: Session, tlvs: seq<Tlv>)
    ensures WithParameters(s, tlvs[..0]) == s
    ensures tlvs == [] || DefaultRefusal(s.configs, tlvs[0]).Some? ==> AcceptedPrefix(s, tlvs, 0)
  {
    hide DefaultRefusal;
    assert tlvs[..0] == [];
  }

  lemma QuietSet(s: Session, q: seq<Event>, t: Tlv)
    requires !IsStreaming(s)
    ensures var refusal := DefaultRefusal(s.configs, t);
            ApplyTlv(DefaultProfile(), s, q, t) ==
              if refusal.Some? then Configured(s, q, refusal) else Configured(WithParameter(s, t), q, None)
    ensures !IsStreaming(WithParameter(s, t))
  {
    hide DefaultProfile, DefaultRefusal, ApplyTlv, Without, Scheduled, IntervalNow;
    ParameterSet(s, q, t);
  }

  /** The answer to a SET: the status and no further parameters; anything but OK also brings a generic error. */
  predicate SetAnswered(setup: Setup, d: Device, h: Handled, status: byte) {
    var error := if status == 0 then None else Some(Packet(3, 0, 0, 7, [status]));
    AnsweredWith(setup, d, h, Packet(2, 0, 1, 3, [status, 0]), error) && h.ok == (status == 0)
  }

  lemma Setting(setup: Setup, d: Device, req: Packet, other: Reply, status: byte)
    requires req.mt == 1
    requires var k := Decide(setup.profile, d, req, other);
             k == Decision(k.move, Some(Packet(2, 0, 1, 3, [status, 0])), [], status == 0) && !k.move.Reset?
    ensures SetAnswered(setup, d, Handle(setup, d, req, other), status)
    ensures var h := Handle(setup, d, req, other);
            h.dev == Apply(setup, d, Decide(setup.profile, d, req, other).move).(pending := h.dev.pending)
  {
    hide Decide, HandsOut, Handle, Apply;
    OneNote(setup, d, req, other, if status == 0 then None else Some(Packet(3, 0, 0, 7, [status])));
  }

  /**
   SET on a session of the default profile that is not streaming: exactly the parameters before the first refused one
   are stored; its status, 4 for a list that overruns the payload, or OK is the answer. Nothing else changes.
   */
  lemma SetAnswer(setup: Setup, d: Device, req: Packet, other: Reply) returns (k: nat)
    requires setup.profile == DefaultProfile() && IsCommand(req, 1, 3)
    ensures var h := Handle(setup, d, req, other);
            if |req.payload| < 5 then RefusedWith(setup, d, req, h, [6])
            else
              var i := NamedSlot(d, req);
              if i == |d.sessions| then RefusedWith(setup, d, req, h, [4])
              else if IsStreaming(d.sessions[i]) then true
              else
                var s, list := d.sessions[i], DecodeTlvs(req.payload, 5, req.payload[4]);
                && AcceptedPrefix(s, list.tlvs, k)
                && h.dev == d.(sessions := d.sessions[i := WithParameters(s, list.tlvs[..k])], pending := h.dev.pending)
                && SetAnswered(setup, d, h,
                               if k < |list.tlvs| then DefaultRefusal(WithParameters(s, list.tlvs[..k]).configs,
                                                                      list.tlvs[k]).value
                               else if list.overrun then 4 else 0)
  {
    hide RefusedWith, SetAnswered, Handle, U32, DefaultProfile, DefaultRefusal, DecodeTlvs, ApplyTlvs, AcceptedPrefix,
      WithParameters;
    k := 0;
    DefaultCommandIs(1, 3);
    if |req.payload| < 5 {
      Refusing(setup, d, req, other, [6]);
    } else {
      NamedIs(req);
      var i := NamedSlot(d, req);
      if i == |d.sessions| {
        Refusing(setup, d, req, other, [4]);
      } else if !IsStreaming(d.sessions[i]) {
        var s, list := d.sessions[i], DecodeTlvs(req.payload, 5, req.payload[4]);
        k := ParametersSet(s, d.events, list.tlvs);
        RefusalNotZero(s, list.tlvs, k);
        Setting(setup, d, req, other, SetStatus(ApplyTlvs(setup.profile, s, d.events, list.tlvs), list.overrun));
      }
    }
  }

  lemma RefusalNotZero(s: Session, tlvs: seq<Tlv>, k: nat)
    requires AcceptedPrefix(s, tlvs, k)
    ensures k <= |tlvs| && (k < |tlvs| ==> DefaultRefusal(WithParameters(s, tlvs[..k]).configs, tlvs[k]).Some?)
    ensures k < |tlvs| ==> DefaultRefusal(WithParameters(s, tlvs[..k]).configs, tlvs[k]).value != 0
  {
    hide DefaultFits, WithParameters;
  }

  /** One parameter set on a running stream: as above, and a new interval moves its next measurement. */
  lemma SetStreamingAnswer(setup: Setup, d: Device, req: Packet, other: Reply, t: Tlv)
    requires setup.profile == DefaultProfile() && IsCommand(req, 1, 3) && |req.payload| >= 5
    requires NamedSlot(d, req) < |d.sessions| && IsStreaming(d.sessions[NamedSlot(d, req)])
    requires DecodeTlvs(req.payload, 5, req.payload[4]) == TlvList([t], false)
    ensures var h, i := Handle(setup, d, req, other), NamedSlot(d, req);
            var s := d.sessions[i];
            var refusal, s', others := DefaultRefusal(s.configs, t), WithParameter(s, t),
                Without(d.events, Some(RangeData), s.id);
            if refusal.Some? then SetAnswered(setup, d, h, refusal.value) && h.dev == d.(pending := h.dev.pending)
            else
              && h.dev == d.(sessions := d.sessions[i := s'], events := h.dev.events, pending := h.dev.pending)
              && if t.id != 0x09 then h.dev.events == d.events && SetAnswered(setup, d, h, 0)
                 else if |others| >= 8 then h.dev.events == others && SetAnswered(setup, d, h, 1)
                 else
                   && SetAnswered(setup, d, h, 0)
                   && Scheduled(h.dev.events) == Scheduled(others) +
                       [(RangeData, s.id, IntervalNow(setup.profile, s'.configs))]
  {
    hide SetAnswered, Handle, U32, DefaultProfile, DefaultRefusal, DecodeTlvs, ApplyTlv, WithParameter, IntervalNow,
        Without;
    DefaultCommandIs(1, 3);
    NamedIs(req);
    var s := d.sessions[NamedSlot(d, req)];
    ParameterSet(s, d.events, t);
    OneApplied(setup.profile, s, d.events, t);
    RefusalCode(s.configs, t);
    Setting(setup, d, req, other, SetStatus(ApplyTlv(setup.profile, s, d.events, t), false));
  }

  lemma RefusalCode(m: Table, t: Tlv)
    ensures DefaultRefusal(m, t).Some? ==> DefaultRefusal(m, t).value != 0
  {
    hide DefaultFits;
  }

  lemma OneApplied(p: Profile, s: Session, q: seq<Event>, t: Tlv)
    ensures ApplyTlvs(p, s, q, [t]) == ApplyTlv(p, s, q, t)
  {
    hide ApplyTlv;
    assert [t][1..] == [];
    var c := ApplyTlv(p, s, q, t);
    assert ApplyTlvs(p, c.session, c.events, []) == Configured(c.session, c.events, None);
  }

  // ----- GET -----

  /** The parameters a list of ids names, as many as a response takes: up to the first that it does not. */
  ghost predicate Answerable(m: Table, supported: seq<byte>, ids: seq<byte>, tlvs: seq<Tlv>) {
    && |tlvs| <= |ids| && Size(tlvs) <= 1022
    && (forall j :: 0 <= j < |tlvs| ==> ids[j] in supported && ids[j] in m && tlvs[j] == Tlv(ids[j], m[ids[j]]))
    && (|tlvs| < |ids| ==>
          var id := ids[|tlvs|]; id !in supported || id !in m || Size(tlvs) + 2 + |m[id]| > 1022)
  }

  lemma SizeCons(t: Tlv, rest: seq<Tlv>)
    ensures Size([t] + rest) == 2 + |t.value| + Size(rest)
  {
    assert ([t] + rest)[1..] == rest;
  }

  lemma {:induction false} CollectIs(m: Table, supported: seq<byte>, ids: seq<byte>, used: nat)
    requires used <= 1024
    ensures var c := Collect(m, supported, ids, used);
            && |c.tlvs| <= |ids| && used + Size(c.tlvs) <= 1024 && (c.failed <==> |c.tlvs| < |ids|)
            && (forall j :: 0 <= j < |c.tlvs| ==>
                ids[j] in supported && ids[j] in m && c.tlvs[j] == Tlv(ids[j], m[ids[j]]))
            && (|c.tlvs| < |ids| ==>
                  var id := ids[|c.tlvs|]; id !in supported || id !in m || used + Size(c.tlvs) + 2 + |m[id]| > 1024)
    decreases |ids|
  {
    if ids != [] && ids[0] in supported && ids[0] in m && used + 2 + |m[ids[0]]| <= 1024 {
      CollectIs(m, supported, ids[1..], used + 2 + |m[ids[0]]|);
      SizeCons(Tlv(ids[0], m[ids[0]]), Collect(m, supported, ids[1..], used + 2 + |m[ids[0]]|).tlvs);
    }
  }

  /** The ids of a list that are stored, in order. */
  function StoredIds(m: Table, ids: seq<byte>): seq<byte> {
    if ids == [] then []
    else StoredIds(m, ids[..|ids| - 1]) + if ids[|ids| - 1] in m then [ids[|ids| - 1]] else []
  }

  lemma {:induction false} StoredIdsCons(m: Table, id: byte, rest: seq<byte>)
    ensures StoredIds(m, [id] + rest) == (if id in m then [id] else []) + StoredIds(m, rest)
    decreases |rest|
  {
    if rest == [] {
      assert [id] + rest == [id] && [id][..0] == [];
    } else {
      StoredIdsCons(m, id, rest[..|rest| - 1]);
      assert ([id] + rest)[..|rest|] == [id] + rest[..|rest| - 1];
    }
  }

  lemma {:induction false} CollectStoredIs(m: Table, ids: seq<byte>, used: nat)
    ensures CollectStored(m, ids, used) == Collect(m, StoredIds(m, ids), StoredIds(m, ids), used)
    decreases |ids|
  {
    if ids != [] {
      assert ids == [ids[0]] + ids[1..];
      StoredIdsCons(m, ids[0], ids[1..]);
      if ids[0] in m {
        var next := used + 2 + |m[ids[0]]|;
        CollectStoredIs(m, ids[1..], next);
        var all, rest := StoredIds(m, ids), StoredIds(m, ids[1..]);
        assert all[1..] == rest;
        SupportedMore(m, rest, all, rest, next);
      } else {
        CollectStoredIs(m, ids[1..], used);
        assert StoredIds(m, ids) == StoredIds(m, ids[1..]);
      }
    }
  }

  lemma {:induction false} SupportedMore(m: Table, a: seq<byte>, b: seq<byte>, ids: seq<byte>, used: nat)
    requires (forall x :: x in ids ==> x in a) && (forall x :: x in ids ==> x in b)
    ensures Collect(m, a, ids, used) == Collect(m, b, ids, used)
    decreases |ids|
  {
    if ids != [] && ids[0] in m { SupportedMore(m, a, b, ids[1..], used + 2 + |m[ids[0]]|); }
  }

  /** The ids a GET names: as many of the bytes after its count as the count says and the payload holds. */
  function NamedIds(payload: seq<byte>, at: nat): seq<byte>
    requires at < |payload|
  {
    if at + 1 + payload[at] <= |payload| then payload[at + 1..at + 1 + payload[at]] else payload[at + 1..]
  }

  /**
   The answer to a GET: status, the number of parameters, the parameters; anything but OK also brings
   a generic error.
   */
  predicate GetAnswered(setup: Setup, d: Device, req: Packet, h: Handled, ok: bool, tlvs: seq<Tlv>) {
    var payload := [if ok then 0 else 4, |tlvs| % 256] + EncodeTlvs(tlvs);
    && AnsweredWith(setup, d, h, Packet(2, 0, req.gid, req.oid, payload), if ok then None
                    else Some(Packet(3, 0, 0, 7, [4])))
    && h.ok == ok && h.dev == d.(pending := h.dev.pending)
  }

  lemma Getting(setup: Setup, d: Device, req: Packet, other: Reply, ok: bool, tlvs: seq<Tlv>)
    requires req.mt == 1
    requires Decide(setup.profile, d, req, other) ==
             Decision(Stay, Some(Packet(2, 0, req.gid, req.oid,
                                        [if ok then 0 else 4, |tlvs| % 256] + EncodeTlvs(tlvs))), [], ok)
    ensures GetAnswered(setup, d, req, Handle(setup, d, req, other), ok, tlvs)
  {
    hide Decide, HandsOut, Handle, EncodeTlvs;
    OneNote(setup, d, req, other, if ok then None else Some(Packet(3, 0, 0, 7, [4])));
  }

  /** An encoded list lies in a response as it lies in a request. */
  lemma {:induction false} EncodedLies(front: seq<byte>, tlvs: seq<Tlv>)
    requires forall j :: 0 <= j < |tlvs| ==> |tlvs[j].value| < 256
    ensures LieFrom(front + EncodeTlvs(tlvs), |front|, tlvs) && |EncodeTlvs(tlvs)| == Size(tlvs)
    decreases |tlvs|
  {
    hide HoldsTlv, LieFrom, EncodeTlv;
    if tlvs == [] {
      LieNone(front + EncodeTlvs(tlvs), |front|);
    } else {
      var t, rest := tlvs[0], tlvs[1..];
      var first, last := EncodeTlv(t), EncodeTlvs(rest);
      EncodedSize(t);
      EncodedLies(front + first, rest);
      assert front + (first + last) == front + first + last;
      OneLies(front, t, last);
      LieCons(front + EncodeTlvs(tlvs), |front|, t, rest);
      assert tlvs == [t] + rest;
    }
  }

  lemma EncodedSize(t: Tlv)
    ensures |EncodeTlv(t)| == 2 + |t.value|
  {
  }

  lemma OneLies(front: seq<byte>, t: Tlv, back: seq<byte>)
    requires |t.value| < 256
    ensures HoldsTlv(front + EncodeTlv(t) + back, |front|, t)
  {
  }

  /**
   GET of a session's parameters: those named in the request, or every stored one when none is named. It is OK if and
   only if each is supported and stored and all fit the response; otherwise it still lists those before the first that
   is not.
   */
  lemma GetAnswer(setup: Setup, d: Device, req: Packet, other: Reply) returns (tlvs: seq<Tlv>)
    requires IsCommand(req, 1, 4) && 4 in setup.profile.sessionConfigOids
    ensures var h := Handle(setup, d, req, other);
            if |req.payload| < 5 then RefusedWith(setup, d, req, h, [6])
            else
              var i := NamedSlot(d, req);
              if i == |d.sessions| then RefusedWith(setup, d, req, h, [4])
              else
                var m := d.sessions[i].configs;
                var ids := if req.payload[4] == 0 then StoredIds(m, setup.profile.appConfigIds)
                    else NamedIds(req.payload, 4);
                && Answerable(m, if req.payload[4] == 0 then ids else setup.profile.appConfigIds, ids, tlvs)
                && GetAnswered(setup, d, req, h, |tlvs| == |ids|, tlvs)
  {
    hide RefusedWith, GetAnswered, Handle, U32, Collect, CollectStored, EncodeTlvs, StoredIds, Size;
    tlvs := [];
    if |req.payload| < 5 {
      Refusing(setup, d, req, other, [6]);
    } else {
      NamedIs(req);
      var i := NamedSlot(d, req);
      if i == |d.sessions| {
        Refusing(setup, d, req, other, [4]);
      } else {
        var m, supported := d.sessions[i].configs, setup.profile.appConfigIds;
        var ids := if req.payload[4] == 0 then StoredIds(m, supported) else NamedIds(req.payload, 4);
        if req.payload[4] == 0 {
          CollectStoredIs(m, supported, 2);
          CollectIs(m, ids, ids, 2);
          tlvs := Collect(m, ids, ids, 2).tlvs;
        } else {
          assert Requested(req.payload, 5, req.payload[4]) == ids;
          CollectIs(m, supported, ids, 2);
          tlvs := Collect(m, supported, ids, 2).tlvs;
        }
        Getting(setup, d, req, other, |tlvs| == |ids|, tlvs);
      }
    }
  }
}
