/** What a host is answered by the device commands, and how answers are queued for it. */
module CoreAnswers {
  import opened Types
  import opened PacketCodec
  import opened Profiles
  import opened ConfigTables
  import opened PacketQueues
  import opened Validation
  import opened Sessions
  import opened Devices
  import opened Handlers
  import opened Engines
  import opened Configuration
  import opened Answers
  import opened ParameterAnswers

  // ----- reset -----

  /** A device as it is created: no sessions, no events, and three device parameters. */
  predicate NewDevice(d: Device) {
    && d == Device(1, map[0x00 := [1], 0x01 := [0], 0xA2 := [0, 0]], 1, d.sessions, [], d.pending)
    && |d.sessions| == 8 && forall i :: 0 <= i < 8 ==> d.sessions[i] == ZERO_SESSION
  }

  /**
   DEVICE_RESET with the one argument 1: OK, a new device whose only pending packet may be the announcement of its
   state, which leaves at once unless the scenario defers and nothing was pending.
   */
  lemma ResetAnswer(setup: Setup, d: Device, req: Packet, other: Reply)
    requires setup.profile == DefaultProfile() && IsCommand(req, 0, 0)
    ensures var h, note := Handle(setup, d, req, other), Packet(3, 0, 0, 1, [1]);
            if |req.payload| != 1 then RefusedWith(setup, d, req, h, [6])
            else if req.payload[0] != 1 then RefusedWith(setup, d, req, h, [4])
            else
              && h.ok && h.result.response == Some(Packet(2, 0, 0, 0, [0])) && NewDevice(h.dev)
              && if setup.scenario.DelayedNotifications? && d.pending == [] then
                   h.result.notification == None && h.dev.pending == [note]
                 else h.result.notification == Some(note) && h.dev.pending == []
  {
    hide RefusedWith, DecideCoreSet, DecideCoreGet, DefaultLimits, DefaultFaults, DefaultRangeData, DefaultTlvs,
      DefaultAppConfigIds;
    DefaultCommandIs(0, 0);
    if |req.payload| != 1 {
      Refusing(setup, d, req, other, [6]);
    } else if req.payload[0] != 1 {
      Refusing(setup, d, req, other, [4]);
    } else {
      ResetHanded(setup, d, req, other);
    }
  }

  lemma ResetHanded(setup: Setup, d: Device, req: Packet, other: Reply)
    requires setup.profile == DefaultProfile() && IsCommand(req, 0, 0) && req.payload == [1]
    ensures var h, note := Handle(setup, d, req, other), Packet(3, 0, 0, 1, [1]);
            && h.ok && h.result.response == Some(Packet(2, 0, 0, 0, [0]))
            && h.dev == InitialDevice(setup.profile).(pending := h.dev.pending)
            && if setup.scenario.DelayedNotifications? && d.pending == [] then
                 h.result.notification == None && h.dev.pending == [note]
               else h.result.notification == Some(note) && h.dev.pending == []
  {
    hide DecideCoreSet, DecideCoreGet, DefaultLimits, DefaultFaults, DefaultRangeData, DefaultTlvs, DefaultAppConfigIds,
        HandAll;
    DefaultCommandIs(0, 0);
    var note := Packet(3, 0, 0, 1, [1]);
    var one := [Deliver(note)];
    assert one + [] == one;
    OneHanded(setup.scenario.DelayedNotifications?, Mail(None, [], true), Some(note));
  }

  // ----- device parameters -----

  /** The status of one device parameter in the default profile: only 0x01 and 0xA2 can be set. */
  function DefaultCoreStatus(m: Table, t: Tlv): byte {
    if t.id != 0x01 && t.id != 0xA2 then 4
    else if |t.value| > 64 || (t.id !in m && |m| >= 8) then 2
    else 0
  }

  lemma CoreStatusIs(m: Table, t: Tlv)
    ensures CoreStatus(DefaultProfile(), m, t) == DefaultCoreStatus(m, t)
    ensures CoreStep(DefaultProfile(), m, t) == if DefaultCoreStatus(m, t) == 0 then m[t.id := t.value] else m
  {
    hide DefaultLimits, DefaultFaults, DefaultRangeData, DefaultTlvs, DefaultAppConfigIds;
  }

  /** The table after some parameters, each stored if its status over the table as it then stands is OK. */
  function CoreAfter(m: Table, tlvs: seq<Tlv>): Table {
    if tlvs == [] then m
    else
      var before, t := CoreAfter(m, tlvs[..|tlvs| - 1]), tlvs[|tlvs| - 1];
      if DefaultCoreStatus(before, t) == 0 then before[t.id := t.value] else before
  }

  lemma {:induction false} CoreAfterCons(m: Table, t: Tlv, rest: seq<Tlv>)
    ensures CoreAfter(m, [t] + rest) == CoreAfter(CoreStep(DefaultProfile(), m, t), rest)
    decreases |rest|
  {
    hide DefaultCoreStatus, DefaultProfile, CoreStep;
    CoreStatusIs(m, t);
    if rest == [] {
      assert [t] + rest == [t] && [t][..0] == [];
      assert CoreAfter(m, []) == m;
    } else {
      CoreAfterCons(m, t, rest[..|rest| - 1]);
      assert ([t] + rest)[..|rest|] == [t] + rest[..|rest| - 1];
    }
  }

  lemma {:induction false} CoreListIs(m: Table, tlvs: seq<Tlv>)
    ensures CoreFold(DefaultProfile(), m, tlvs) == CoreAfter(m, tlvs)
    ensures forall i :: 0 <= i < |tlvs| ==>
              CoreStatuses(DefaultProfile(), m, tlvs)[i] == DefaultCoreStatus(CoreAfter(m, tlvs[..i]), tlvs[i])
    decreases |tlvs|
  {
    hide DefaultCoreStatus, DefaultProfile, CoreStep, CoreStatus;
    if tlvs != [] {
      var t, rest := tlvs[0], tlvs[1..];
      var m' := CoreStep(DefaultProfile(), m, t);
      CoreStatusIs(m, t);
      CoreListIs(m', rest);
      CoreAfterCons(m, t, rest);
      assert tlvs == [t] + rest && tlvs[..0] == [];
      forall i | 0 < i < |tlvs| ensures CoreAfter(m, tlvs[..i]) == CoreAfter(m', rest[..i - 1]) {
        assert tlvs[..i] == [t] + rest[..i - 1];
        CoreAfterCons(m, t, rest[..i - 1]);
      }
    }
  }

  /** The body of the answer to a device SET: overall status, number of parameters, then id and status of each. */
  predicate CoreSetBody(m: Table, tlvs: seq<Tlv>, ok: bool, body: seq<byte>) {
    && |body| == 2 + 2 * |tlvs| && body[0] == (if ok then 0 else 4) && body[1] == |tlvs|
    && forall i :: 0 <= i < |tlvs| ==>
         body[2 + 2 * i] == tlvs[i].id && body[3 + 2 * i] == DefaultCoreStatus(CoreAfter(m, tlvs[..i]), tlvs[i])
  }

  /** Every parameter of the count is there and OK. */
  ghost predicate CoreSetOk(m: Table, tlvs: seq<Tlv>, count: nat) {
    |tlvs| == count && forall i :: 0 <= i < |tlvs| ==> DefaultCoreStatus(CoreAfter(m, tlvs[..i]), tlvs[i]) == 0
  }

  /** CORE_SET_CONFIG in the default profile. */
  lemma CoreSetAnswer(setup: Setup, d: Device, req: Packet, other: Reply) returns (body: seq<byte>)
    requires setup.profile == DefaultProfile() && IsCommand(req, 0, 4)
    ensures var h := Handle(setup, d, req, other);
            if |req.payload| < 1 then RefusedWith(setup, d, req, h, [4])
            else
              var tlvs := DecodeTlvs(req.payload, 1, req.payload[0]).tlvs;
              var ok := CoreSetOk(d.configs, tlvs, req.payload[0]);
              && CoreSetBody(d.configs, tlvs, ok, body)
              && AnsweredWith(setup, d, h, Packet(2, 0, 0, 4, body), if ok then None else Some(Packet(3, 0, 0, 7, [4])))
              && h.ok == ok && h.dev == d.(configs := CoreAfter(d.configs, tlvs), pending := h.dev.pending)
  {
    hide RefusedWith, HandsOut, Handle, DefaultProfile, DecodeTlvs, CoreAfter, CoreSetOk, Decide;
    body := [];
    DefaultCommandIs(0, 4);
    if |req.payload| < 1 {
      ShortCoreSet(setup.profile, d, req, other);
      Refusing(setup, d, req, other, [4]);
    } else {
      var ok := CoreSetOk(d.configs, DecodeTlvs(req.payload, 1, req.payload[0]).tlvs, req.payload[0]);
      body := CoreSetDecision(setup.profile, d, req, other);
      OneNote(setup, d, req, other, if ok then None else Some(Packet(3, 0, 0, 7, [4])));
    }
  }

  lemma ShortCoreSet(p: Profile, d: Device, req: Packet, other: Reply)
    requires SupportsCommand(p, 0, 4) && IsCommand(req, 0, 4) && |req.payload| < 1
    ensures Decide(p, d, req, other) == Decision(Stay, Some(Response(req.gid, req.oid, [4])), [], false)
  {
  }

  lemma CoreSetDecision(p: Profile, d: Device, req: Packet, other: Reply) returns (body: seq<byte>)
    requires p == DefaultProfile() && SupportsCommand(p, 0, 4) && IsCommand(req, 0, 4) && |req.payload| >= 1
    ensures var tlvs := DecodeTlvs(req.payload, 1, req.payload[0]).tlvs;
            var ok := CoreSetOk(d.configs, tlvs, req.payload[0]);
            && CoreSetBody(d.configs, tlvs, ok, body)
            && Decide(p, d, req, other) == Decision(SetCore(tlvs), Some(Packet(2, 0, 0, 4, body)), [], ok)
            && CoreFold(p, d.configs, tlvs) == CoreAfter(d.configs, tlvs)
  {
    hide DefaultProfile, DecodeTlvs, CoreFold, CoreStatuses, CoreAfter, DefaultCoreStatus, Pairs, SupportsCommand;
    var tlvs := DecodeTlvs(req.payload, 1, req.payload[0]).tlvs;
    var statuses := CoreStatuses(p, d.configs, tlvs);
    CoreListIs(d.configs, tlvs);
    var ok := |tlvs| == req.payload[0] && forall i :: 0 <= i < |statuses| ==> statuses[i] == STATUS_OK;
    body := [if ok then 0 else 4, |tlvs|] + Pairs(tlvs, statuses);
    PairsAre(tlvs, statuses);
  }

  lemma PairsAre(tlvs: seq<Tlv>, statuses: seq<byte>)
    requires |tlvs| == |statuses|
    ensures |Pairs(tlvs, statuses)| == 2 * |tlvs|
    ensures forall i :: 0 <= i < |tlvs| ==>
              Pairs(tlvs, statuses)[2 * i] == tlvs[i].id && Pairs(tlvs, statuses)[2 * i + 1] == statuses[i]
  {
    forall i | 0 <= i < |tlvs|
      ensures |Pairs(tlvs, statuses)| == 2 * |tlvs|
      ensures Pairs(tlvs, statuses)[2 * i] == tlvs[i].id && Pairs(tlvs, statuses)[2 * i + 1] == statuses[i]
    {
      PairsListed(tlvs, statuses, i);
    }
  }

  /** CORE_GET_CONFIG in the default profile: DEVICE_STATE reads the live state, and naming nothing is refused. */
  lemma CoreGetAnswer(setup: Setup, d: Device, req: Packet, other: Reply) returns (tlvs: seq<Tlv>)
    requires setup.profile == DefaultProfile() && IsCommand(req, 0, 5)
    ensures var h := Handle(setup, d, req, other);
            if |req.payload| < 1 then RefusedWith(setup, d, req, h, [4])
            else
              var ids := NamedIds(req.payload, 0);
              && Answerable(d.configs[0x00 := [d.state]], [0x00, 0x01, 0xA2], ids, tlvs)
              && GetAnswered(setup, d, req, h, tlvs != [] && |tlvs| == |ids|, tlvs)
  {
    hide RefusedWith, GetAnswered, Handle, DefaultProfile, Collect, EncodeTlvs, Size;
    tlvs := [];
    DefaultCommandIs(0, 5);
    DefaultCoreIds();
    if |req.payload| < 1 {
      Refusing(setup, d, req, other, [4]);
    } else {
      var ids := NamedIds(req.payload, 0);
      assert Requested(req.payload, 1, req.payload[0]) == ids;
      CollectIs(DeviceParameters(d), setup.profile.coreConfigIds, ids, 2);
      tlvs := Collect(DeviceParameters(d), setup.profile.coreConfigIds, ids, 2).tlvs;
      Getting(setup, d, req, other, tlvs != [] && |tlvs| == |ids|, tlvs);
    }
  }

  lemma DefaultCoreIds()
    ensures DefaultProfile().coreConfigIds == [0x00, 0x01, 0xA2]
  {
    hide DefaultLimits, DefaultFaults, DefaultRangeData, DefaultTlvs, DefaultAppConfigIds;
  }

  // ----- queueing the answer -----

  /** The response and the notification of a handled packet, in the order they are sent. */
  function Mails(r: Result): seq<Packet> {
    (if r.response.Some? then [r.response.value] else []) + if r.notification.Some? then [r.notification.value] else []
  }

  /**
   A submitted packet: a failure with nothing to say ends it; so does a full outbound queue, which takes what fits.
   Otherwise the answer is outbound, response first, and outside the deferring scenario the pending packets follow.
   */
  lemma SubmitQueues(setup: Setup, e: Engine, req: Packet, other: Reply)
    requires |e.outbound| <= 16
    ensures var h, a := Handle(setup, e.dev, req, other), Receive(setup, e, req, other);
            var all := e.outbound + Mails(h.result);
            && a.ok == ((h.ok || Mails(h.result) != []) && |all| <= 16)
            && (!a.ok ==> a.engine.dev == h.dev && a.engine.outbound == all[..Min(|all|, 16)])
            && (a.ok && setup.scenario.DelayedNotifications? ==> a.engine == Engine(h.dev, all))
            && (a.ok && !setup.scenario.DelayedNotifications? ==>
                  var room, pending := 16 - |all|, h.dev.pending;
                  && a.engine.dev == h.dev.(pending := a.engine.dev.pending)
                  && a.engine.outbound == all + pending[..Min(|pending|, room)]
                  && a.engine.dev.pending == (if |pending| <= room then [] else pending[room + 1..]))
  {
    hide Handle, Flush, Push, Mails;
    var h := Handle(setup, e.dev, req, other);
    PushedBoth(e.outbound, h.result);
    var all := e.outbound + Mails(h.result);
    if |all| <= 16 { FlushExact(h.dev.pending, all); }
  }

  /** Queueing response and notification: all of it, or what fits. */
  lemma PushedBoth(outbound: seq<Packet>, r: Result)
    requires |outbound| <= 16
    ensures var all, out1 := outbound + Mails(r), Push(outbound, r.response);
            && (Mails(r) == [] <==> r.response.None? && r.notification.None?)
            && (|all| <= 16 ==> out1.Some? && Push(out1.value, r.notification) == Some(all))
            && (|all| > 16 ==> if out1.None? then outbound == all[..16]
                               else Push(out1.value, r.notification) == None && out1.value == all[..16])
  {
    assert outbound + [] == outbound;
    if r.response.Some? && r.notification.Some? {
      assert outbound + [r.response.value] + [r.notification.value] == outbound + Mails(r);
    } else if r.response.Some? {
      assert Mails(r) == [r.response.value];
    } else if r.notification.Some? {
      assert Mails(r) == [r.notification.value];
    }
  }
}
