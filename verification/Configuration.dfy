/**
 Configuration over whole requests and whole runs: which tables are reachable,
 when a store can fail, what a SET leaves and a GET reads back, and that the
 parameters of a device SET are independent of one another.
 */
module Configuration {
  import opened Types
  import opened PacketCodec
  import opened Profiles
  import opened ConfigTables
  import opened EventQueues
  import opened PacketQueues
  import opened Validation
  import opened StartGate
  import opened Sessions
  import opened Devices
  import opened Handlers
  import opened Engines
  import opened Moves

  // ----- tables over runs -----

  ghost function Members(ids: seq<byte>): set<byte> {
    set id | id in ids
  }

  ghost function Supported(p: Profile): set<byte> {
    Members(p.appConfigIds)
  }

  /** What a profile must provide for the cross-parameter constraints to hold in every run. */
  ghost predicate SoundProfile(p: Profile) {
    ImmediateFaults(p.faults) && CrossChecks(p, FreshTable(p.defaults))
  }

  /** A profile whose defaults also have every checked parameter in bounds, with a slot for each supported id. */
  ghost predicate CompleteProfile(p: Profile) {
    && SoundProfile(p) && SoundTable(p, FreshTable(p.defaults))
    && IdsOf(p.defaults) <= Supported(p) && |Supported(p)| <= MAX_SESSION_CONFIGS
  }

  /** The cross checks hold, and what holds of the defaults besides. */
  ghost predicate TableInvariant(p: Profile, m: Table) {
    && CrossChecks(p, m)
    && (SoundTable(p, FreshTable(p.defaults)) ==> SoundTable(p, m))
    && (IdsOf(p.defaults) <= Supported(p) ==> m.Keys <= Supported(p))
  }

  ghost predicate TablesSound(p: Profile, d: Device) {
    forall i :: 0 <= i < |d.sessions| && d.sessions[i].inUse ==> TableInvariant(p, d.sessions[i].configs)
  }

  lemma RefusalKeeps(p: Profile, m: Table, t: Tlv)
    requires ImmediateFaults(p.faults) && TableInvariant(p, m) && Refusal(p, m, t).None?
    ensures TableInvariant(p, m[t.id := t.value])
  {
    hide SoundTable, CrossChecks, Supported, FreshTable;
    SetKeepsCrossChecks(p, m, t.id, t.value);
    if SoundTable(p, m) { SetKeepsSound(p, m, t.id, t.value); }
    assert t.id in Supported(p) by { SupportedId(p, t.id); }
  }

  lemma SupportedId(p: Profile, id: byte)
    ensures id in Supported(p) <==> id in p.appConfigIds
  {
  }

  lemma {:induction false} ConfigureKeepsSound(p: Profile, s: Session, q: seq<Event>, tlvs: seq<Tlv>)
    requires ImmediateFaults(p.faults) && TableInvariant(p, s.configs)
    ensures TableInvariant(p, ApplyTlvs(p, s, q, tlvs).session.configs)
    decreases |tlvs|
  {
    if tlvs != [] {
      if Refusal(p, s.configs, tlvs[0]).None? {
        RefusalKeeps(p, s.configs, tlvs[0]);
        SetFrame(p, s, q, tlvs[0]);
      }
      var c := ApplyTlv(p, s, q, tlvs[0]);
      if c.stop.None? { ConfigureKeepsSound(p, c.session, c.events, tlvs[1..]); }
    }
  }

  lemma OpenTableSound(p: Profile, s: Session, id: uint32)
    requires SoundProfile(p) && s == ZERO_SESSION
    ensures TableInvariant(p, Opened(p, s, id).configs)
  {
    StoreAllKeys(map[], MAX_SESSION_CONFIGS, p.defaults, FreshTable(p.defaults));
  }

  lemma ApplyTablesSound(setup: Setup, d: Device, mv: Move)
    requires SoundProfile(setup.profile) && Structured(d) && Legal(setup.profile, d, mv)
             && TablesSound(setup.profile, d)
    ensures TablesSound(setup.profile, Apply(setup, d, mv))
  {
    hide TableInvariant, ImmediateFaults, CrossChecks, ApplyTlvs, Opened, Armed, Sent, LinkMove, StartVerdict, CoreFold;
    match mv
    case Stay | SetCore(_) | Reset | Drop(_) | Relink(_, _) =>
    case Send(i, sequence, length) => SentFrame(setup.profile, d.sessions[i], d.events, sequence, length);
    case Open(i, id) => OpenTableSound(setup.profile, d.sessions[i], id);
    case Configure(i, tlvs) => ConfigureKeepsSound(setup.profile, d.sessions[i], d.events, tlvs);
    case Transit(i, oid, next) => TransitFrame(setup, d, i, oid, next);
  }

  /** Serving an event changes no table and no identity. */
  lemma ServeSettings(setup: Setup, e: Engine)
    requires Structured(e.dev)
    ensures |Serve(setup, e).engine.dev.sessions| == |e.dev.sessions|
    ensures forall i :: 0 <= i < |e.dev.sessions| ==>
            SameSetting(e.dev.sessions[i], Serve(setup, e).engine.dev.sessions[i])
  {
    hide Process, Emit, Interval, ShortTable;
    var at := FirstReady(e.dev.events);
    if at < |e.dev.events| {
      var event := e.dev.events[at];
      var e' := e.(dev := e.dev.(events := RemoveAt(e.dev.events, at)));
      var i := FindSession(e.dev.sessions, event.session);
      ProcessCore(setup, e', event);
      if i < |e.dev.sessions| {
        EmitFrame(setup, e.dev.sessions[i], Room(e'.dev), e'.dev.nextSequence);
      }
    }
  }

  lemma ReceiveTablesSound(setup: Setup, e: Engine, req: Packet, other: Reply)
    requires SoundProfile(setup.profile) && Structured(e.dev) && |e.outbound| <= MAX_OUTBOUND
    requires TablesSound(setup.profile, e.dev)
    ensures TablesSound(setup.profile, Receive(setup, e, req, other).engine.dev)
  {
    hide Receive, Apply, MoveOf, SoundProfile, TableInvariant;
    MoveLegal(setup, e.dev, req, other);
    ApplyTablesSound(setup, e.dev, MoveOf(setup, e.dev, req, other));
    ReceiveCore(setup, e, req, other);
  }

  lemma NextTablesSound(setup: Setup, e: Engine, step: Step)
    requires SoundProfile(setup.profile) && Structured(e.dev) && |e.outbound| <= MAX_OUTBOUND
    requires TablesSound(setup.profile, e.dev)
    ensures TablesSound(setup.profile, Next(setup, e, step).dev)
  {
    hide Receive, Serve, SoundProfile;
    match step
    case SubmitPacket(req, other) =>
      ReceiveTablesSound(setup, e, req, other);
      ReceiveStructured(setup, e, req, other);
      var a := Receive(setup, e, req, other);
      ServeSettings(setup, Elapsed(a.engine, 0));
    case Wait(elapsed) => ServeSettings(setup, Elapsed(e, elapsed));
    case Take =>
  }

  /**
   In every run of a sound profile every session's table stays sound: the cross-parameter constraints
   are inductive.
   */
  lemma {:induction false} RunTablesSound(setup: Setup, e: Engine, steps: seq<Step>)
    requires SoundProfile(setup.profile) && Structured(e.dev) && |e.outbound| <= MAX_OUTBOUND
    requires TablesSound(setup.profile, e.dev)
    ensures TablesSound(setup.profile, Run(setup, e, steps).dev)
    decreases |steps|
  {
    if steps != [] {
      NextTablesSound(setup, e, steps[0]);
      NextStructured(setup, e, steps[0]);
      RunTablesSound(setup, Next(setup, e, steps[0]), steps[1..]);
    }
  }

  /** The constraints as a reader of the table sees them, in every reachable state of a sound profile. */
  lemma ReachableConstraints(setup: Setup, steps: seq<Step>, i: nat)
    requires SoundProfile(setup.profile)
    requires i < |Run(setup, Initial(setup), steps).dev.sessions|
             && Run(setup, Initial(setup), steps).dev.sessions[i].inUse
    ensures var m := Run(setup, Initial(setup), steps).dev.sessions[i].configs;
            Constraints(setup.profile.limits, m) && (m[BLOCK_STRIDE_LENGTH][0] == 0 || m[CAP_SIZE_RANGE] == [0, 0])
  {
    InitialStructured(setup.profile);
    RunTablesSound(setup, Initial(setup), steps);
    CrossChecksMean(setup.profile, Run(setup, Initial(setup), steps).dev.sessions[i].configs);
  }

  /** The default profile is sound and complete. */
  lemma DefaultProfileSound()
    ensures CompleteProfile(DefaultProfile())
  {
    hide FreshTable, DefaultTlvs, CrossChecks, Members;
    var p := DefaultProfile();
    DefaultTableSound(FreshTable(DefaultTlvs()));
    assert p.appConfigIds == DefaultAppConfigIds() && p.defaults == DefaultTlvs();
    DefaultIdsSupported();
    SeqSetSize(DefaultAppConfigIds());
  }

  lemma DefaultIdsSupported()
    ensures IdsOf(DefaultTlvs()) <= Members(DefaultAppConfigIds())
  {
    forall t | t in DefaultTlvs() ensures t.id in DefaultAppConfigIds() {
      var i :| 0 <= i < 77 && DefaultTlvs()[i] == t;
      assert DefaultAppConfigIds()[i] == DefaultIds()[i];
    }
  }

  lemma {:induction false} SeqSetSize(s: seq<byte>)
    ensures |Members(s)| <= |s|
  {
    if s == [] {
      assert Members(s) == {};
    } else {
      SeqSetSize(s[1..]);
      assert s == [s[0]] + s[1..];
      assert Members(s) == {s[0]} + Members(s[1..]);
    }
  }

  /**
   In every reachable state of a complete profile, storing a supported parameter fails only when its
   value is too long.
   */
  lemma ReachableStoreFailsOnlyWhenLong(setup: Setup, steps: seq<Step>, i: nat, id: byte, value: seq<byte>)
    requires CompleteProfile(setup.profile) && id in setup.profile.appConfigIds
    requires i < |Run(setup, Initial(setup), steps).dev.sessions|
             && Run(setup, Initial(setup), steps).dev.sessions[i].inUse
    ensures Store(Run(setup, Initial(setup), steps).dev.sessions[i].configs, MAX_SESSION_CONFIGS, id, value).None?
            <==> |value| > MAX_CONFIG_VALUE
  {
    InitialStructured(setup.profile);
    RunTablesSound(setup, Initial(setup), steps);
    SupportedStoreFailsOnlyWhenLong(Run(setup, Initial(setup), steps).dev.sessions[i].configs, Supported(setup.profile),
                                    MAX_SESSION_CONFIGS, id, value);
  }

  /**
   In every reachable state of the default profile, START on an INIT or IDLE
   session starts it exactly when the listed conditions hold; otherwise it is
   refused and nothing moves.
   */
  lemma ReachableStartIff(setup: Setup, steps: seq<Step>, req: Packet, other: Reply)
    requires setup.profile == DefaultProfile()
    requires req.mt == MT_COMMAND && req.gid == GID_SESSION_CONTROL && req.oid == SESSION_START && |req.payload| >= 4
    requires var d := Run(setup, Initial(setup), steps).dev;
             var i := FindSession(d.sessions, SessionId(req));
             i < |d.sessions| && (d.sessions[i].state == STATE_INIT || d.sessions[i].state == STATE_IDLE)
    ensures var d := Run(setup, Initial(setup), steps).dev;
            var i := FindSession(d.sessions, SessionId(req));
            var m, k := d.sessions[i].configs, Decide(setup.profile, d, req, other);
            && Shaped(m)
            && (k.move == Transit(i, SESSION_START, STATE_ACTIVE) || (k.move == Stay && !k.ok))
            && (k.move.Transit? <==> DefaultGate(m))
  {
    var p := DefaultProfile();
    DefaultProfileSound();
    InitialStructured(p);
    RunTablesSound(setup, Initial(setup), steps);
    var d := Run(setup, Initial(setup), steps).dev;
    var i := FindSession(d.sessions, SessionId(req));
    DefaultStartAcceptedIff(d.sessions[i].configs);
    StandardSources(d.sessions[i].state);
    StartDecision(d, i, req, other);
  }

  /** In every reachable state of the default profile every session's table is sound. */
  lemma ReachableTableSound(setup: Setup, steps: seq<Step>, i: nat)
    requires setup.profile == DefaultProfile()
    requires i < |Run(setup, Initial(setup), steps).dev.sessions|
             && Run(setup, Initial(setup), steps).dev.sessions[i].inUse
    ensures SoundTable(DefaultProfile(), Run(setup, Initial(setup), steps).dev.sessions[i].configs)
  {
    hide SoundTable, DefaultProfile, CrossChecks, FreshTable, Run;
    DefaultProfileSound();
    InitialStructured(setup.profile);
    RunTablesSound(setup, Initial(setup), steps);
  }

  /** In the default profile a START on a startable session follows the start verdict. */
  lemma StartDecision(d: Device, i: nat, req: Packet, other: Reply)
    requires req.mt == MT_COMMAND && req.gid == GID_SESSION_CONTROL && req.oid == SESSION_START && |req.payload| >= 4
    requires i == FindSession(d.sessions, SessionId(req)) && i < |d.sessions| && Bit(9, d.sessions[i].state)
    ensures var k := Decide(DefaultProfile(), d, req, other);
            if StartVerdict(DefaultProfile(), d.sessions[i].configs).Accept? then
              k.move == Transit(i, SESSION_START, STATE_ACTIVE)
            else k.move == Stay && !k.ok
  {
    var p := DefaultProfile();
    assert TransitionFor(p.transitions, SESSION_START) == Some(p.transitions[0]);
    StartFaultsImmediate(p, d.sessions[i].configs);
    assert Decide(p, d, req, other) == DecideTransition(p, d.sessions[i], i, req);
  }

  predicate FaultImmediate(v: Verdict) {
    v.Reject? ==> v.rejection.surface.Immediate?
  }

  lemma StartFaultsImmediate(p: Profile, m: Table)
    requires ImmediateFaults(p.faults)
    ensures FaultImmediate(StartVerdict(p, m))
  {
    TopologyFaultsImmediate(p, m);
    RadioFaultsImmediate(p, m);
    ScheduleFaultsImmediate(p, m);
  }

  lemma TopologyFaultsImmediate(p: Profile, m: Table)
    requires ImmediateFaults(p.faults)
    ensures FaultImmediate(DeviceRoleVerdict(p, m))
    ensures FaultImmediate(NodeTopologyVerdict(p, m))
    ensures FaultImmediate(StsVerdict(p, m))
    ensures FaultImmediate(ReportVerdict(p, m))
  {
  }

  lemma RadioFaultsImmediate(p: Profile, m: Table)
    requires ImmediateFaults(p.faults)
    ensures FaultImmediate(RadioVerdict(p, m))
    ensures FaultImmediate(FrameVerdict(p, m))
    ensures FaultImmediate(RotationVerdict(p, m))
    ensures FaultImmediate(LinkVerdict(p, m))
  {
  }

  lemma ScheduleFaultsImmediate(p: Profile, m: Table)
    requires ImmediateFaults(p.faults)
    ensures FaultImmediate(ScheduleVerdict(p, m))
  {
  }

  // ----- SET then GET -----

  /** A table after a list of stores, the last one winning. */
  function TableAfter(m: Table, tlvs: seq<Tlv>): Table {
    if tlvs == [] then m
    else TableAfter(m, tlvs[..|tlvs| - 1])[tlvs[|tlvs| - 1].id := tlvs[|tlvs| - 1].value]
  }

  lemma {:induction false} TableAfterCons(m: Table, t: Tlv, rest: seq<Tlv>)
    ensures TableAfter(m, [t] + rest) == TableAfter(m[t.id := t.value], rest)
  {
    if rest == [] {
      assert [t] + rest == [t] && [t][..0] == [];
      assert TableAfter(m, []) == m;
    } else {
      TableAfterCons(m, t, rest[..|rest| - 1]);
      assert ([t] + rest)[..|rest|] == [t] + rest[..|rest| - 1];
    }
  }

  /** Which parameters a table refuses. */
  function Refuses(p: Profile): (Table, Tlv) -> bool {
    (m: Table, t: Tlv) => Refusal(p, m, t).Some?
  }

  /** The first k parameters pass, each against the table as it then stands, and the next one, if any, does not. */
  ghost predicate PassingPrefix(stops: (Table, Tlv) -> bool, m: Table, tlvs: seq<Tlv>, k: nat) {
    && k <= |tlvs|
    && (forall i :: 0 <= i < k ==> !stops(TableAfter(m, tlvs[..i]), tlvs[i]))
    && (k < |tlvs| ==> stops(TableAfter(m, tlvs[..k]), tlvs[k]))
  }

  lemma TableAfterNone(m: Table)
    ensures TableAfter(m, []) == m
  {
  }

  lemma PassingPrefixCons(stops: (Table, Tlv) -> bool, m: Table, t: Tlv, rest: seq<Tlv>, k: nat)
    requires !stops(m, t) && PassingPrefix(stops, m[t.id := t.value], rest, k)
    ensures PassingPrefix(stops, m, [t] + rest, k + 1)
    ensures TableAfter(m, ([t] + rest)[..k + 1]) == TableAfter(m[t.id := t.value], rest[..k])
  {
    hide TableAfter;
    assert TableAfter(m, []) == m by { TableAfterNone(m); }
    var tlvs := [t] + rest;
    forall i | 0 <= i <= k ensures TableAfter(m[t.id := t.value], rest[..i]) == TableAfter(m, tlvs[..i + 1]) {
      TableAfterCons(m, t, rest[..i]);
      assert tlvs[..i + 1] == [t] + rest[..i];
    }
    forall i | 0 <= i < k + 1 ensures !stops(TableAfter(m, tlvs[..i]), tlvs[i]) {
      if i == 0 {
        assert tlvs[..0] == [];
      } else {
        assert TableAfter(m, tlvs[..i]) == TableAfter(m[t.id := t.value], rest[..i - 1]);
        assert tlvs[i] == rest[i - 1];
      }
    }
    if k < |rest| { assert tlvs[k + 1] == rest[k]; }
  }

  lemma NothingPasses(stops: (Table, Tlv) -> bool, m: Table, tlvs: seq<Tlv>)
    requires tlvs == [] || stops(m, tlvs[0])
    ensures PassingPrefix(stops, m, tlvs, 0)
  {
    assert tlvs[..0] == [];
  }

  /**
   A SET on a session that is not streaming leaves the stores of the longest
   accepted prefix; the first refused parameter and all later ones change nothing.
   */
  lemma {:induction false} SetLeavesAcceptedPrefix(p: Profile, s: Session, q: seq<Event>, tlvs: seq<Tlv>)
      returns (k: nat)
    requires !(s.state == STATE_ACTIVE && s.streamRemaining > 0)
    ensures k <= |tlvs| && PassingPrefix(Refuses(p), s.configs, tlvs, k)
    ensures var c := ApplyTlvs(p, s, q, tlvs);
            && c.session.configs == TableAfter(s.configs, tlvs[..k]) && SameWork(s, c.session) && c.events == q
            && c.stop == (if k == |tlvs| then None else Refusal(p, TableAfter(s.configs, tlvs[..k]), tlvs[k]))
    decreases |tlvs|
  {
    hide TableAfter, Refusal, PassingPrefix, Reschedule;
    ConfigureFrame(p, s, q, tlvs);
    if tlvs == [] || Refuses(p)(s.configs, tlvs[0]) {
      k := 0;
      assert tlvs[..0] == [];
      TableAfterNone(s.configs);
      NothingPasses(Refuses(p), s.configs, tlvs);
    } else {
      var t, rest := tlvs[0], tlvs[1..];
      SetFrame(p, s, q, t);
      var c := SetTlv(p, s, q, t);
      var k' := SetLeavesAcceptedPrefix(p, c.session, q, rest);
      PassingPrefixCons(Refuses(p), s.configs, t, rest, k');
      assert tlvs == [t] + rest;
      k := k' + 1;
    }
  }

  /** Only one prefix length qualifies, so the lemma above determines the table. */
  lemma PassingPrefixUnique(stops: (Table, Tlv) -> bool, m: Table, tlvs: seq<Tlv>, a: nat, b: nat)
    requires PassingPrefix(stops, m, tlvs, a) && PassingPrefix(stops, m, tlvs, b)
    ensures a == b
  {
  }

  /** A parameter reads as it was last written, or as before when it was not written. */
  lemma {:induction false} LastWritten(m: Table, tlvs: seq<Tlv>, id: byte)
    ensures id in TableAfter(m, tlvs) <==> id in m || exists i :: 0 <= i < |tlvs| && tlvs[i].id == id
    ensures forall i :: 0 <= i < |tlvs| && tlvs[i].id == id && (forall j :: i < j < |tlvs| ==> tlvs[j].id != id)
              ==> TableAfter(m, tlvs)[id] == tlvs[i].value
    ensures (forall i :: 0 <= i < |tlvs| ==> tlvs[i].id != id) && id in m ==> TableAfter(m, tlvs)[id] == m[id]
  {
    if tlvs != [] {
      LastWritten(m, tlvs[..|tlvs| - 1], id);
    }
  }

  /** One encoded parameter inside a payload decodes to itself. */
  lemma DecodeStep(payload: seq<byte>, offset: nat, t: Tlv, count: nat)
    requires |t.value| <= MAX_CONFIG_VALUE && count > 0
    requires offset <= |payload| && EncodeTlv(t) <= payload[offset..]
    ensures var rest := DecodeTlvs(payload, offset + 2 + |t.value|, count - 1);
            DecodeTlvs(payload, offset, count) == TlvList([t] + rest.tlvs, rest.overrun)
  {
    var tail := payload[offset..];
    assert tail[0] == t.id && tail[1] == |t.value| && tail[2..2 + |t.value|] == t.value;
    assert payload[offset + 2..offset + 2 + |t.value|] == tail[2..2 + |t.value|];
  }

  /** Decoding what was encoded gives the parameters back. */
  lemma {:induction false} DecodeEncode(payload: seq<byte>, offset: nat, tlvs: seq<Tlv>)
    requires forall i :: 0 <= i < |tlvs| ==> |tlvs[i].value| <= MAX_CONFIG_VALUE
    requires offset <= |payload| && payload[offset..] == EncodeTlvs(tlvs)
    ensures DecodeTlvs(payload, offset, |tlvs|) == TlvList(tlvs, false)
    decreases |tlvs|
  {
    hide DecodeTlvs;
    if tlvs == [] {
      DecodeNone(payload, offset);
    } else {
      var t, rest := tlvs[0], tlvs[1..];
      var first, next := EncodeTlv(t), offset + 2 + |t.value|;
      assert payload[offset..] == first + EncodeTlvs(rest);
      assert payload[next..] == payload[offset..][|first|..] == EncodeTlvs(rest);
      DecodeStep(payload, offset, t, |tlvs|);
      DecodeEncode(payload, next, rest);
      assert tlvs == [t] + rest;
    }
  }

  lemma DecodeNone(payload: seq<byte>, offset: nat)
    ensures DecodeTlvs(payload, offset, 0) == TlvList([], false)
  {
  }

  /** Collecting succeeds with one parameter per requested id, in order, or stops at one. */
  lemma {:induction false} CollectExact(m: Table, supported: seq<byte>, ids: seq<byte>, used: nat)
    ensures var got := Collect(m, supported, ids, used);
            && (forall i :: 0 <= i < |got.tlvs| ==> ids[i] in m && got.tlvs[i] == Tlv(ids[i], m[ids[i]]))
            && (!got.failed <==> |got.tlvs| == |ids|)
    decreases |ids|
  {
    if ids != [] && ids[0] in m {
      CollectExact(m, supported, ids[1..], used + 2 + |m[ids[0]]|);
    }
  }

  /** A GET that names parameters and succeeds reads back each one's stored value, in request order. */
  lemma GetReadsTable(p: Profile, d: Device, req: Packet)
    requires |req.payload| >= 5 && req.payload[4] != 0
    requires var i := FindSession(d.sessions, SessionId(req)); i < |d.sessions| && ShortTable(d.sessions[i].configs)
    requires DecideGetApp(p, d, req).ok
    ensures var m := d.sessions[FindSession(d.sessions, SessionId(req))].configs;
            var ids := Requested(req.payload, 5, req.payload[4]);
            var body := DecideGetApp(p, d, req).response.value.payload;
            && |body| >= 2 && body[0] == STATUS_OK && body[1] == |ids|
            && (forall k :: 0 <= k < |ids| ==> ids[k] in m)
            && DecodeTlvs(body, 2, body[1])
            == TlvList(seq(|ids|, k requires 0 <= k < |ids| && ids[k] in m => Tlv(ids[k], m[ids[k]])), false)
  {
    var m := d.sessions[FindSession(d.sessions, SessionId(req))].configs;
    var ids := Requested(req.payload, 5, req.payload[4]);
    var got := Collect(m, p.appConfigIds, ids, 2);
    CollectExact(m, p.appConfigIds, ids, 2);
    var body := DecideGetApp(p, d, req).response.value.payload;
    assert |got.tlvs| == |ids| <= 255;
    assert body[2..] == EncodeTlvs(got.tlvs);
    DecodeEncode(body, 2, got.tlvs);
    assert got.tlvs == seq(|ids|, k requires 0 <= k < |ids| && ids[k] in m => Tlv(ids[k], m[ids[k]]));
  }

  /**
   A GET that follows a SET on a session that is not streaming reads, for each
   named parameter, the value last written by the accepted prefix of the SET,
   or the value from before if that prefix does not write it.
   */
  lemma SetThenGet(setup: Setup, d: Device, d': Device, tlvs: seq<Tlv>, req: Packet, n: nat) returns (k: nat)
    requires |req.payload| >= 5 && req.payload[4] != 0 && n < |Requested(req.payload, 5, req.payload[4])|
    requires Structured(d) && FindSession(d.sessions, SessionId(req)) < |d.sessions|
    requires var s := d.sessions[FindSession(d.sessions, SessionId(req))];
             !(s.state == STATE_ACTIVE && s.streamRemaining > 0)
    requires d' == Apply(setup, d, Configure(FindSession(d.sessions, SessionId(req)), tlvs))
    requires DecideGetApp(setup.profile, d', req).ok
    ensures var before := d.sessions[FindSession(d.sessions, SessionId(req))].configs;
            var id := Requested(req.payload, 5, req.payload[4])[n];
            var body := DecideGetApp(setup.profile, d', req).response.value.payload;
            && PassingPrefix(Refuses(setup.profile), before, tlvs, k)
            && |body| >= 2 && n < |DecodeTlvs(body, 2, body[1]).tlvs|
            && var got := DecodeTlvs(body, 2, body[1]).tlvs[n];
               && got.id == id
               && (forall i :: 0 <= i < k && tlvs[i].id == id && (forall j :: i < j < k ==> tlvs[j].id != id) ==>
                     got.value == tlvs[i].value)
               && ((forall i :: 0 <= i < k ==> tlvs[i].id != id) ==> id in before && got.value == before[id])
  {
    hide DecideGetApp, DecodeTlvs, PassingPrefix, Refuses, TableAfter, ApplyTlvs, Requested, StatusResponse;
    var p, at := setup.profile, FindSession(d.sessions, SessionId(req));
    var s := d.sessions[at];
    k := SetLeavesAcceptedPrefix(p, s, d.events, tlvs);
    ConfigureFrame(p, s, d.events, tlvs);
    FindAfterPut(d.sessions, at, d'.sessions[at], SessionId(req));
    GetReadsTable(p, d', req);
    TableReadsLast(s.configs, tlvs, k, Requested(req.payload, 5, req.payload[4])[n]);
  }

  lemma TableReadsLast(m: Table, tlvs: seq<Tlv>, k: nat, id: byte)
    requires k <= |tlvs| && id in TableAfter(m, tlvs[..k])
    ensures forall i :: 0 <= i < k && tlvs[i].id == id && (forall j :: i < j < k ==> tlvs[j].id != id) ==>
              TableAfter(m, tlvs[..k])[id] == tlvs[i].value
    ensures (forall i :: 0 <= i < k ==> tlvs[i].id != id) ==> id in m && TableAfter(m, tlvs[..k])[id] == m[id]
  {
    LastWritten(m, tlvs[..k], id);
    assert forall i :: 0 <= i < k ==> tlvs[..k][i] == tlvs[i];
  }

  // ----- device parameters -----

  /** The parameters of a device SET that were stored. */
  function Stored(p: Profile, m: Table, tlvs: seq<Tlv>): seq<Tlv>
    decreases |tlvs|
  {
    if tlvs == [] then []
    else
      var first := if CoreStatus(p, m, tlvs[0]) == STATUS_OK then [tlvs[0]] else [];
      first + Stored(p, CoreStep(p, m, tlvs[0]), tlvs[1..])
  }

  /**
   Independence: deleting the rejected parameters from a request changes neither the table nor the
   fate of the others.
   */
  lemma {:induction false} CoreSetIndependent(p: Profile, m: Table, tlvs: seq<Tlv>)
    ensures CoreFold(p, m, Stored(p, m, tlvs)) == CoreFold(p, m, tlvs)
    ensures forall k :: 0 <= k < |Stored(p, m, tlvs)| ==> CoreStatuses(p, m, Stored(p, m, tlvs))[k] == STATUS_OK
    decreases |tlvs|
  {
    if tlvs != [] {
      var t, m' := tlvs[0], CoreStep(p, m, tlvs[0]);
      CoreSetIndependent(p, m', tlvs[1..]);
      if CoreStatus(p, m, t) == STATUS_OK {
        assert Stored(p, m, tlvs)[1..] == Stored(p, m', tlvs[1..]);
      } else {
        assert Stored(p, m, tlvs) == Stored(p, m', tlvs[1..]);
      }
    }
  }

  /** No request changes the stored DEVICE_STATE or removes a parameter. */
  lemma {:induction false} DeviceStateKept(p: Profile, m: Table, tlvs: seq<Tlv>)
    ensures m.Keys <= CoreFold(p, m, tlvs).Keys
    ensures DEVICE_CONFIG_STATE in m ==> CoreFold(p, m, tlvs)[DEVICE_CONFIG_STATE] == m[DEVICE_CONFIG_STATE]
    ensures forall i :: 0 <= i < |tlvs| && tlvs[i].id == DEVICE_CONFIG_STATE ==>
            CoreStatuses(p, m, tlvs)[i] == STATUS_INVALID_PARAM
    decreases |tlvs|
  {
    if tlvs != [] {
      DeviceStateKept(p, CoreStep(p, m, tlvs[0]), tlvs[1..]);
      var rest := CoreStatuses(p, CoreStep(p, m, tlvs[0]), tlvs[1..]);
      forall i | 0 <= i < |tlvs| && tlvs[i].id == DEVICE_CONFIG_STATE
        ensures CoreStatuses(p, m, tlvs)[i] == STATUS_INVALID_PARAM
      {
        if i > 0 { assert tlvs[1..][i - 1] == tlvs[i] && rest[i - 1] == CoreStatuses(p, m, tlvs)[i]; }
      }
    }
  }

  /** The response lists one id and status per parameter, in order. */
  lemma {:induction false} PairsListed(tlvs: seq<Tlv>, statuses: seq<byte>, i: nat)
    requires |tlvs| == |statuses| && i < |tlvs|
    ensures |Pairs(tlvs, statuses)| == 2 * |tlvs|
    ensures Pairs(tlvs, statuses)[2 * i] == tlvs[i].id && Pairs(tlvs, statuses)[2 * i + 1] == statuses[i]
    decreases |tlvs|
  {
    if |tlvs| == 1 {
      assert Pairs(tlvs[1..], statuses[1..]) == [];
    } else {
      PairsListed(tlvs[1..], statuses[1..], if i == 0 then 0 else i - 1);
    }
  }

  /** The whole device SET of a well-framed request: state, response pairs and overall status. */
  lemma CoreSetResponse(setup: Setup, d: Device, req: Packet)
    requires |req.payload| >= 1
    requires |DecodeTlvs(req.payload, 1, req.payload[0]).tlvs| == req.payload[0]
    ensures var tlvs := DecodeTlvs(req.payload, 1, req.payload[0]).tlvs;
            var k := DecideCoreSet(setup.profile, d, req);
            var statuses, body := CoreStatuses(setup.profile, d.configs, tlvs), k.response.value.payload;
            && Apply(setup, d, k.move).configs == CoreFold(setup.profile, d.configs,
                                                           Stored(setup.profile, d.configs, tlvs))
            && Apply(setup, d, k.move).state == d.state
            && |body| == 2 + 2 * |tlvs| && body[1] == |tlvs|
            && (forall i :: 0 <= i < |tlvs| ==> body[2 + 2 * i] == tlvs[i].id && body[3 + 2 * i] == statuses[i])
            && (body[0] == STATUS_OK <==> forall i :: 0 <= i < |tlvs| ==> statuses[i] == STATUS_OK)
            && (k.ok <==> body[0] == STATUS_OK)
  {
    hide DecodeTlvs, CoreFold, CoreStatuses, Stored;
    var tlvs := DecodeTlvs(req.payload, 1, req.payload[0]).tlvs;
    var statuses := CoreStatuses(setup.profile, d.configs, tlvs);
    CoreSetIndependent(setup.profile, d.configs, tlvs);
    forall i | 0 <= i < |tlvs|
      ensures |Pairs(tlvs, statuses)| == 2 * |tlvs|
      ensures Pairs(tlvs, statuses)[2 * i] == tlvs[i].id && Pairs(tlvs, statuses)[2 * i + 1] == statuses[i]
    {
      PairsListed(tlvs, statuses, i);
    }
    if tlvs == [] { assert Pairs(tlvs, statuses) == []; }
  }
}
