/**
 The device of the simulator (src/model/uci_sim_device.c) over its arrays. View
 gives the device value of the rest of the model; every method says which
 operation on that value it carries out.
 */
module SimDevices {
  import opened Types
  import opened PacketCodec
  import opened Profiles
  import opened ConfigTables
  import opened EventQueues
  import opened PacketQueues
  import opened LogicalLinks
  import opened Validation
  import opened Sessions
  import opened Devices
  import opened Handlers
  import opened Engines
  import opened SimSessions

  class SimDevice {
    const setup: Setup
    var state: byte
    var nextSequence: uint32
    const configs: ConfigTable
    const sessions: seq<SimSession>
    const events: EventQueue
    const pending: PacketQueue

    /** Everything but the sessions. */
    ghost function Core(): set<object> {
      {this, configs, configs.slots, events, events.slots, pending, pending.slots}
    }

    ghost function Footprint(): set<object> {
      Core() + set s, o | s in sessions && o in s.Footprint() :: o
    }

    lemma Within(i: nat)
      requires i < |sessions|
      ensures sessions[i].Footprint() <= Footprint() && Core() <= Footprint()
    {
      assert sessions[i] in sessions;
    }

    /** No two parts of the device share memory. */
    ghost predicate Separate() {
      && |sessions| == MAX_SESSIONS
      && (forall i :: 0 <= i < |sessions| ==> configs.slots != sessions[i].table.slots)
      && (forall i, j :: 0 <= i < |sessions| && 0 <= j < |sessions| && i != j ==> sessions[i].Apart(sessions[j]))
    }

    ghost predicate ValidCore()
      reads Core()
    {
      && configs.Valid() && configs.slots.Length == MAX_DEVICE_CONFIGS
      && events.Valid()
      && pending.Valid() && pending.slots.Length == MAX_PENDING
    }

    ghost predicate Valid()
      reads Footprint()
    {
      && Separate() && ValidCore()
      && forall i :: 0 <= i < |sessions| ==> sessions[i].Valid()
    }

    ghost function View(): (d: Device)
      reads Footprint()
      requires Valid()
      ensures |d.sessions| == |sessions| == MAX_SESSIONS
      ensures forall i :: 0 <= i < MAX_SESSIONS ==> sessions[i].Valid() && d.sessions[i] == sessions[i].View()
    {
      Device(state, configs.View(), nextSequence, Views(sessions), events.View(), pending.View())
    }

    static ghost function Views(slots: seq<SimSession>): (r: seq<Session>)
      reads set s, o | s in slots && o in s.Footprint() :: o
      requires forall i :: 0 <= i < |slots| ==> slots[i].Valid()
      ensures |r| == |slots|
      ensures forall i :: 0 <= i < |slots| ==> r[i] == slots[i].View()
    {
      if slots == [] then [] else [slots[0].View()] + Views(slots[1..])
    }

    /** A change to the core and to one session shows in the view at exactly those places. */
    twostate lemma Touched(i: nat)
      requires i < |sessions| && old(Valid()) && ValidCore() && sessions[i].Valid()
      requires forall j :: 0 <= j < |sessions| && j != i ==> sessions[j].Untouched()
      ensures Valid()
      ensures View() == Device(state, configs.View(), nextSequence, old(View()).sessions[i := sessions[i].View()],
                               events.View(), pending.View())
    {
      hide Separate, ValidCore, Footprint, Core, SimSession.Valid, SimSession.View, SimSession.Footprint;
      forall j | 0 <= j < |sessions|
        ensures sessions[j].Valid() && (j != i ==> sessions[j].View() == old(sessions[j].View()))
      {
        if j != i { sessions[j].Kept(); }
      }
      assert Views(sessions) == old(View()).sessions[i := sessions[i].View()];
    }

    twostate predicate CoreUntouched()
      reads Core()
    {
      && unchanged(this) && unchanged(configs.slots)
      && unchanged(events) && unchanged(events.slots) && unchanged(pending) && unchanged(pending.slots)
    }

    /** A change to one session alone. */
    twostate lemma SessionTouched(i: nat)
      requires i < |sessions| && old(Valid()) && CoreUntouched() && sessions[i].Valid()
      requires forall j :: 0 <= j < |sessions| && j != i ==> sessions[j].Untouched()
      ensures Valid() && View() == Put(old(View()), i, sessions[i].View())
    {
      hide Separate, SimSession.Valid, SimSession.View, SimSession.Untouched;
      assert ValidCore() && configs.View() == old(configs.View()) && events.View() == old(events.View())
             && pending.View() == old(pending.View());
      Touched(i);
    }

    /** A read changes nothing. */
    twostate lemma Undisturbed()
      requires old(Valid()) && CoreUntouched()
      requires forall j :: 0 <= j < |sessions| ==> sessions[j].Untouched()
      ensures Valid() && View() == old(View())
    {
      hide Separate, SimSession.Valid, SimSession.View, SimSession.Untouched;
      assert ValidCore() && configs.View() == old(configs.View()) && events.View() == old(events.View())
             && pending.View() == old(pending.View());
      CoreTouched();
    }

    /** A change to the core alone. */
    twostate lemma CoreTouched()
      requires old(Valid()) && ValidCore()
      requires forall j :: 0 <= j < |sessions| ==> sessions[j].Untouched()
      ensures Valid()
      ensures View() == Device(state, configs.View(), nextSequence, old(View()).sessions, events.View(), pending.View())
    {
      hide Separate, ValidCore, Footprint, Core, SimSession.Valid, SimSession.View, SimSession.Footprint;
      forall j | 0 <= j < |sessions| ensures sessions[j].Valid() && sessions[j].View() == old(sessions[j].View()) {
        sessions[j].Kept();
      }
      assert Views(sessions) == old(View()).sessions;
    }

    /** A device over memory the caller provides; initialization is a reset of it. */
    constructor (setup: Setup, configs: ConfigTable, sessions: seq<SimSession>, events: EventQueue,
                 pending: PacketQueue)
      requires |sessions| == MAX_SESSIONS && forall i :: 0 <= i < |sessions| ==> sessions[i].Valid()
      requires forall i :: 0 <= i < |sessions| ==> configs.slots != sessions[i].table.slots
      requires forall i, j :: 0 <= i < |sessions| && 0 <= j < |sessions| && i != j ==> sessions[i].Apart(sessions[j])
      requires configs.Valid() && configs.slots.Length == MAX_DEVICE_CONFIGS
      requires events.Valid() && pending.Valid() && pending.slots.Length == MAX_PENDING
      ensures this.setup == setup && this.configs == configs && this.sessions == sessions
      ensures this.events == events && this.pending == pending
      ensures Valid()
    {
      this.setup, this.configs, this.sessions, this.events, this.pending := setup, configs, sessions, events, pending;
      state := setup.profile.deviceState;
      nextSequence := 1;
      new;
      hide SimSession.Valid;
    }

    /** The live state and the first three device parameters come from the profile. */
    method ApplyProfileDefaults()
      requires Separate() && ValidCore()
      modifies `state, configs.slots
      ensures ValidCore() && state == setup.profile.deviceState && configs.View() == InitialConfigs(setup.profile)
    {
      var p := setup.profile;
      state := p.deviceState;
      configs.Clear();
      var ok := configs.Put(DEVICE_CONFIG_STATE, [p.deviceState]);
      ok := configs.Put(DEVICE_CONFIG_LOW_POWER, [p.lowPowerMode]);
      ok := configs.Put(DEVICE_CONFIG_PAN_ID, [p.panId.0, p.panId.1]);
    }

    /** Clears every slot and both queues, then applies the profile's defaults again. */
    method ResetRuntimeState()
      requires Valid()
      modifies Footprint()
      ensures Valid() && View() == InitialDevice(setup.profile) && state == setup.profile.deviceState
    {
      hide SimSession.Valid, SimSession.View, View, InitialConfigs;
      var i := 0;
      while i < |sessions|
        invariant 0 <= i <= |sessions| && Valid()
        invariant forall j :: 0 <= j < i ==> View().sessions[j] == ZERO_SESSION
      {
        ZeroSession(i);
        i := i + 1;
      }
      ResetCore();
      assert View().sessions == InitialDevice(setup.profile).sessions;
    }

    method ResetCore()
      requires Valid()
      modifies Core()
      ensures Valid() && state == setup.profile.deviceState
      ensures View() == InitialDevice(setup.profile).(sessions := old(View()).sessions)
    {
      hide SimSession.Valid, SimSession.View, InitialConfigs;
      events.Clear();
      pending.Clear();
      nextSequence := 1;
      ApplyProfileDefaults();
      CoreTouched();
    }

    // ----- session slots -----

    method FindSlot(id: uint32) returns (i: nat)
      requires Valid()
      ensures Valid() && View() == old(View())
      ensures i == FindSession(View().sessions, id)
    {
      i := 0;
      while i < |sessions|
        invariant 0 <= i <= |sessions|
        invariant forall j :: 0 <= j < i ==> !(View().sessions[j].inUse && View().sessions[j].id == id)
      {
        if sessions[i].record.inUse && sessions[i].record.id == id {
          FindSessionIs(View().sessions, id, i);
          return;
        }
        i := i + 1;
      }
      FindSessionIs(View().sessions, id, i);
    }

    method FindFree() returns (i: nat)
      requires Valid()
      ensures Valid() && View() == old(View())
      ensures i == FirstFree(View().sessions)
    {
      i := 0;
      while i < |sessions|
        invariant 0 <= i <= |sessions|
        invariant forall j :: 0 <= j < i ==> View().sessions[j].inUse
      {
        if !sessions[i].record.inUse { break; }
        i := i + 1;
      }
      FirstFreeIs(View().sessions, i);
    }

    method ZeroSession(i: nat)
      requires Valid() && i < |sessions|
      modifies sessions[i].Footprint()
      ensures Valid() && View() == Put(old(View()), i, ZERO_SESSION)
    {
      hide SimSession.Valid, SimSession.View, View;
      sessions[i].Zero();
      SessionTouched(i);
    }

    method OpenSession(i: nat, id: uint32)
      requires Valid() && i < |sessions|
      modifies sessions[i].Footprint()
      ensures Valid() && View() == Put(old(View()), i, Opened(setup.profile, old(View()).sessions[i], id))
    {
      hide SimSession.Valid, SimSession.View, View, Opened;
      sessions[i].Open(setup.profile, id);
      SessionTouched(i);
    }

    /** Opens the first free slot, if there is one. */
    method AllocSession(id: uint32) returns (i: nat)
      requires Valid()
      modifies Footprint()
      ensures Valid() && i == FirstFree(old(View()).sessions)
      ensures View() == if i < |sessions| then Put(old(View()), i, Opened(setup.profile, old(View()).sessions[i], id))
                        else old(View())
    {
      hide View, Valid, SimSession.View, SimSession.Valid, Opened;
      i := FindFree();
      if i < |sessions| {
        Within(i);
        OpenSession(i, id);
      }
    }

    /** The scalar members of a session are those of its view. */
    lemma RecordIs(i: nat)
      requires Valid() && i < |sessions|
      ensures var s := View().sessions[i];
              sessions[i].record.(configs := s.configs, links := s.links) == s
    {
    }

    /** Updates scalar members of a session. */
    method Update(i: nat, record: Session)
      requires Valid() && i < |sessions|
      modifies sessions[i]
      ensures Valid()
      ensures var s := old(View()).sessions[i];
              View() == Put(old(View()), i, record.(configs := s.configs, links := s.links))
    {
      hide View;
      sessions[i].record := record;
      SessionTouched(i);
    }

    method StoreConfig(i: nat, id: byte, value: seq<byte>) returns (ok: bool)
      requires Valid() && i < |sessions|
      modifies sessions[i].table.slots
      ensures Valid()
      ensures var s := old(View()).sessions[i];
              && ok == Store(s.configs, MAX_SESSION_CONFIGS, id, value).Some?
              && View() == if ok then Put(old(View()), i, s.(configs := s.configs[id := value])) else old(View())
    {
      hide View;
      ok := sessions[i].table.Put(id, value);
      SessionTouched(i);
    }

    /** DEVICE_STATE is refused here too, whatever the caller checked. */
    method StoreCoreConfig(id: byte, value: seq<byte>) returns (ok: bool)
      requires Valid()
      modifies configs.slots
      ensures Valid()
      ensures var m := old(View()).configs;
              && ok == (id != DEVICE_CONFIG_STATE && Store(m, MAX_DEVICE_CONFIGS, id, value).Some?)
              && View() == old(View()).(configs := if ok then m[id := value] else m)
    {
      hide SimSession.Valid, SimSession.View;
      ok := id != DEVICE_CONFIG_STATE;
      if ok { ok := configs.Put(id, value); }
      CoreTouched();
    }

    /** DEVICE_STATE reads the live state, whatever is stored under it. */
    method ReadCoreConfig(id: byte) returns (r: Option<seq<byte>>)
      requires Valid()
      ensures Valid() && View() == old(View()) && r == Get(DeviceParameters(View()), id)
    {
      hide SimSession.Valid, SimSession.View;
      if id == DEVICE_CONFIG_STATE { return Some([state]); }
      r := configs.Find(id);
      Undisturbed();
    }

    method HasLink(i: nat, id: byte) returns (found: bool)
      requires Valid() && i < |sessions|
      ensures Valid() && View() == old(View()) && found == Exists(View().sessions[i].links, id)
    {
      hide View;
      var at := sessions[i].links.Find(id);
      found := at < sessions[i].links.count;
      Undisturbed();
    }

    method FindLink(i: nat, id: byte) returns (r: Option<Link>)
      requires Valid() && i < |sessions|
      ensures Valid() && View() == old(View())
      ensures var links := View().sessions[i].links;
              r == if IndexOf(links, id) < |links| then Some(links[IndexOf(links, id)]) else None
    {
      hide View;
      var at := sessions[i].links.Find(id);
      r := if at < sessions[i].links.count then Some(sessions[i].links.slots[at]) else None;
      Undisturbed();
    }

    method AllocateLink(i: nat, requested: byte, mode: byte, credit: byte) returns (r: Option<byte>)
      requires Valid() && i < |sessions|
      requires requested != ANY_ID ==> !Exists(View().sessions[i].links, requested)
      modifies sessions[i].links, sessions[i].links.slots
      ensures Valid()
      ensures var s := old(View()).sessions[i];
              if |s.links| >= MAX_LINKS then r == None && View() == old(View())
              else var id := AssignedId(s.links, requested);
                   r == Some(id) && View() == Put(old(View()), i, s.(links := s.links + [Link(true, id, mode, credit)]))
    {
      hide View;
      r := sessions[i].links.Allocate(requested, mode, credit);
      SessionTouched(i);
    }

    method RemoveLink(i: nat, id: byte) returns (ok: bool)
      requires Valid() && i < |sessions|
      modifies sessions[i].links, sessions[i].links.slots
      ensures Valid()
      ensures var s := old(View()).sessions[i];
              && ok == Exists(s.links, id)
              && View() == if ok then Put(old(View()), i, s.(links := Close(s.links, id))) else old(View())
    {
      hide View;
      ghost var d := View();
      ok := sessions[i].links.Remove(id);
      SessionTouched(i);
      if !ok {
        assert Close(d.sessions[i].links, id) == d.sessions[i].links;
        assert d.sessions[i := d.sessions[i]] == d.sessions;
      }
    }

    /** The parameters of a session as the validators look them up. */
    function Parameters(i: nat): (m: Table)
      requires Valid() && i < |sessions|
      reads Footprint()
      ensures m == View().sessions[i].configs
    {
      Within(i);
      sessions[i].table.View()
    }

    method ReadConfig(i: nat, id: byte) returns (r: Option<seq<byte>>)
      requires Valid() && i < |sessions|
      ensures Valid() && View() == old(View()) && r == Get(View().sessions[i].configs, id)
    {
      hide View;
      r := sessions[i].table.Find(id);
      Undisturbed();
    }

    method ReadByte(i: nat, id: byte, default: byte) returns (v: byte)
      requires Valid() && i < |sessions|
      ensures Valid() && View() == old(View()) && v == U8Or(View().sessions[i].configs, id, default)
    {
      hide View, U8Or;
      v := sessions[i].ByteOr(id, default);
      Undisturbed();
    }

    method ReadWord(i: nat, id: byte, default: uint16) returns (v: uint16)
      requires Valid() && i < |sessions|
      ensures Valid() && View() == old(View()) && v == U16Or(View().sessions[i].configs, id, default)
    {
      hide View, U16Or;
      v := sessions[i].WordOr(id, default);
      Undisturbed();
    }

    method ReadInterval(i: nat) returns (v: uint32)
      requires Valid() && i < |sessions|
      ensures Valid() && View() == old(View()) && v == Interval(setup.profile, View().sessions[i])
    {
      hide View, Interval;
      v := sessions[i].RangingInterval(setup.profile);
      Undisturbed();
    }

    method TakeSample(i: nat) returns (sample: Sample, policy: Policy)
      requires Valid() && i < |sessions|
      ensures Valid() && View() == old(View())
      ensures sample == InitSample(setup.profile, View().sessions[i]) && policy == Evaluate(View().sessions[i], sample)
    {
      hide View, InitSample, Evaluate;
      sample := sessions[i].InitRangingSample(setup.profile);
      policy := sessions[i].EvaluatePolicy(sample);
      Undisturbed();
    }

    // ----- events -----

    method ScheduleEvent(e: Event) returns (ok: bool)
      requires Valid()
      modifies events, events.slots
      ensures Valid() && ok == Schedule(old(View()).events, e).Some?
      ensures View() == if ok then old(View()).(events := old(View()).events + [e]) else old(View())
    {
      hide SimSession.Valid, SimSession.View;
      ok := events.Add(e);
      CoreTouched();
    }

    method RescheduleEvent(e: Event) returns (ok: bool)
      requires Valid()
      modifies events, events.slots
      ensures Valid() && ok == Reschedule(old(View()).events, e).Some?
      ensures View() == old(View()).(events := if ok then Reschedule(old(View()).events, e).value
                                               else if e.kind.NoEvent? then old(View()).events
                                               else Without(old(View()).events, Some(e.kind), e.session))
    {
      hide SimSession.Valid, SimSession.View;
      ok := events.Replace(e);
      CoreTouched();
    }

    method CancelEvents(id: uint32)
      requires Valid()
      modifies events, events.slots
      ensures Valid() && View() == old(View()).(events := Cancel(old(View()).events, id))
    {
      hide SimSession.Valid, SimSession.View;
      events.Remove(None, id);
      CoreTouched();
    }

    method TickEvents(elapsed: uint32)
      requires Valid()
      modifies events.slots
      ensures Valid() && View() == old(View()).(events := Age(old(View()).events, elapsed))
    {
      hide SimSession.Valid, SimSession.View;
      events.Tick(elapsed);
      CoreTouched();
    }

    method DequeueReadyEvent() returns (r: Option<Event>)
      requires Valid()
      modifies events, events.slots
      ensures Valid()
      ensures var q := old(View()).events;
              var i := FirstReady(q);
              if i < |q| then r == Some(q[i]) && View() == old(View()).(events := RemoveAt(q, i))
              else r == None && View() == old(View())
    {
      hide SimSession.Valid, SimSession.View;
      r := events.TakeReady();
      CoreTouched();
    }

    // ----- notifications -----

    method QueueNotification(packet: Packet) returns (ok: bool)
      requires Valid()
      modifies pending, pending.slots
      ensures Valid() && ok == (|old(View()).pending| < MAX_PENDING)
      ensures View() == old(View()).(pending := Queue(Mail(None, old(View()).pending, true), packet).pending)
      ensures !ok ==> View() == old(View())
    {
      hide SimSession.Valid, SimSession.View;
      ok := pending.Add(packet);
      CoreTouched();
    }

    method PendingCount() returns (n: nat)
      requires Valid()
      ensures Valid() && View() == old(View()) && n == |View().pending|
    {
      n := pending.count;
    }

    method DequeueNotification() returns (r: Option<Packet>)
      requires Valid()
      modifies pending, pending.slots
      ensures Valid()
      ensures var q := old(View()).pending;
              if q == [] then r == None && View() == old(View())
              else r == Some(q[0]) && View() == old(View()).(pending := q[1..])
    {
      hide SimSession.Valid, SimSession.View;
      r := pending.Take();
      CoreTouched();
    }

    /** Into the result's notification slot if that is free and nothing is deferred, else into the queue. */
    method DeliverNotification(packet: Packet, direct: Option<Packet>) returns (r: Option<Packet>)
      requires Valid()
      modifies pending, pending.slots
      ensures Valid()
      ensures var m := Hand(setup.scenario.DelayedNotifications?, Mail(direct, old(View()).pending, true),
                            Deliver(packet));
              r == m.direct && View() == old(View()).(pending := m.pending)
    {
      r := direct;
      if !setup.scenario.DelayedNotifications? {
        if direct.None? { return Some(packet); }
      }
      var ok := QueueNotification(packet);
    }

    method FinalizeResult(direct: Option<Packet>, pendingBefore: nat) returns (r: Option<Packet>)
      requires Valid()
      modifies pending, pending.slots
      ensures Valid()
      ensures var m := Finalize(setup, Mail(direct, old(View()).pending, true), pendingBefore);
              r == m.direct && View() == old(View()).(pending := m.pending)
    {
      if direct.Some? { return direct; }
      if setup.scenario.DelayedNotifications? && pendingBefore == 0 { return direct; }
      r := DequeueNotification();
    }

    // ----- periodic work -----

    method NextSequence() returns (sequence: uint32)
      requires Valid()
      modifies `nextSequence
      ensures Valid() && sequence == old(View()).nextSequence
      ensures View() == old(View()).(nextSequence := (old(View()).nextSequence + 1) % WRAP32)
    {
      hide SimSession.Valid, SimSession.View;
      sequence := nextSequence;
      nextSequence := (nextSequence + 1) % WRAP32;
      CoreTouched();
    }

    /** The stop when a session's measurements reach the configured number. */
    method StopAtBudget(i: nat) returns (ok: bool)
      requires Valid() && i < |sessions|
      modifies Footprint()
      ensures Valid() && ok == (|old(View()).pending| < MAX_PENDING)
      ensures var d := old(View());
              var s := d.sessions[i];
              View() == Put(d, i, Halted(s)).(events := Cancel(d.events, s.id),
                pending := Queue(Mail(None, d.pending, true), BudgetNtf(s)).pending)
    {
      hide View, Valid, Footprint;
      Within(i);
      var s := sessions[i].record;
      Update(i, s.(state := STATE_IDLE, streamRemaining := 0));
      CancelEvents(s.id);
      ok := QueueNotification(StatusNtf(s.id, STATE_IDLE, REASON_BUDGET_REACHED));
    }

    /** One measurement of a started stream, as far as its notification finds room. */
    method EmitRangingStream(i: nat) returns (ok: bool)
      requires Valid() && i < |sessions|
      modifies Footprint()
      ensures Valid() && Serving(View(), ok) == ServeRange(setup, old(View()), i)
    {
      hide View, Valid, Footprint, SimSession.Valid, SimSession.View, Halted, BudgetNtf, Cancel, Measure, Queue, Room;
      Within(i);
      RecordIs(i);
      StoppedServed(setup, View(), i);
      var s := sessions[i].record;
      if !setup.scenario.RangingStream? || s.streamRemaining == 0 || s.state != STATE_ACTIVE { return true; }
      var budget := ReadWord(i, MAX_NUMBER_OF_MEASUREMENTS, 0);
      if budget != 0 && s.rangingCount >= budget {
        ok := StopAtBudget(i);
      } else {
        ok := TakeMeasurement(i, budget);
      }
    }

    /** Numbers, builds and queues the notification of a sample. */
    method NotifySample(sample: Sample, fields: Fields) returns (ok: bool)
      requires Valid()
      modifies Core()
      ensures Valid()
      ensures var d := old(View());
              var ntf := RangeDataNtf(setup.profile.rangeData, sample, d.nextSequence, fields);
              && ok == (ntf.Some? && |d.pending| < MAX_PENDING)
              && View() == d.(nextSequence := (d.nextSequence + 1) % WRAP32,
                              pending := if ok then Queue(Mail(None, d.pending, true), ntf.value).pending
                                  else d.pending)
    {
      hide View, Valid, SimSession.Valid, SimSession.View, RangeDataNtf, Queue;
      var sequence := NextSequence();
      var ntf := RangeDataNtf(setup.profile.rangeData, sample, sequence, fields);
      if ntf.None? { return false; }
      ok := QueueNotification(ntf.value);
    }

    /** Counts a measurement and stops the session when the budget is reached. */
    method CountMeasurement(i: nat, inRange: bool, budget: uint16) returns (ok: bool)
      requires Valid() && i < |sessions| && View().sessions[i].streamRemaining > 0
               && budget == Budget(View().sessions[i])
      modifies Footprint()
      ensures Valid()
      ensures var d := old(View());
              var s := Measured(d.sessions[i], inRange);
              if !BudgetReached(s) then ok && View() == Put(d, i, s)
              else
                && ok == (|d.pending| < MAX_PENDING)
                && View() == Put(d, i, Halted(s)).(events := Cancel(d.events, s.id),
                               pending := Queue(Mail(None, d.pending, true), BudgetNtf(s)).pending)
    {
      hide View, Valid, Footprint, SimSession.Valid, SimSession.View, Halted, BudgetNtf, Cancel, Queue;
      Within(i);
      RecordIs(i);
      var s := sessions[i].record;
      s := s.(hasProximity := true, inProximity := inRange, rangingCount := (s.rangingCount + 1) % WRAP32,
              streamRemaining := s.streamRemaining - 1);
      Update(i, s);
      ok := true;
      if budget != 0 && s.rangingCount >= budget {
        ok := StopAtBudget(i);
      }
    }

    method TakeMeasurement(i: nat, budget: uint16) returns (ok: bool)
      requires Valid() && i < |sessions|
      requires Streaming(setup, View().sessions[i]) && !BudgetReached(View().sessions[i])
               && budget == Budget(View().sessions[i])
      modifies Footprint()
      ensures Valid() && Serving(View(), ok) == ServeRange(setup, old(View()), i)
    {
      hide View, Valid, Footprint, SimSession.Valid, SimSession.View, Halted, BudgetNtf, Cancel, InitSample, Evaluate,
        RangeDataNtf, ServeRange, Queue, Budget, BudgetReached, Streaming;
      Within(i);
      MeasurementServed(setup, View(), i);
      var sample, policy := TakeSample(i);
      if policy.emit {
        var notified := NotifySample(sample, policy.fields);
        if !notified { return false; }
      }
      ok := CountMeasurement(i, policy.inRange, budget);
    }

    /** A repetition: counts it and reports it. */
    method RepeatTransfer(i: nat) returns (ok: bool)
      requires Valid() && i < |sessions| && View().sessions[i].repetitionsLeft > 0
      modifies Footprint()
      ensures Valid() && Serving(View(), ok) == ServeTransfer(old(View()), i)
    {
      hide View, Valid, Footprint, SimSession.Valid, SimSession.View, TransferNtf, Queue, Room;
      Within(i);
      RecordIs(i);
      var s := sessions[i].record;
      s := s.(txCount := (s.txCount + 1) % WRAP8, repetitionsLeft := s.repetitionsLeft - 1);
      var note := TransferNtf(s.id, s.transferSequence, TRANSFER_REPETITION_OK, s.txCount);
      PostOne(View(), note);
      Update(i, s);
      ok := QueueNotification(note);
    }

    /** The last transmission: returns the credit, reports success, and ends the transfer. */
    method FinishTransfer(i: nat) returns (ok: bool)
      requires Valid() && i < |sessions| && View().sessions[i].repetitionsLeft == 0
      modifies Footprint()
      ensures Valid() && Serving(View(), ok) == ServeTransfer(old(View()), i)
    {
      hide View, Valid, Footprint, SimSession.Valid, SimSession.View, CreditNtf, TransferNtf, Queue, Room;
      Within(i);
      RecordIs(i);
      var s := sessions[i].record;
      s := s.(txCount := (s.txCount + 1) % WRAP8, transferring := false);
      var credit, note := CreditNtf(s.id), TransferNtf(s.id, s.transferSequence, TRANSFER_OK, s.txCount);
      PostTwo(View(), credit, note);
      Update(i, s);
      ok := QueueNotification(credit);
      if !ok { return; }
      ok := QueueNotification(note);
    }

    /** One transmission of a transfer in progress; without one it fails and changes nothing. */
    method ProgressDataTransfer(i: nat) returns (ok: bool)
      requires Valid() && i < |sessions|
      modifies Footprint()
      ensures Valid()
      ensures var s := old(View()).sessions[i];
              Serving(View(), ok) == if s.inUse && s.transferring then ServeTransfer(old(View()), i)
                  else Serving(old(View()), false)
    {
      RecordIs(i);
      if !sessions[i].record.inUse || !sessions[i].record.transferring { return false; }
      if sessions[i].record.repetitionsLeft > 0 {
        ok := RepeatTransfer(i);
      } else {
        ok := FinishTransfer(i);
      }
    }

    /** The scenario's part of START: a stream gets its burst and its first event. */
    method SessionStarted(i: nat)
      requires Valid() && i < |sessions|
      modifies Footprint()
      ensures Valid()
      ensures var (s, q) := Armed(setup, old(View()).sessions[i], old(View()).events);
              View() == Put(old(View()), i, s).(events := q)
    {
      hide View, Valid, Footprint, SimSession.Valid, SimSession.View, Interval;
      Within(i);
      RecordIs(i);
      if !setup.scenario.RangingStream? { return; }
      var s := sessions[i].record.(streamRemaining := setup.profile.burstCount);
      Update(i, s);
      if s.streamRemaining == 0 { return; }
      var delay := ReadInterval(i);
      var scheduled := ScheduleEvent(Event(RangeData, s.id, delay));
    }

    method SessionStopped(i: nat)
      requires Valid() && i < |sessions|
      modifies Footprint()
      ensures Valid()
      ensures var s := old(View()).sessions[i];
              View() == Put(old(View()), i, Stopped(s)).(events := Cancel(old(View()).events, s.id))
    {
      hide View, Valid, Footprint, SimSession.Valid, SimSession.View, Cancel;
      Within(i);
      RecordIs(i);
      var s := sessions[i].record;
      Update(i, s.(streamRemaining := 0, transferring := false, repetitionsLeft := 0, txCount := 0));
      CancelEvents(s.id);
    }
  }

  /** Serving a range event when no measurement is taken. */
  lemma StoppedServed(setup: Setup, d: Device, i: nat)
    requires i < |d.sessions|
    ensures var s := d.sessions[i];
            && (!Streaming(setup, s) ==> ServeRange(setup, d, i) == Serving(d, true))
            && (Streaming(setup, s) && BudgetReached(s) ==>
                 ServeRange(setup, d, i) ==
                   Serving(Put(d, i, Halted(s)).(events := Cancel(d.events, s.id),
                             pending := Queue(Mail(None, d.pending, true), BudgetNtf(s)).pending),
                           |d.pending| < MAX_PENDING))
  {
    assert d.sessions[i := d.sessions[i]] == d.sessions && d.pending + [] == d.pending;
  }

  /** The order in which a measurement takes a sequence number, notifies, counts, and looks at the budget again. */
  lemma MeasurementServed(setup: Setup, d: Device, i: nat)
    requires i < |d.sessions| && Streaming(setup, d.sessions[i]) && !BudgetReached(d.sessions[i])
    ensures var s := d.sessions[i];
            var sample := InitSample(setup.profile, s);
            var policy := Evaluate(s, sample);
            var ntf := RangeDataNtf(setup.profile.rangeData, sample, d.nextSequence, policy.fields);
            var next := if policy.emit then (d.nextSequence + 1) % WRAP32 else d.nextSequence;
            var served := ServeRange(setup, d, i);
            if policy.emit && (ntf.None? || |d.pending| >= MAX_PENDING) then
              served == Serving(d.(nextSequence := next), false)
            else
              var q := if policy.emit then Queue(Mail(None, d.pending, true), ntf.value).pending else d.pending;
              var s' := Measured(s, policy.inRange);
              if !BudgetReached(s') then served == Serving(Put(d, i, s').(nextSequence := next, pending := q), true)
              else served == Serving(Put(d, i, Halted(s')).(nextSequence := next, events := Cancel(d.events, s.id),
                                       pending := Queue(Mail(None, q, true), BudgetNtf(s')).pending),
                                     |q| < MAX_PENDING)
  {
    hide InitSample, Evaluate, RangeDataNtf, Cancel, BudgetReached;
    assert d.sessions[i := d.sessions[i]] == d.sessions && d.pending + [] == d.pending;
    var s := d.sessions[i];
    var sample := InitSample(setup.profile, s);
    var policy := Evaluate(s, sample);
    var ntf := RangeDataNtf(setup.profile.rangeData, sample, d.nextSequence, policy.fields);
    if ntf.Some? {
      assert d.pending + ([ntf.value] + [BudgetNtf(s)]) == d.pending + [ntf.value] + [BudgetNtf(s)];
    }
  }

  /** Posting one note, and two notes, in terms of the room left. */
  lemma PostOne(d: Device, note: Packet)
    ensures Queue(Mail(None, d.pending, true), note).pending == d.pending + [note][..Min(Room(d), 1)]
    ensures (Min(Room(d), 1) == 1) == (|d.pending| < MAX_PENDING)
  {
  }

  lemma PostTwo(d: Device, first: Packet, second: Packet)
    ensures var q := Queue(Mail(None, d.pending, true), first).pending;
            && (|d.pending| >= MAX_PENDING ==> q == d.pending + [first, second][..Min(Room(d), 2)])
            && (|d.pending| < MAX_PENDING ==>
                 Queue(Mail(None, q, true), second).pending == d.pending + [first, second][..Min(Room(d), 2)])
            && (Min(Room(d), 2) == 2) == (|d.pending| < MAX_PENDING && |q| < MAX_PENDING)
  {
    var q := Queue(Mail(None, d.pending, true), first).pending;
    if |d.pending| < MAX_PENDING {
      assert [first, second][..1] == [first] && [first, second][..2] == [first] + [second];
      assert d.pending + [first] + [second] == d.pending + ([first] + [second]);
    }
  }

  lemma FindSessionIs(sessions: seq<Session>, id: uint32, i: nat)
    requires i <= |sessions| && (i < |sessions| ==> sessions[i].inUse && sessions[i].id == id)
    requires forall j :: 0 <= j < i ==> !(sessions[j].inUse && sessions[j].id == id)
    ensures FindSession(sessions, id) == i
  {
    var k := FindSession(sessions, id);
  }

  lemma FirstFreeIs(sessions: seq<Session>, i: nat)
    requires i <= |sessions| && (i < |sessions| ==> !sessions[i].inUse)
    requires forall j :: 0 <= j < i ==> sessions[j].inUse
    ensures FirstFree(sessions) == i
  {
    var k := FirstFree(sessions);
  }
}
